/** The wait-satisfied events that a batch calls for. */
module Waits {
  import opened Common
  import opened Events
  import opened Fold

  /** Which events a wait is for, and how the waiting thread is told of one. */
  datatype WaitHost = WaitHost(matches: (Event, WaitRecord) -> bool, describe: Event -> Json)

  /** An event and a wait that it satisfies. */
  datatype Answer = Answer(cause: Event, waitId: string, wait: WaitRecord)

  predicate MayAnswer(e: Event) {
    !e.ephemeral && !e.etype.WaitSatisfied?
  }

  /** The remaining waits that are for `e`, in key order. */
  function MatchingWaits(e: Event, order: seq<string>, remaining: map<string, WaitRecord>, host: WaitHost): seq<string> {
    Filter(order, IsFor(e, remaining, host))
  }

  function IsFor(e: Event, remaining: map<string, WaitRecord>, host: WaitHost): string -> bool {
    (w: string) => w in remaining && host.matches(e, remaining[w])
  }

  function AnswersOf(e: Event, ids: seq<string>, remaining: map<string, WaitRecord>): (r: seq<Answer>)
    requires forall w :: w in ids ==> w in remaining
    ensures forall a :: a in r <==> a.cause == e && a.waitId in ids && a.wait == remaining[a.waitId]
  {
    if ids == [] then [] else
    AnswersOf(e, ids[..|ids| - 1], remaining) + [Answer(e, ids[|ids| - 1], remaining[ids[|ids| - 1]])]
  }

  function Without(remaining: map<string, WaitRecord>, ids: seq<string>): map<string, WaitRecord> {
    map w | w in remaining && w !in ids :: remaining[w]
  }

  /** Each event takes the waits it satisfies from those that remain. `order` is the key order of the waits. */
  function Answers(events: seq<Event>, order: seq<string>, remaining: map<string, WaitRecord>, host: WaitHost): seq<Answer> {
    if events == [] then []
    else if !MayAnswer(events[0]) then Answers(events[1..], order, remaining, host)
    else
      var ids := MatchingWaits(events[0], order, remaining, host);
      AnswersOf(events[0], ids, remaining) + Answers(events[1..], order, Without(remaining, ids), host)
  }

  function SatisfiedEvent(runId: string, now: int, a: Answer, host: WaitHost): Event {
    Event("", runId, 0, now, WaitSatisfied,
          Obj(map[KWaitId := Str(a.waitId), KTag := a.wait.tag.GetOr(Null), Named("event") := host.describe(a.cause)]),
          None, Some(a.wait.threadId), Some(a.cause.id), None, None, System, false, None)
  }

  function SatisfiedEvents(answers: seq<Answer>, runId: string, now: int, host: WaitHost): seq<Event> {
    seq(|answers|, i requires 0 <= i < |answers| => SatisfiedEvent(runId, now, answers[i], host))
  }

  function WaitSatisfiedEvents(
    waits: map<string, WaitRecord>, order: seq<string>, events: seq<Event>, runId: string, now: int, host: WaitHost): seq<Event>
  {
    SatisfiedEvents(Answers(events, order, waits, host), runId, now, host)
  }

  /** The loop over the events, taking each event's matches out of the waits that remain. */
  method SatisfyWaits(
    waits: map<string, WaitRecord>, order: seq<string>, events: seq<Event>, runId: string, now: int, host: WaitHost)
    returns (produced: seq<Event>)
    ensures produced == WaitSatisfiedEvents(waits, order, events, runId, now, host)
  {
    hide SatisfiedEvent, MatchingWaits, IsFor, MayAnswer;
    produced := [];
    var remaining := waits;
    ghost var answers := [];
    for i := 0 to |events|
      invariant Answers(events, order, waits, host) == answers + Answers(events[i..], order, remaining, host)
      invariant produced == SatisfiedEvents(answers, runId, now, host)
    {
      assert events[i..][0] == events[i] && events[i..][1..] == events[i + 1..];
      if !MayAnswer(events[i]) {
        continue;
      }
      var before, matches := remaining, MatchingWaits(events[i], order, remaining, host);
      MatchesRemain(events[i], order, before, host);
      ghost var mine := AnswersOf(events[i], matches, before);
      Associates(answers, mine, Answers(events[i + 1..], order, Without(before, matches), host));
      produced, remaining := SatisfyMatches(answers, events[i], matches, before, produced, runId, now, host);
      answers := answers + mine;
    }
    assert answers + [] == answers;
  }

  method SatisfyMatches(
    ghost answers: seq<Answer>, e: Event, matches: seq<string>, before: map<string, WaitRecord>, so: seq<Event>,
    runId: string, now: int, host: WaitHost)
    returns (produced: seq<Event>, remaining: map<string, WaitRecord>)
    requires (forall w :: w in matches ==> w in before) && so == SatisfiedEvents(answers, runId, now, host)
    ensures produced == SatisfiedEvents(answers + AnswersOf(e, matches, before), runId, now, host)
    ensures remaining == Without(before, matches)
  {
    hide SatisfiedEvent;
    produced, remaining := so, before;
    assert answers + [] == answers;
    for j := 0 to |matches|
      invariant remaining == Without(before, matches[..j])
      invariant produced == SatisfiedEvents(answers + AnswersOf(e, matches[..j], before), runId, now, host)
    {
      assert matches[..j + 1][..j] == matches[..j];
      var a := Answer(e, matches[j], before[matches[j]]);
      Associates(answers, AnswersOf(e, matches[..j], before), [a]);
      produced := produced + [SatisfiedEvent(runId, now, a, host)];
      remaining := remaining - {matches[j]};
    }
    assert matches[..|matches|] == matches;
  }

  lemma Associates(a: seq<Answer>, b: seq<Answer>, c: seq<Answer>)
    ensures a + (b + c) == a + b + c
  {
  }

  lemma MatchesRemain(e: Event, order: seq<string>, remaining: map<string, WaitRecord>, host: WaitHost)
    ensures forall w :: w in MatchingWaits(e, order, remaining, host) <==> w in order && w in remaining && host.matches(e, remaining[w])
  {
  }

  // ---------------------------------------------------------------- each wait once, by the first event for it

  /** The first of the events that may answer a wait and is what this one is for. */
  function FirstFor(events: seq<Event>, w: WaitRecord, host: WaitHost): Option<Event> {
    if events == [] then None
    else if MayAnswer(events[0]) && host.matches(events[0], w) then Some(events[0])
    else FirstFor(events[1..], w, host)
  }

  /** A wait is answered if and only if one of the events is what it is for, and then by the first such event. */
  lemma {:induction false} AnsweredByTheFirst(
    events: seq<Event>, order: seq<string>, remaining: map<string, WaitRecord>, host: WaitHost, a: Answer)
    ensures a in Answers(events, order, remaining, host)
       <==> a.waitId in order && a.waitId in remaining && a.wait == remaining[a.waitId] && FirstFor(events, a.wait, host) == Some(a.cause)
  {
    if events != [] {
      if MayAnswer(events[0]) {
        var ids := MatchingWaits(events[0], order, remaining, host);
        MatchesRemain(events[0], order, remaining, host);
        AnsweredByTheFirst(events[1..], order, Without(remaining, ids), host, a);
      } else {
        AnsweredByTheFirst(events[1..], order, remaining, host, a);
      }
    }
  }

  predicate NoRepeats(ids: seq<string>) {
    forall i, j :: 0 <= i < j < |ids| ==> ids[i] != ids[j]
  }

  predicate DifferentWaits(answers: seq<Answer>) {
    forall i, j :: 0 <= i < j < |answers| ==> answers[i].waitId != answers[j].waitId
  }

  lemma {:induction false} FilterNoRepeats(ids: seq<string>, keep: string -> bool)
    requires NoRepeats(ids)
    ensures NoRepeats(Filter(ids, keep))
  {
    if ids != [] {
      assert forall k :: 0 <= k < |ids[1..]| ==> ids[1..][k] == ids[k + 1];
      FilterNoRepeats(ids[1..], keep);
      assert forall x :: x in Filter(ids[1..], keep) ==> x in ids[1..];
    }
  }

  lemma {:induction false} AnswersOfDiffer(e: Event, ids: seq<string>, remaining: map<string, WaitRecord>)
    requires NoRepeats(ids) && forall w :: w in ids ==> w in remaining
    ensures |AnswersOf(e, ids, remaining)| == |ids| && forall i :: 0 <= i < |ids| ==> AnswersOf(e, ids, remaining)[i].waitId == ids[i]
  {
    if ids != [] {
      AnswersOfDiffer(e, ids[..|ids| - 1], remaining);
    }
  }

  lemma JoinDifferent(first: seq<Answer>, second: seq<Answer>)
    requires DifferentWaits(first) && DifferentWaits(second)
    requires forall a, b :: a in first && b in second ==> a.waitId != b.waitId
    ensures DifferentWaits(first + second)
  {
  }

  /** No wait is answered twice. */
  lemma {:induction false} NoWaitAnsweredTwice(
    events: seq<Event>, order: seq<string>, remaining: map<string, WaitRecord>, host: WaitHost)
    requires NoRepeats(order)
    ensures DifferentWaits(Answers(events, order, remaining, host))
  {
    if events != [] {
      if MayAnswer(events[0]) {
        var ids := MatchingWaits(events[0], order, remaining, host);
        var left := Without(remaining, ids);
        FilterNoRepeats(order, IsFor(events[0], remaining, host));
        AnswersOfDiffer(events[0], ids, remaining);
        NoWaitAnsweredTwice(events[1..], order, left, host);
        var mine, later := AnswersOf(events[0], ids, remaining), Answers(events[1..], order, left, host);
        forall a, b | a in mine && b in later ensures a.waitId != b.waitId {
          AnsweredByTheFirst(events[1..], order, left, host, b);
        }
        JoinDifferent(mine, later);
      } else {
        NoWaitAnsweredTwice(events[1..], order, remaining, host);
      }
    }
  }
}

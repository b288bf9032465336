/** A subscriber of one run's log, across connections that may drop at any moment. */
module Subscription {
  import opened Common

  datatype Event = Event(seqNo: int, thread: Option<string>, ephemeral: bool, body: Json)

  /** What the subscriber asked for. */
  datatype Wanted = Wanted(thread: Option<string>, includeEphemeral: bool)

  predicate Matches(e: Event, w: Wanted) {
    (w.includeEphemeral || !e.ephemeral) && (w.thread.None? || e.thread == w.thread)
  }

  datatype Frame = Hello(head: int, tail: int) | Batch(events: seq<Event>) | Resync(head: int)

  // ---------------------------------------------------------------- where a connection starts

  /** The request's cursor: the event after `Last-Event-ID`, or `fromSeq`, or the first. */
  function SubscriptionFromSeq(lastEventId: Option<int>, fromSeq: Option<int>): Option<int> {
    if lastEventId.Some? then if lastEventId.value < 0 then None else Some(lastEventId.value + 1)
    else if fromSeq.None? then Some(1)
    else if fromSeq.value < 1 then None
    else Some(fromSeq.value)
  }

  /** The header an event-stream request carries. A WebSocket request carries none. */
  function LastEventId(next: int): Option<int> {
    if Max(0, next - 1) > 0 then Some(Max(0, next - 1)) else None
  }

  /** Over either transport the server starts where the client stands. */
  lemma ResumesWhereClientStands(next: int, webSocket: bool)
    requires next >= 1
    ensures SubscriptionFromSeq(if webSocket then None else LastEventId(next), Some(next)) == Some(next)
  {
  }

  // ---------------------------------------------------------------- pushing and delivering

  /** The cursor after walking `events`, and the matching events past it on the way. */
  function Pushed(cursor: int, events: seq<Event>, w: Wanted): (int, seq<Event>) {
    if events == [] then (cursor, []) else
    var (at, batch) := Pushed(cursor, events[..|events| - 1], w);
    var e := events[|events| - 1];
    if e.seqNo <= at then (at, batch) else (e.seqNo, if Matches(e, w) then batch + [e] else batch)
  }

  method PushSubscriptionEvents(cursor: int, events: seq<Event>, w: Wanted) returns (next: int, batch: seq<Event>)
    ensures (next, batch) == Pushed(cursor, events, w)
  {
    next, batch := cursor, [];
    for i := 0 to |events|
      invariant (next, batch) == Pushed(cursor, events[..i], w)
    {
      assert events[..i + 1][..i] == events[..i];
      if events[i].seqNo <= next {
        continue;
      }
      next := events[i].seqNo;
      if Matches(events[i], w) {
        batch := batch + [events[i]];
      }
    }
    assert events[..|events|] == events;
  }

  /** Where the client stands after a batch. */
  function NextSeq(fromSeq: int, events: seq<Event>): int {
    if events == [] then fromSeq else
    var before, e := NextSeq(fromSeq, events[..|events| - 1]), events[|events| - 1];
    if e.seqNo < fromSeq then before else Max(before, e.seqNo + 1)
  }

  function AtLeast(low: int): Event -> bool {
    (e: Event) => e.seqNo >= low
  }

  method DeliverBatch(fromSeq: int, events: seq<Event>) returns (next: int, delivered: seq<Event>)
    ensures next == NextSeq(fromSeq, events) && delivered == Filter(events, AtLeast(fromSeq))
  {
    next, delivered := fromSeq, [];
    for i := 0 to |events|
      invariant next == NextSeq(fromSeq, events[..i]) && delivered == Filter(events[..i], AtLeast(fromSeq))
    {
      assert events[..i + 1][..i] == events[..i];
      assert events[..i + 1] == events[..i] + [events[i]];
      FilterAppend(events[..i], [events[i]], AtLeast(fromSeq));
      if events[i].seqNo < fromSeq {
        continue;
      }
      delivered := delivered + [events[i]];
      next := Max(next, events[i].seqNo + 1);
    }
    assert events[..|events|] == events;
  }

  // ---------------------------------------------------------------- the system

  /** A live connection: whether the server still pushes, its cursor, and the frames on their way. */
  datatype Connection = Connection(attached: bool, cursor: int, frames: seq<Frame>)

  /**
   * `retained` and `head` are the log; `unpushed` are appended batches not yet fanned out. `history` is
   * every event ever appended. `received` is what the client was given since `start`, where it last
   * began or was told to resync.
   */
  datatype System = System(
    retained: seq<Event>, head: int, tail: int, unpushed: seq<seq<Event>>, connection: Option<Connection>,
    history: seq<Event>, start: int, fromSeq: int, received: seq<Event>)

  /** `congested`, `sent` and `told` are a push's outcomes: too much buffered, the batch sent, the resync sent. */
  datatype Outcome = Outcome(congested: bool, sent: bool, told: bool)

  /**
   * A fan-out names the head it read, or 1 when it could not read the bounds: any number that is a place
   * to resume from.
   */
  datatype Action =
    | Append(events: seq<Event>)
    | Trim(beforeSeq: int)
    | Fanout(outcome: Outcome, head: int)
    | Connect(helloSent: bool, outcome: Outcome)
    | Receive
    | Disconnect

  const START := System([], 1, 0, [], None, [], 1, 1, [])

  predicate Increasing(es: seq<Event>) {
    forall i, j :: 0 <= i < j < |es| ==> es[i].seqNo < es[j].seqNo
  }

  function CloseForResync(c: Connection, head: int, told: bool): Connection {
    Connection(false, c.cursor, if told then c.frames + [Resync(head)] else c.frames)
  }

  /** `pushSubscriptionEvents` on an attached connection. */
  function Push(c: Connection, events: seq<Event>, w: Wanted, head: int, o: Outcome): Connection {
    var (next, batch) := Pushed(c.cursor, events, w);
    if o.congested then CloseForResync(c, head, o.told)
    else if batch == [] then c.(cursor := next)
    else if o.sent then Connection(true, next, c.frames + [Batch(batch)])
    else CloseForResync(c, head, o.told)
  }

  /** `openSubscription`: replay from where the client stands, unless that was trimmed. */
  function Open(s: System, w: Wanted, helloSent: bool, o: Outcome): Connection {
    var made := Connection(true, s.fromSeq - 1, []);
    if s.fromSeq < s.head || !helloSent then CloseForResync(made, s.head, o.told)
    else Push(made.(frames := [Hello(s.head, s.tail)]), Filter(s.retained, AtLeast(s.fromSeq)), w, s.head, o)
  }

  /** The client takes the first frame. */
  function Take(s: System): Option<System> {
    if s.connection.None? || s.connection.value.frames == [] then None else
    var c := s.connection.value;
    var rest := s.(connection := Some(c.(frames := c.frames[1..])));
    match c.frames[0]
    case Hello(_, _) => Some(rest)
    case Batch(events) =>
      Some(rest.(fromSeq := NextSeq(s.fromSeq, events), received := s.received + Filter(events, AtLeast(s.fromSeq))))
    case Resync(head) => Some(s.(connection := None, start := head, fromSeq := head, received := []))
  }

  function Step(s: System, a: Action, w: Wanted): Option<System> {
    match a
    case Append(events) =>
      if events != [] && Increasing(events) && events[0].seqNo > s.tail then
        Some(s.(retained := s.retained + events, tail := events[|events| - 1].seqNo, unpushed := s.unpushed + [events],
                history := s.history + events))
      else None
    case Trim(beforeSeq) =>
      if beforeSeq <= s.tail + 1 then
        Some(s.(retained := Filter(s.retained, AtLeast(beforeSeq)), head := Max(s.head, beforeSeq)))
      else None
    case Fanout(o, head) =>
      if s.unpushed == [] || !(1 <= head <= s.tail + 1) then None else
      var rest := s.(unpushed := s.unpushed[1..]);
      if s.connection.None? || !s.connection.value.attached then Some(rest)
      else Some(rest.(connection := Some(Push(s.connection.value, s.unpushed[0], w, head, o))))
    case Connect(helloSent, o) =>
      if s.connection.Some? then None else Some(s.(connection := Some(Open(s, w, helloSent, o))))
    case Receive => Take(s)
    case Disconnect => Some(s.(connection := None))
  }

  function Run(s: System, actions: seq<Action>, w: Wanted): Option<System>
    decreases |actions|
  {
    if actions == [] then Some(s) else
    match Step(s, actions[0], w)
    case None => None
    case Some(next) => Run(next, actions[1..], w)
  }

  // ---------------------------------------------------------------- exactly once, in order

  function Due(w: Wanted, low: int, high: int): Event -> bool {
    (e: Event) => low <= e.seqNo < high && Matches(e, w)
  }

  /** The matching events with `low <= seq < high`. */
  function Matching(es: seq<Event>, w: Wanted, low: int, high: int): seq<Event> {
    Filter(es, Due(w, low, high))
  }

  function Flat(batches: seq<seq<Event>>): seq<Event> {
    if batches == [] then [] else batches[0] + Flat(batches[1..])
  }

  /** The events still on their way to the client. */
  function Payload(frames: seq<Frame>): seq<Event> {
    if frames == [] then [] else (if frames[0].Batch? then frames[0].events else []) + Payload(frames[1..])
  }

  predicate LogOk(s: System) {
    && Increasing(s.history) && 1 <= s.head <= s.tail + 1
    && (forall e :: e in s.history ==> 1 <= e.seqNo <= s.tail)
    && s.retained == Filter(s.history, AtLeast(s.head))
  }

  /** What is not fanned out yet is the end of the history. */
  predicate UnpushedOk(s: System) {
    |Flat(s.unpushed)| <= |s.history| && s.history[|s.history| - |Flat(s.unpushed)|..] == Flat(s.unpushed)
  }

  predicate ClientOk(s: System, w: Wanted) {
    1 <= s.start <= s.fromSeq <= s.tail + 1 && s.received == Matching(s.history, w, s.start, s.fromSeq)
  }

  /** Resync is the last frame of a connection the server has let go of. */
  predicate FramesOk(c: Connection, tail: int) {
    forall i :: 0 <= i < |c.frames| && c.frames[i].Resync? ==>
                  !c.attached && i == |c.frames| - 1 && 1 <= c.frames[i].head <= tail + 1
  }

  predicate ConnectionOk(s: System, c: Connection, w: Wanted) {
    && FramesOk(c, s.tail) && s.fromSeq <= c.cursor + 1 <= s.tail + 1
    && Payload(c.frames) == Matching(s.history, w, s.fromSeq, c.cursor + 1)
    && (c.attached ==> forall i :: 0 <= i < |s.history| - |Flat(s.unpushed)| ==> s.history[i].seqNo <= c.cursor)
  }

  predicate Inv(s: System, w: Wanted) {
    LogOk(s) && UnpushedOk(s) && ClientOk(s, w) && (s.connection.Some? ==> ConnectionOk(s, s.connection.value, w))
  }

  lemma ConsIncreasing(e: Event, rest: seq<Event>)
    requires Increasing(rest) && forall x :: x in rest ==> x.seqNo > e.seqNo
    ensures Increasing([e] + rest)
  {
    assert forall i :: 0 <= i < |rest| ==> rest[i] in rest;
  }

  lemma TailIncreasing(es: seq<Event>)
    requires Increasing(es) && es != []
    ensures Increasing(es[1..]) && forall x :: x in es[1..] ==> x.seqNo > es[0].seqNo
  {
  }

  lemma {:induction false} FilterIncreasing(es: seq<Event>, keep: Event -> bool)
    requires Increasing(es)
    ensures Increasing(Filter(es, keep))
  {
    hide Increasing;
    if es == [] {
      assert Filter(es, keep) == es;
    } else {
      TailIncreasing(es);
      FilterIncreasing(es[1..], keep);
      ConsIncreasing(es[0], Filter(es[1..], keep));
    }
  }

  lemma {:induction false} RangesJoin(es: seq<Event>, w: Wanted, low: int, middle: int, high: int)
    requires Increasing(es) && low <= middle <= high
    ensures Matching(es, w, low, middle) + Matching(es, w, middle, high) == Matching(es, w, low, high)
  {
    if es != [] {
      RangesJoin(es[1..], w, low, middle, high);
      if es[0].seqNo >= middle {
        assert forall e :: e in es[1..] ==> e.seqNo > es[0].seqNo;
        FilterNone(es, Due(w, low, middle));
        FilterNone(es[1..], Due(w, low, middle));
      }
    }
  }

  lemma OneMore(before: seq<Event>, e: Event, w: Wanted, low: int, at: int)
    requires Increasing(before) && (forall x :: x in before ==> x.seqNo <= at) && at < e.seqNo && low <= at + 1
    ensures var was := Matching(before, w, low, at + 1);
            Matching(before + [e], w, low, e.seqNo + 1) == if Matches(e, w) then was + [e] else was
  {
    hide Filter, Increasing;
    FilterAppend(before, [e], Due(w, low, e.seqNo + 1));
    RangesJoin(before, w, low, at + 1, e.seqNo + 1);
    FilterNone(before, Due(w, at + 1, e.seqNo + 1));
    OneEvent(e, w, low, e.seqNo + 1);
  }

  lemma PushedStep(before: seq<Event>, e: Event, w: Wanted, cursor: int, at: int)
    requires Increasing(before + [e]) && at == if before == [] then cursor else Max(cursor, before[|before| - 1].seqNo)
    ensures e.seqNo <= at ==> at == Max(cursor, e.seqNo) && Matching(before, w, cursor + 1, at + 1) == Matching(before + [e], w, cursor + 1, at + 1)
    ensures e.seqNo > at ==>
              && e.seqNo == Max(cursor, e.seqNo)
              && var was := Matching(before, w, cursor + 1, at + 1);
                 Matching(before + [e], w, cursor + 1, e.seqNo + 1) == if Matches(e, w) then was + [e] else was
  {
    hide Filter, Increasing, Matching, Matches;
    PrefixInOrder(before + [e]);
    assert (before + [e])[..|before|] == before;
    InOrder(before, at, cursor);
    if e.seqNo > at {
      OneMore(before, e, w, cursor + 1, at);
    } else {
      NothingPast(before + [e], w, cursor);
      NothingPast(before, w, cursor);
    }
  }

  /** Walking events in order pushes exactly the matching ones past the cursor. */
  lemma {:induction false} PushedIsRange(cursor: int, events: seq<Event>, w: Wanted)
    requires Increasing(events)
    ensures Pushed(cursor, events, w).0 == if events == [] then cursor else Max(cursor, events[|events| - 1].seqNo)
    ensures Pushed(cursor, events, w).1 == Matching(events, w, cursor + 1, Pushed(cursor, events, w).0 + 1)
  {
    hide Increasing, Matching;
    NothingPast([], w, cursor);
    if events != [] {
      var before, e := events[..|events| - 1], events[|events| - 1];
      PrefixInOrder(events);
      PushedIsRange(cursor, before, w);
      var r := Pushed(cursor, before, w);
      assert Pushed(cursor, events, w) == if e.seqNo <= r.0 then r else (e.seqNo, if Matches(e, w) then r.1 + [e] else r.1);
      hide Pushed;
      assert events == before + [e];
      PushedStep(before, e, w, cursor, r.0);
    }
  }

  lemma NothingPast(events: seq<Event>, w: Wanted, cursor: int)
    ensures Matching(events, w, cursor + 1, cursor + 1) == []
  {
    FilterNone(events, Due(w, cursor + 1, cursor + 1));
  }

  lemma PrefixInOrder(events: seq<Event>)
    requires Increasing(events) && events != []
    ensures Increasing(events[..|events| - 1])
    ensures |events| > 1 ==> events[..|events| - 1][|events| - 2].seqNo < events[|events| - 1].seqNo
  {
  }

  lemma InOrder(events: seq<Event>, at: int, cursor: int)
    requires Increasing(events) && at == if events == [] then cursor else Max(cursor, events[|events| - 1].seqNo)
    ensures forall e :: e in events ==> e.seqNo <= at
  {
  }

  lemma OneEvent(e: Event, w: Wanted, low: int, high: int)
    ensures Matching([e], w, low, high) == if Due(w, low, high)(e) then [e] else []
  {
  }

  // ---- each step

  lemma MatchingFacts(history: seq<Event>, w: Wanted, low: int, high: int)
    requires Increasing(history)
    ensures Increasing(Matching(history, w, low, high))
    ensures forall e :: e in Matching(history, w, low, high) ==> Due(w, low, high)(e)
  {
    FilterIncreasing(history, Due(w, low, high));
  }

  lemma MatchingWithin(history: seq<Event>, w: Wanted, low: int, high: int, a: int, b: int)
    requires low <= a && b <= high
    ensures Matching(Matching(history, w, low, high), w, a, b) == Matching(history, w, a, b)
  {
    FilterWithin(history, Due(w, low, high), Due(w, a, b));
  }

  lemma Prefixed(first: seq<Event>, rest: seq<Event>)
    requires Increasing(first + rest)
    ensures Increasing(first)
  {
    assert forall i :: 0 <= i < |first| ==> first[i] == (first + rest)[i];
  }

  /** The first batch on its way is the next range of what is due. */
  lemma FirstIsRange(history: seq<Event>, w: Wanted, low: int, high: int, first: seq<Event>, rest: seq<Event>)
    requires Increasing(history) && Matching(history, w, low, high) == first + rest && first != []
    ensures var middle := first[|first| - 1].seqNo + 1;
            && low < middle <= high && first == Matching(history, w, low, middle) && rest == Matching(history, w, middle, high)
            && Increasing(first) && forall e :: e in first ==> low <= e.seqNo
  {
    hide Increasing, Matching;
    MatchingFacts(history, w, low, high);
    Prefixed(first, rest);
    var middle := first[|first| - 1].seqNo + 1;
    assert first[|first| - 1] in first + rest;
    assert forall e :: e in first ==> e in first + rest;
    SplitDue(first, rest, w, low, middle, high);
    MatchingWithin(history, w, low, high, low, middle);
    MatchingWithin(history, w, low, high, middle, high);
  }

  lemma SplitDue(first: seq<Event>, rest: seq<Event>, w: Wanted, low: int, middle: int, high: int)
    requires Increasing(first + rest) && first != [] && middle == first[|first| - 1].seqNo + 1
    requires forall e :: e in first + rest ==> Due(w, low, high)(e)
    ensures Matching(first + rest, w, low, middle) == first && Matching(first + rest, w, middle, high) == rest
  {
    hide Filter;
    var due := first + rest;
    forall e | e in first ensures e in due && e.seqNo < middle {
      var i :| 0 <= i < |first| && first[i] == e;
      assert due[i] == e && due[|first| - 1] == first[|first| - 1];
    }
    forall e | e in rest ensures e in due && e.seqNo >= middle {
      var i :| 0 <= i < |rest| && rest[i] == e;
      assert due[|first| + i] == e && due[|first| - 1] == first[|first| - 1];
    }
    FilterFirst(first, rest, Due(w, low, middle));
    FilterSecond(first, rest, Due(w, middle, high));
  }

  lemma {:induction false} NextIsLast(fromSeq: int, events: seq<Event>)
    requires Increasing(events) && events != [] && forall e :: e in events ==> fromSeq <= e.seqNo
    ensures NextSeq(fromSeq, events) == events[|events| - 1].seqNo + 1
  {
    var before := events[..|events| - 1];
    assert events[|events| - 1] in events;
    PrefixInOrder(events);
    if before != [] {
      assert forall e :: e in before ==> e in events;
      NextIsLast(fromSeq, before);
    }
  }

  lemma TakeBatchKeeps(s: System, w: Wanted)
    requires Inv(s, w) && s.connection.Some? && s.connection.value.frames != [] && s.connection.value.frames[0].Batch?
    ensures Inv(Take(s).value, w)
  {
    hide Increasing, Matching, Filter, Flat, NextSeq;
    var c := s.connection.value;
    var events, rest := c.frames[0].events, Payload(c.frames[1..]);
    assert Payload(c.frames) == events + rest;
    if events == [] {
      assert events + rest == rest;
      NoEvents(s.fromSeq);
      assert s.received + [] == s.received;
    } else {
      FirstIsRange(s.history, w, s.fromSeq, c.cursor + 1, events, rest);
      NextIsLast(s.fromSeq, events);
      FilterAll(events, AtLeast(s.fromSeq));
      RangesJoin(s.history, w, s.start, s.fromSeq, events[|events| - 1].seqNo + 1);
    }
  }

  lemma NoEvents(fromSeq: int)
    ensures NextSeq(fromSeq, []) == fromSeq && Filter([], AtLeast(fromSeq)) == []
  {
  }

  lemma TakeHelloKeeps(s: System, w: Wanted)
    requires Inv(s, w) && s.connection.Some? && s.connection.value.frames != [] && s.connection.value.frames[0].Hello?
    ensures Inv(Take(s).value, w)
  {
    hide LogOk, UnpushedOk, ClientOk, Matching, Filter, Flat, NextSeq;
    var c := s.connection.value;
    assert Payload(c.frames) == [] + Payload(c.frames[1..]);
    assert [] + Payload(c.frames[1..]) == Payload(c.frames[1..]);
    SameButConnection(s, Take(s).value, w);
  }

  lemma TakeResyncKeeps(s: System, w: Wanted)
    requires Inv(s, w) && s.connection.Some? && s.connection.value.frames != [] && s.connection.value.frames[0].Resync?
    ensures Inv(Take(s).value, w)
  {
    hide LogOk, UnpushedOk, Matching, Filter, Flat, NextSeq, Payload;
    var head := s.connection.value.frames[0].head;
    NothingDue(s.history, w, head);
    SameLog(s, Take(s).value);
  }

  lemma SameLog(s: System, t: System)
    requires t.retained == s.retained && t.head == s.head && t.tail == s.tail && t.history == s.history && t.unpushed == s.unpushed
    ensures LogOk(t) == LogOk(s) && UnpushedOk(t) == UnpushedOk(s)
  {
    hide Increasing, Filter, Flat;
  }

  lemma SameButConnection(s: System, t: System, w: Wanted)
    requires t == s.(connection := t.connection)
    ensures LogOk(t) == LogOk(s) && UnpushedOk(t) == UnpushedOk(s) && ClientOk(t, w) == ClientOk(s, w)
  {
    hide Increasing, Filter, Flat, Matching;
  }

  lemma TakeKeeps(s: System, w: Wanted)
    requires Inv(s, w) && Take(s).Some?
    ensures Inv(Take(s).value, w)
  {
    var f := s.connection.value.frames[0];
    hide Inv, Take;
    match f
    case Hello(_, _) => TakeHelloKeeps(s, w);
    case Batch(_) => TakeBatchKeeps(s, w);
    case Resync(_) => TakeResyncKeeps(s, w);
  }

  lemma NothingDue(history: seq<Event>, w: Wanted, at: int)
    ensures Matching(history, w, at, at) == []
  {
    FilterNone(history, Due(w, at, at));
  }

  lemma {:induction false} PayloadAppend(frames: seq<Frame>, f: Frame)
    ensures Payload(frames + [f]) == Payload(frames) + if f.Batch? then f.events else []
  {
    if frames != [] {
      assert (frames + [f])[1..] == frames[1..] + [f];
      PayloadAppend(frames[1..], f);
    }
  }

  /** Events past a range do not change what matches in it. */
  lemma MatchingIgnoresLater(history: seq<Event>, later: seq<Event>, w: Wanted, low: int, high: int)
    requires forall e :: e in later ==> e.seqNo >= high
    ensures Matching(history + later, w, low, high) == Matching(history, w, low, high)
  {
    FilterAppend(history, later, Due(w, low, high));
    FilterNone(later, Due(w, low, high));
  }

  lemma MatchingIgnoresEarlier(earlier: seq<Event>, history: seq<Event>, w: Wanted, low: int, high: int)
    requires forall e :: e in earlier ==> e.seqNo < low
    ensures Matching(earlier + history, w, low, high) == Matching(history, w, low, high)
  {
    FilterAppend(earlier, history, Due(w, low, high));
    FilterNone(earlier, Due(w, low, high));
  }

  lemma {:induction false} FlatAppend(batches: seq<seq<Event>>, b: seq<Event>)
    ensures Flat(batches + [b]) == Flat(batches) + b
  {
    if batches != [] {
      assert (batches + [b])[1..] == batches[1..] + [b];
      FlatAppend(batches[1..], b);
    }
  }

  lemma AppendIncreasing(history: seq<Event>, events: seq<Event>, tail: int)
    requires Increasing(history) && Increasing(events) && events != [] && events[0].seqNo > tail
    requires forall e :: e in history ==> e.seqNo <= tail
    ensures Increasing(history + events)
    ensures forall e :: e in events ==> tail < e.seqNo <= events[|events| - 1].seqNo
  {
    assert forall i :: 0 <= i < |history| ==> history[i] in history;
  }

  lemma AppendLog(s: System, events: seq<Event>, w: Wanted)
    requires LogOk(s) && Step(s, Append(events), w).Some?
    ensures LogOk(Step(s, Append(events), w).value)
    ensures forall e :: e in events ==> e.seqNo > s.tail
  {
    hide Increasing, Filter, Open, Push, Take;
    AppendIncreasing(s.history, events, s.tail);
    FilterAppend(s.history, events, AtLeast(s.head));
    FilterAll(events, AtLeast(s.head));
    TailGrows(events);
  }

  lemma AppendConnection(s: System, c: Connection, events: seq<Event>, w: Wanted)
    requires ConnectionOk(s, c, w) && UnpushedOk(s) && Step(s, Append(events), w).Some?
    requires forall e :: e in events ==> e.seqNo > s.tail
    ensures ConnectionOk(Step(s, Append(events), w).value, c, w)
  {
    hide Increasing, Matching, Filter, Flat, Payload, Open, Push, Take;
    FlatAppend(s.unpushed, events);
    TailGrows(events);
    MatchingIgnoresLater(s.history, events, w, s.fromSeq, c.cursor + 1);
  }

  lemma AppendUnpushed(s: System, events: seq<Event>, w: Wanted)
    requires UnpushedOk(s) && Step(s, Append(events), w).Some?
    ensures UnpushedOk(Step(s, Append(events), w).value)
  {
    hide Increasing, Filter, Flat, Open, Push, Take;
    FlatAppend(s.unpushed, events);
    var n := |s.history| - |Flat(s.unpushed)|;
    assert (s.history + events)[n..] == s.history[n..] + events;
  }

  lemma AppendClient(s: System, events: seq<Event>, w: Wanted)
    requires ClientOk(s, w) && Step(s, Append(events), w).Some?
    requires forall e :: e in events ==> e.seqNo > s.tail
    ensures ClientOk(Step(s, Append(events), w).value, w)
  {
    hide Increasing, Matching, Filter, Open, Push, Take;
    TailGrows(events);
    MatchingIgnoresLater(s.history, events, w, s.start, s.fromSeq);
  }

  lemma AppendKeeps(s: System, events: seq<Event>, w: Wanted)
    requires Inv(s, w) && Step(s, Append(events), w).Some?
    ensures Inv(Step(s, Append(events), w).value, w)
  {
    hide LogOk, UnpushedOk, ClientOk, ConnectionOk, Increasing, Filter, Open, Push, Take;
    AppendLog(s, events, w);
    AppendUnpushed(s, events, w);
    AppendClient(s, events, w);
    if s.connection.Some? {
      AppendConnection(s, s.connection.value, events, w);
    }
  }

  lemma TailGrows(events: seq<Event>)
    ensures events != [] && Increasing(events) ==> events[0].seqNo <= events[|events| - 1].seqNo
  {
  }

  lemma TrimKeeps(s: System, beforeSeq: int, w: Wanted)
    requires Inv(s, w) && Step(s, Trim(beforeSeq), w).Some?
    ensures Inv(Step(s, Trim(beforeSeq), w).value, w)
  {
    hide Matching, Flat, Payload, Filter, Open, Push, Take, Increasing;
    assert s.retained == Filter(s.history, AtLeast(s.head));
    RetainedTrims(s.history, s.head, beforeSeq);
  }

  lemma RetainedTrims(history: seq<Event>, head: int, beforeSeq: int)
    ensures Filter(Filter(history, AtLeast(head)), AtLeast(beforeSeq)) == Filter(history, AtLeast(Max(head, beforeSeq)))
  {
    hide Filter;
    if head <= beforeSeq {
      FilterWithin(history, AtLeast(head), AtLeast(beforeSeq));
    } else {
      FilterAll(Filter(history, AtLeast(head)), AtLeast(beforeSeq));
    }
  }

  /** A push leaves the matching events up to the new cursor on their way. */
  lemma PushKeeps(c: Connection, before: seq<Event>, events: seq<Event>, after: seq<Event>, w: Wanted, fromSeq: int, head: int, tail: int, o: Outcome)
    requires c.attached && Increasing(before + events + after) && FramesOk(c, tail) && 1 <= head <= tail + 1
    requires fromSeq <= c.cursor + 1 <= tail + 1 && forall e :: e in before + events + after ==> e.seqNo <= tail
    requires forall e :: e in before ==> e.seqNo <= c.cursor
    requires Payload(c.frames) == Matching(before + events + after, w, fromSeq, c.cursor + 1)
    ensures var d := Push(c, events, w, head, o);
            && FramesOk(d, tail) && c.cursor <= d.cursor <= tail
            && Payload(d.frames) == Matching(before + events + after, w, fromSeq, d.cursor + 1)
            && (d.attached ==> forall e :: e in before + events ==> e.seqNo <= d.cursor)
  {
    hide Matching, Payload, Pushed, Filter;
    var history := before + events + after;
    Sublist(before, events, after);
    PushedIsRange(c.cursor, events, w);
    var (next, batch) := Pushed(c.cursor, events, w);
    assert events != [] ==> events[|events| - 1] in history;
    InOrder(events, next, c.cursor);
    if next > c.cursor {
      MatchingIgnoresLater(before + events, after, w, c.cursor + 1, next + 1);
      MatchingIgnoresEarlier(before, events, w, c.cursor + 1, next + 1);
    } else {
      NothingPast(history, w, c.cursor);
      NothingPast(events, w, c.cursor);
    }
    RangesJoin(history, w, fromSeq, c.cursor + 1, next + 1);
    PayloadAppend(c.frames, Batch(batch));
    PayloadAppend(c.frames, Resync(head));
    assert Payload(c.frames) + [] == Payload(c.frames);
  }

  lemma Sublist(before: seq<Event>, events: seq<Event>, after: seq<Event>)
    requires Increasing(before + events + after)
    ensures Increasing(events)
    ensures events != [] ==> forall e :: e in after ==> e.seqNo > events[|events| - 1].seqNo
  {
    var all := before + events + after;
    assert forall i :: 0 <= i < |events| ==> events[i] == all[|before| + i];
    assert forall i :: 0 <= i < |after| ==> after[i] == all[|before| + |events| + i];
  }

  lemma FanoutKeeps(s: System, o: Outcome, head: int, w: Wanted)
    requires Inv(s, w) && s.unpushed != [] && 1 <= head <= s.tail + 1
    ensures Inv(Step(s, Fanout(o, head), w).value, w)
  {
    hide Matching, Payload, Open, Push, Take, Pushed, Filter, Increasing, FramesOk;
    var n := |s.history| - |Flat(s.unpushed)|;
    var before, events, after := s.history[..n], s.unpushed[0], Flat(s.unpushed[1..]);
    assert s.history == before + events + after;
    assert Flat(s.unpushed) == events + after;
    assert s.history[n..] == events + after;
    assert s.history[|s.history| - |after|..] == after;
    if s.connection.Some? && s.connection.value.attached {
      var c := s.connection.value;
      forall e | e in before ensures e.seqNo <= c.cursor {
        var i :| 0 <= i < n && s.history[i] == e;
      }
      PushKeeps(c, before, events, after, w, s.fromSeq, head, s.tail, o);
      assert s.history[..|s.history| - |after|] == before + events;
      forall i | 0 <= i < |s.history| - |after| ensures s.history[i] in before + events {
        assert (before + events)[i] == s.history[i];
      }
    }
  }

  /** Opening where the client stands puts everything it is due on the way. */
  lemma ConnectKeeps(s: System, helloSent: bool, o: Outcome, w: Wanted)
    requires Inv(s, w) && s.connection.None?
    ensures Inv(Step(s, Connect(helloSent, o), w).value, w)
  {
    hide Matching, Push, Take, Pushed, Filter, Increasing, Flat;
    NothingDue(s.history, w, s.fromSeq);
    PayloadAppend([], Resync(s.head));
    PayloadAppend([], Hello(s.head, s.tail));
    assert [] + [Resync(s.head)] == [Resync(s.head)] && [] + [Hello(s.head, s.tail)] == [Hello(s.head, s.tail)];
    var made := Connection(true, s.fromSeq - 1, [Hello(s.head, s.tail)]);
    if s.fromSeq >= s.head && helloSent {
      var events := Filter(s.retained, AtLeast(s.fromSeq));
      assert s.retained == Filter(s.history, AtLeast(s.head));
      RetainedTrims(s.history, s.head, s.fromSeq);
      SplitAt(s.history, s.fromSeq);
      var before := Filter(s.history, Below(s.fromSeq));
      assert before + events + [] == before + events == s.history;
      PushKeeps(made, before, events, [], w, s.fromSeq, s.head, s.tail, o);
      assert forall i :: 0 <= i < |s.history| ==> s.history[i] in s.history;
    }
  }

  function Below(high: int): Event -> bool {
    (e: Event) => e.seqNo < high
  }

  lemma HeadBelow(history: seq<Event>, at: int)
    requires history != [] && history[0].seqNo < at && history[1..] == Filter(history[1..], Below(at)) + Filter(history[1..], AtLeast(at))
    ensures history == Filter(history, Below(at)) + Filter(history, AtLeast(at))
  {
    var low, high := Filter(history[1..], Below(at)), Filter(history[1..], AtLeast(at));
    assert history == [history[0]] + (low + high);
    assert [history[0]] + (low + high) == [history[0]] + low + high;
  }

  lemma {:induction false} SplitAt(history: seq<Event>, at: int)
    requires Increasing(history)
    ensures history == Filter(history, Below(at)) + Filter(history, AtLeast(at))
  {
    if history != [] {
      SplitAt(history[1..], at);
      TailIncreasing(history);
      if history[0].seqNo >= at {
        FilterNone(history, Below(at));
        FilterAll(history, AtLeast(at));
        assert [] + history == history;
      } else {
        HeadBelow(history, at);
      }
    }
  }

  lemma StepKeeps(s: System, a: Action, w: Wanted)
    requires Inv(s, w) && Step(s, a, w).Some?
    ensures Inv(Step(s, a, w).value, w)
  {
    hide LogOk, UnpushedOk, ClientOk, ConnectionOk, Take, Open, Push;
    match a
    case Append(events) => AppendKeeps(s, events, w);
    case Trim(beforeSeq) => TrimKeeps(s, beforeSeq, w);
    case Fanout(o, head) => FanoutKeeps(s, o, head, w);
    case Connect(helloSent, o) => ConnectKeeps(s, helloSent, o, w);
    case Receive => TakeKeeps(s, w);
    case Disconnect => DisconnectKeeps(s, w);
  }

  lemma DisconnectKeeps(s: System, w: Wanted)
    requires Inv(s, w)
    ensures Inv(s.(connection := None), w)
  {
    hide Matching, Filter, Increasing, Flat;
  }

  lemma {:induction false} RunKeeps(s: System, actions: seq<Action>, w: Wanted)
    requires Inv(s, w) && Run(s, actions, w).Some?
    ensures Inv(Run(s, actions, w).value, w)
    decreases |actions|
  {
    if actions != [] {
      hide Inv, Step;
      StepKeeps(s, actions[0], w);
      RunKeeps(Step(s, actions[0], w).value, actions[1..], w);
    }
  }

  lemma StartInv(w: Wanted)
    ensures Inv(START, w)
  {
  }

  /**
   * However often the connection drops and comes back, the client has been given exactly the matching
   * events from where it last began (or was told to resync) up to where it stands, each once and in
   * order, including those trimmed since.
   */
  lemma ReceivedExactlyOnceInOrder(actions: seq<Action>, w: Wanted)
    requires Run(START, actions, w).Some?
    ensures var s := Run(START, actions, w).value;
            && s.received == Filter(s.history, Due(w, s.start, s.fromSeq))
            && Increasing(s.received)
            && (forall e :: e in s.received <==> e in s.history && s.start <= e.seqNo < s.fromSeq && Matches(e, w))
  {
    StartInv(w);
    RunKeeps(START, actions, w);
    var s := Run(START, actions, w).value;
    assert LogOk(s) && ClientOk(s, w);
    hide Run, Inv, LogOk, Filter, Increasing;
    MatchingFacts(s.history, w, s.start, s.fromSeq);
  }

  /** Once everything is fanned out and taken over a connection the server still holds, nothing is missing. */
  lemma QuietMeansCaughtUp(actions: seq<Action>, w: Wanted)
    requires Run(START, actions, w).Some?
    requires var s := Run(START, actions, w).value;
             s.unpushed == [] && s.connection.Some? && s.connection.value.attached && s.connection.value.frames == []
    ensures var s := Run(START, actions, w).value; s.received == Matching(s.history, w, s.start, s.tail + 1)
  {
    hide Inv, Run;
    StartInv(w);
    RunKeeps(START, actions, w);
    CaughtUp(Run(START, actions, w).value, w);
  }

  lemma CaughtUp(s: System, w: Wanted)
    requires Inv(s, w) && s.unpushed == [] && s.connection.Some? && s.connection.value.attached && s.connection.value.frames == []
    ensures s.received == Matching(s.history, w, s.start, s.tail + 1)
  {
    hide Filter, Matching, Flat, Increasing, Payload;
    var cursor := s.connection.value.cursor;
    FlatNothing();
    assert Payload(s.connection.value.frames) == [] by { NoPayload(); }
    assert Matching(s.history, w, s.fromSeq, cursor + 1) == [];
    RangesJoin(s.history, w, s.start, s.fromSeq, cursor + 1);
    RangesJoin(s.history, w, s.start, cursor + 1, s.tail + 1);
    NoneLater(s.history, w, cursor + 1, s.tail + 1);
    assert s.received + [] == s.received;
  }

  lemma NoPayload()
    ensures Payload([]) == []
  {
  }

  lemma FlatNothing()
    ensures Flat([]) == []
  {
  }

  lemma NoneLater(history: seq<Event>, w: Wanted, low: int, high: int)
    requires forall i :: 0 <= i < |history| ==> history[i].seqNo < low
    ensures Matching(history, w, low, high) == []
  {
    FilterNone(history, Due(w, low, high));
  }

  /** Only a resync frame moves where the client began. */
  lemma StartMovesOnlyByResync(s: System, a: Action, w: Wanted)
    requires Step(s, a, w).Some? && !TakesResync(s, a)
    ensures Step(s, a, w).value.start == s.start
  {
  }

  predicate TakesResync(s: System, a: Action) {
    a.Receive? && s.connection.Some? && s.connection.value.frames != [] && s.connection.value.frames[0].Resync?
  }

  predicate NeverResyncs(s: System, actions: seq<Action>, w: Wanted)
    decreases |actions|
  {
    actions != [] ==>
      !TakesResync(s, actions[0]) && (Step(s, actions[0], w).Some? ==> NeverResyncs(Step(s, actions[0], w).value, actions[1..], w))
  }

  lemma {:induction false} StartStays(s: System, actions: seq<Action>, w: Wanted)
    requires Run(s, actions, w).Some? && NeverResyncs(s, actions, w)
    ensures Run(s, actions, w).value.start == s.start
    decreases |actions|
  {
    if actions != [] {
      hide Step, TakesResync;
      StartMovesOnlyByResync(s, actions[0], w);
      StartStays(Step(s, actions[0], w).value, actions[1..], w);
    }
  }

  /** A client never told to resync holds every matching event below its position, from the first of the run on. */
  lemma WithoutResyncNothingIsMissed(actions: seq<Action>, w: Wanted)
    requires Run(START, actions, w).Some? && NeverResyncs(START, actions, w)
    ensures var s := Run(START, actions, w).value;
            forall e :: e in s.received <==> e in s.history && e.seqNo < s.fromSeq && Matches(e, w)
  {
    ReceivedExactlyOnceInOrder(actions, w);
    StartStays(START, actions, w);
    StartInv(w);
    RunKeeps(START, actions, w);
    assert LogOk(Run(START, actions, w).value);
    hide Run, NeverResyncs, Filter, Increasing;
  }
}

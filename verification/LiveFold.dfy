/** Live folds: what a client shows of a growing list of events, ephemeral ones included. */
module LiveFold {
  import opened Common
  import opened Events

  /** The effect a well-formed retry event retries. */
  function RetriedEffectId(e: Event): Option<EffectId> {
    if e.etype == RetryScheduled && ReadNumber(e.payload, KAttempt).Some? && ReadNumber(e.payload, KNextAttemptAt).Some?
       && ReadString(e.payload, KError).Some? then e.subject
    else None
  }

  predicate Retries(e: Event, id: EffectId) {
    RetriedEffectId(e) == Some(id)
  }

  /** An ephemeral event of an attempt that an event at or after it retries. */
  ghost predicate Superseded(events: seq<Event>, i: nat)
    requires i < |events|
  {
    events[i].ephemeral && events[i].effectId.Some?
    && exists j :: i <= j < |events| && Retries(events[j], events[i].effectId.value)
  }

  /** The first `n` events without those that any of `events` supersedes. */
  ghost function KeptUpTo(events: seq<Event>, n: nat): seq<Event>
    requires n <= |events|
  {
    if n == 0 then []
    else if Superseded(events, n - 1) then KeptUpTo(events, n - 1)
    else KeptUpTo(events, n - 1) + [events[n - 1]]
  }

  ghost function DropSuperseded(events: seq<Event>): seq<Event> {
    KeptUpTo(events, |events|)
  }

  /** One pass records the last retry of each effect, another filters by it. */
  method DropSupersededAttempts(events: seq<Event>) returns (kept: seq<Event>)
    ensures kept == DropSuperseded(events)
  {
    hide RetriedEffectId;
    var lastRetry: map<EffectId, nat> := map[];
    for i := 0 to |events|
      invariant forall id :: id in lastRetry ==> lastRetry[id] < i && Retries(events[lastRetry[id]], id)
      invariant forall j, id :: 0 <= j < i && Retries(events[j], id) ==> id in lastRetry && j <= lastRetry[id]
    {
      var id := RetriedEffectId(events[i]);
      if id.Some? {
        lastRetry := lastRetry[id.value := i];
      }
    }
    if lastRetry == map[] {
      forall j, id | 0 <= j < |events| ensures !Retries(events[j], id) {
        assert Retries(events[j], id) ==> id in lastRetry;
      }
      NothingSuperseded(events, |events|);
      return events;
    }
    kept := [];
    for i := 0 to |events|
      invariant kept == KeptUpTo(events, i)
    {
      var e := events[i];
      if !e.ephemeral || e.effectId.None? || (if e.effectId.value in lastRetry then lastRetry[e.effectId.value] else -1) < i {
        kept := kept + [e];
      }
    }
  }

  lemma {:induction false} NothingSuperseded(events: seq<Event>, n: nat)
    requires n <= |events| && forall j, id :: 0 <= j < |events| ==> !Retries(events[j], id)
    ensures KeptUpTo(events, n) == events[..n]
  {
    if n > 0 {
      NothingSuperseded(events, n - 1);
    }
  }

  datatype Definition = Definition(initialState: Json, reduce: (Json, Event) -> Json)

  function Reduce(d: Definition, events: seq<Event>, from: Json): Json {
    if events == [] then from else d.reduce(Reduce(d, events[..|events| - 1], from), events[|events| - 1])
  }

  /** The fold of a whole list. */
  ghost function FoldLive(d: Definition, events: seq<Event>): Json {
    Reduce(d, DropSuperseded(events), d.initialState)
  }

  method FoldFrom(d: Definition, events: seq<Event>, from: Json) returns (state: Json)
    ensures state == Reduce(d, DropSuperseded(events), from)
  {
    var kept := DropSupersededAttempts(events);
    state := from;
    for i := 0 to |kept|
      invariant state == Reduce(d, kept[..i], from)
    {
      assert kept[..i + 1][..i] == kept[..i];
      state := d.reduce(state, kept[i]);
    }
    assert kept[..|kept|] == kept;
  }

  predicate HasNoRetries(batch: seq<Event>) {
    forall i :: 0 <= i < |batch| ==> RetriedEffectId(batch[i]).None?
  }

  // ---------------------------------------------------------------- folding only what is new

  lemma {:induction false} ReduceAppend(d: Definition, a: seq<Event>, b: seq<Event>, from: Json)
    ensures Reduce(d, a + b, from) == Reduce(d, b, Reduce(d, a, from))
  {
    if b == [] {
      assert a + b == a;
    } else {
      assert (a + b)[..|a + b| - 1] == a + b[..|b| - 1];
      ReduceAppend(d, a, b[..|b| - 1], from);
    }
  }

  /** A batch without retries supersedes nothing, in itself or before it. */
  lemma {:induction false} KeptAppend(events: seq<Event>, batch: seq<Event>, n: nat)
    requires HasNoRetries(batch) && n <= |events| + |batch|
    ensures KeptUpTo(events + batch, n)
         == if n <= |events| then KeptUpTo(events, n) else DropSuperseded(events) + batch[..n - |events|]
  {
    hide RetriedEffectId;
    if n > 0 {
      KeptAppend(events, batch, n - 1);
      var all := events + batch;
      if n <= |events| {
        SameSuperseded(events, batch, n - 1);
      } else {
        assert batch[..n - |events|] == batch[..n - 1 - |events|] + [all[n - 1]];
        assert forall j :: n - 1 <= j < |all| ==> all[j] == batch[j - |events|];
        assert !Superseded(all, n - 1);
      }
    }
  }

  lemma RetryNotInBatch(events: seq<Event>, batch: seq<Event>, j: nat)
    requires HasNoRetries(batch) && j < |events + batch| && RetriedEffectId((events + batch)[j]).Some?
    ensures j < |events|
  {
  }

  lemma SameSuperseded(events: seq<Event>, batch: seq<Event>, i: nat)
    requires HasNoRetries(batch) && i < |events|
    ensures Superseded(events + batch, i) == Superseded(events, i)
  {
    var all := events + batch;
    if Superseded(all, i) {
      var j :| i <= j < |all| && Retries(all[j], all[i].effectId.value);
      RetryNotInBatch(events, batch, j);
      assert Retries(events[j], events[i].effectId.value);
    }
    if Superseded(events, i) {
      var j :| i <= j < |events| && Retries(events[j], events[i].effectId.value);
      assert Retries(all[j], all[i].effectId.value);
    }
  }

  lemma FoldAppend(d: Definition, events: seq<Event>, batch: seq<Event>)
    requires HasNoRetries(batch)
    ensures FoldLive(d, events + batch) == Reduce(d, DropSuperseded(batch), FoldLive(d, events))
  {
    KeptAppend(events, batch, |events + batch|);
    assert batch[..|batch|] == batch;
    NothingSuperseded(batch, |batch|);
    ReduceAppend(d, DropSuperseded(events), batch, d.initialState);
  }

  datatype CacheEntry = CacheEntry(state: Json, upTo: nat)

  /** Cached folds by definition. `seen` is history: the list each definition was last asked to fold. */
  class ProjectionCache {
    const definitions: map<string, Definition>
    var foldCache: map<string, CacheEntry>
    ghost var seen: map<string, seq<Event>>

    ghost predicate Valid()
      reads this
    {
      && foldCache.Keys == seen.Keys && foldCache.Keys <= definitions.Keys
      && forall key :: key in foldCache ==>
                         foldCache[key] == CacheEntry(FoldLive(definitions[key], seen[key]), |seen[key]|)
    }

    /** The list has grown since, or is the same, or got shorter. */
    ghost predicate Grows(key: string, events: seq<Event>)
      reads this
    {
      key in seen ==> |events| < |seen[key]| || seen[key] <= events
    }

    constructor (definitions: map<string, Definition>)
      ensures Valid() && this.definitions == definitions && seen == map[]
    {
      this.definitions := definitions;
      foldCache := map[];
      seen := map[];
    }

    /** Returns the fold of the whole list, whatever part of it was folded before. */
    method Fold(key: string, events: seq<Event>) returns (state: Json)
      requires Valid() && key in definitions && Grows(key, events)
      modifies this
      ensures Valid() && state == FoldLive(definitions[key], events)
      ensures seen == old(seen)[key := events]
    {
      hide DropSuperseded, Reduce;
      var d := definitions[key];
      if key in foldCache && foldCache[key].upTo == |events| {
        assert seen[key] == events;
        assert seen == seen[key := events];
        return foldCache[key].state;
      }
      var done := false;
      if key in foldCache && foldCache[key].upTo < |events| {
        var batch := events[foldCache[key].upTo..];
        assert events == seen[key] + batch;
        if HasNoRetries(batch) {
          FoldAppend(d, seen[key], batch);
          state := FoldFrom(d, batch, foldCache[key].state);
          done := true;
        }
      }
      if !done {
        state := FoldFrom(d, events, d.initialState);
      }
      foldCache := foldCache[key := CacheEntry(state, |events|)];
      seen := seen[key := events];
    }

    method Clear()
      modifies this
      ensures Valid() && seen == map[]
    {
      foldCache := map[];
      seen := map[];
    }
  }

  // ---------------------------------------------------------------- what a retry takes back

  predicate Streamed(e: Event, id: EffectId) {
    e.ephemeral && e.effectId == Some(id)
  }

  function NotStreamed(id: EffectId): Event -> bool {
    (e: Event) => !Streamed(e, id)
  }

  /** Showing events as they arrive: a retry takes back what the retried effect had streamed. */
  function Online(events: seq<Event>): seq<Event> {
    if events == [] then [] else
    var shown, e := Online(events[..|events| - 1]), events[|events| - 1];
    match RetriedEffectId(e)
    case None => shown + [e]
    case Some(id) => Filter(shown + [e], NotStreamed(id))
  }

  /** Dropping superseded attempts from the whole list is taking them back as each retry arrives. */
  lemma {:induction false} DropIsOnline(events: seq<Event>)
    ensures DropSuperseded(events) == Online(events)
  {
    hide RetriedEffectId;
    if events != [] {
      var before, e := events[..|events| - 1], events[|events| - 1];
      DropIsOnline(before);
      assert events == before + [e];
      match RetriedEffectId(e)
      case None =>
        KeptAppend(before, [e], |events|);
        assert [e][..1] == [e];
      case Some(id) =>
        RetryTakesBack(before, e, id, |before|);
        FilterAppend(KeptUpTo(before, |before|), [e], NotStreamed(id));
        assert Superseded(events, |before|) <==> Streamed(e, id);
    }
  }

  lemma {:induction false} RetryTakesBack(before: seq<Event>, e: Event, id: EffectId, n: nat)
    requires RetriedEffectId(e) == Some(id) && n <= |before|
    ensures KeptUpTo(before + [e], n) == Filter(KeptUpTo(before, n), NotStreamed(id))
  {
    hide RetriedEffectId, Superseded, Filter, Streamed;
    if n == 0 {
      assert Filter([], NotStreamed(id)) == [];
    } else {
      var kept, last := KeptUpTo(before, n - 1), before[n - 1];
      assert (before + [e])[n - 1] == last;
      RetryTakesBack(before, e, id, n - 1);
      SupersededByRetry(before, e, id, n - 1);
      if !Superseded(before, n - 1) {
        FilterLast(kept, last, NotStreamed(id));
      } else {
        assert KeptUpTo(before, n) == kept;
      }
    }
  }

  lemma FilterLast(kept: seq<Event>, last: Event, keep: Event -> bool)
    ensures Filter(kept + [last], keep) == if keep(last) then Filter(kept, keep) + [last] else Filter(kept, keep)
  {
    FilterAppend(kept, [last], keep);
  }

  lemma SupersededByRetry(before: seq<Event>, e: Event, id: EffectId, i: nat)
    requires RetriedEffectId(e) == Some(id) && i < |before|
    ensures Superseded(before + [e], i) <==> Superseded(before, i) || Streamed(before[i], id)
  {
    var all := before + [e];
    if Superseded(before, i) {
      var j :| i <= j < |before| && Retries(before[j], before[i].effectId.value);
      assert Retries(all[j], all[i].effectId.value);
    }
    if Streamed(before[i], id) {
      assert Retries(all[|before|], all[i].effectId.value);
    }
    if Superseded(all, i) {
      var j :| i <= j < |all| && Retries(all[j], all[i].effectId.value);
      assert j < |before| ==> Retries(before[j], before[i].effectId.value);
    }
  }
}

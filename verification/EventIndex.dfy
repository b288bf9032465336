/** Append-only indexes over an event log, with snapshots rebuilt lazily on read. */
module EventIndex {
  import opened Common
  import opened Events

  const RUN_KEY: string := "run"

  /** The thread bucket of an event; run-scoped events share one. */
  function ThreadKey(e: Event): string {
    e.threadId.GetOr(RUN_KEY)
  }

  function OfThread(key: string): Event -> bool {
    (e: Event) => ThreadKey(e) == key
  }

  function WithSeq(seqNo: int): Event -> bool {
    (e: Event) => e.seqNo == seqNo
  }

  function WithType(t: EventType): Event -> bool {
    (e: Event) => e.etype == t
  }

  function Last(log: seq<Event>, keep: Event -> bool): Option<Event> {
    if log == [] then None
    else if keep(log[|log| - 1]) then Some(log[|log| - 1])
    else Last(log[..|log| - 1], keep)
  }

  /** When the first run start was appended. */
  function StartedAt(log: seq<Event>): Option<int> {
    if log == [] then None else
    var before := StartedAt(log[..|log| - 1]);
    if before.Some? then before
    else if log[|log| - 1].etype == RunStarted then Some(log[|log| - 1].ts)
    else None
  }

  lemma FilterSnoc(log: seq<Event>, e: Event, keep: Event -> bool)
    ensures Filter(log + [e], keep) == if keep(e) then Filter(log, keep) + [e] else Filter(log, keep)
  {
    FilterAppend(log, [e], keep);
  }

  function Find<K, V>(m: map<K, V>, k: K): Option<V> {
    if k in m then Some(m[k]) else None
  }

  // The live indexes are scans of the log.

  ghost predicate ThreadsOk(byThread: map<string, seq<Event>>, log: seq<Event>) {
    forall key :: Find(byThread, key) == NonEmptyList(Filter(log, OfThread(key)))
  }

  function NonEmptyList(es: seq<Event>): Option<seq<Event>> {
    if es == [] then None else Some(es)
  }

  ghost predicate CountsOk(counts: map<string, nat>, log: seq<Event>) {
    forall key :: Find(counts, key) == Counted(Filter(log, OfThread(key)))
  }

  function Counted(es: seq<Event>): Option<nat> {
    if es == [] then None else Some(|es|)
  }

  ghost predicate SeqsOk(bySeq: map<int, Event>, log: seq<Event>) {
    forall seqNo :: Find(bySeq, seqNo) == Last(log, WithSeq(seqNo))
  }

  ghost predicate TypesOk(latestByType: map<EventType, Event>, log: seq<Event>) {
    forall t :: Find(latestByType, t) == Last(log, WithType(t))
  }

  /** Thread snapshots differ from the live lists only where they are marked dirty. */
  ghost predicate SnapshotsOk(snapshots: map<string, seq<Event>>, byThread: map<string, seq<Event>>, dirty: set<string>) {
    && (forall key :: key !in dirty ==> Find(snapshots, key) == Find(byThread, key))
    && dirty <= byThread.Keys
  }

  lemma ThreadsSnoc(byThread: map<string, seq<Event>>, log: seq<Event>, e: Event)
    requires ThreadsOk(byThread, log)
    ensures ThreadsOk(byThread[ThreadKey(e) := Find(byThread, ThreadKey(e)).GetOr([]) + [e]], log + [e])
  {
    hide Filter;
    var next := byThread[ThreadKey(e) := Find(byThread, ThreadKey(e)).GetOr([]) + [e]];
    forall key ensures Find(next, key) == NonEmptyList(Filter(log + [e], OfThread(key))) {
      FilterSnoc(log, e, OfThread(key));
      assert Find(byThread, key) == NonEmptyList(Filter(log, OfThread(key)));
    }
  }

  lemma CountsSnoc(counts: map<string, nat>, log: seq<Event>, e: Event)
    requires CountsOk(counts, log)
    ensures CountsOk(counts[ThreadKey(e) := Find(counts, ThreadKey(e)).GetOr(0) + 1], log + [e])
  {
    hide Filter;
    var next := counts[ThreadKey(e) := Find(counts, ThreadKey(e)).GetOr(0) + 1];
    forall key ensures Find(next, key) == Counted(Filter(log + [e], OfThread(key))) {
      FilterSnoc(log, e, OfThread(key));
      assert Find(counts, key) == Counted(Filter(log, OfThread(key)));
    }
  }

  lemma LastSnoc(log: seq<Event>, e: Event, keep: Event -> bool)
    ensures Last(log + [e], keep) == if keep(e) then Some(e) else Last(log, keep)
  {
    assert (log + [e])[..|log|] == log;
  }

  lemma SeqsSnoc(bySeq: map<int, Event>, latest: map<EventType, Event>, log: seq<Event>, e: Event)
    requires SeqsOk(bySeq, log) && TypesOk(latest, log)
    ensures SeqsOk(bySeq[e.seqNo := e], log + [e]) && TypesOk(latest[e.etype := e], log + [e])
  {
    hide Last;
    forall seqNo ensures Find(bySeq[e.seqNo := e], seqNo) == Last(log + [e], WithSeq(seqNo)) {
      LastSnoc(log, e, WithSeq(seqNo));
      assert Find(bySeq, seqNo) == Last(log, WithSeq(seqNo));
    }
    forall t ensures Find(latest[e.etype := e], t) == Last(log + [e], WithType(t)) {
      LastSnoc(log, e, WithType(t));
      assert Find(latest, t) == Last(log, WithType(t));
    }
  }

  lemma EmptyOk()
    ensures ThreadsOk(map[], []) && CountsOk(map[], []) && SeqsOk(map[], []) && TypesOk(map[], [])
    ensures SnapshotsOk(map[], map[], {}) && StartedAt([]) == None
  {
  }

  lemma SnapshotsSnoc(snapshots: map<string, seq<Event>>, byThread: map<string, seq<Event>>, dirty: set<string>, key: string, list: seq<Event>)
    requires SnapshotsOk(snapshots, byThread, dirty)
    ensures SnapshotsOk(snapshots, byThread[key := list], dirty + {key})
  {
    forall k | k !in dirty + {key} ensures Find(snapshots, k) == Find(byThread[key := list], k) {
      assert Find(snapshots, k) == Find(byThread, k);
    }
  }

  lemma StartedSnoc(log: seq<Event>, e: Event)
    ensures StartedAt(log + [e])
         == if StartedAt(log).None? && e.etype == RunStarted then Some(e.ts) else StartedAt(log)
  {
    assert (log + [e])[..|log|] == log;
  }

  /** `log` is history: everything appended since the last clear. */
  class EventIndex {
    var counts: map<string, nat>
    var countsSnapshot: map<string, nat>
    var countsDirty: bool
    var byThread: map<string, seq<Event>>
    var byThreadSnapshots: map<string, seq<Event>>
    var dirtyThreads: set<string>
    var bySeq: map<int, Event>
    var latestByType: map<EventType, Event>
    var startedAt: Option<int>
    ghost var log: seq<Event>

    ghost predicate Valid()
      reads this
    {
      && ThreadsOk(byThread, log) && CountsOk(counts, log) && SeqsOk(bySeq, log) && TypesOk(latestByType, log)
      && startedAt == StartedAt(log)
      && SnapshotsOk(byThreadSnapshots, byThread, dirtyThreads) && (!countsDirty ==> countsSnapshot == counts)
    }

    constructor ()
      ensures Valid() && log == []
    {
      counts, countsSnapshot, countsDirty := map[], map[], false;
      byThread, byThreadSnapshots, dirtyThreads := map[], map[], {};
      bySeq, latestByType, startedAt := map[], map[], None;
      log := [];
    }

    method AppendOne(e: Event)
      requires Valid()
      modifies this
      ensures Valid() && log == old(log) + [e]
    {
      hide ThreadsOk, CountsOk, SeqsOk, TypesOk, SnapshotsOk, StartedAt, Find;
      var key := ThreadKey(e);
      StartedSnoc(log, e);
      SnapshotsSnoc(byThreadSnapshots, byThread, dirtyThreads, key, Find(byThread, key).GetOr([]) + [e]);
      ThreadsSnoc(byThread, log, e);
      CountsSnoc(counts, log, e);
      SeqsSnoc(bySeq, latestByType, log, e);
      bySeq := bySeq[e.seqNo := e];
      latestByType := latestByType[e.etype := e];
      if startedAt.None? && e.etype == RunStarted {
        startedAt := Some(e.ts);
      }
      counts := counts[key := Find(counts, key).GetOr(0) + 1];
      dirtyThreads := dirtyThreads + {key};
      countsDirty := true;
      byThread := byThread[key := Find(byThread, key).GetOr([]) + [e]];
      log := log + [e];
    }

    method Append(batch: seq<Event>)
      requires Valid()
      modifies this
      ensures Valid() && log == old(log) + batch
    {
      for i := 0 to |batch|
        invariant Valid() && log == old(log) + batch[..i]
      {
        assert batch[..i + 1] == batch[..i] + [batch[i]];
        AppendOne(batch[i]);
      }
      assert batch[..|batch|] == batch;
    }

    /** Rebuilds the dirty snapshots; the indexes and the log stay. */
    method Publish()
      requires Valid()
      modifies this`byThreadSnapshots, this`dirtyThreads, this`countsSnapshot, this`countsDirty
      ensures Valid() && byThreadSnapshots == byThread && countsSnapshot == counts
    {
      hide ThreadsOk, CountsOk, SeqsOk, TypesOk;
      var rest := dirtyThreads;
      while rest != {}
        modifies this`byThreadSnapshots
        invariant rest <= dirtyThreads
        invariant SnapshotsOk(byThreadSnapshots, byThread, rest)
      {
        var key :| key in rest;
        rest := rest - {key};
        byThreadSnapshots := byThreadSnapshots[key := byThread[key]];
      }
      dirtyThreads := {};
      SameMap(byThreadSnapshots, byThread);
      if countsDirty {
        countsSnapshot := counts;
        countsDirty := false;
      }
    }

    /** How many events each thread has; a thread without events has no entry. */
    method GetCounts() returns (r: map<string, nat>)
      requires Valid()
      modifies this
      ensures Valid() && log == old(log)
      ensures forall key :: if key in r then r[key] == |Filter(log, OfThread(key))| > 0 else Filter(log, OfThread(key)) == []
    {
      Publish();
      r := countsSnapshot;
      forall key ensures if key in r then r[key] == |Filter(log, OfThread(key))| > 0 else Filter(log, OfThread(key)) == [] {
        assert Find(counts, key) == Counted(Filter(log, OfThread(key)));
      }
    }

    method GetByThread(key: string) returns (r: seq<Event>)
      requires Valid()
      modifies this
      ensures Valid() && log == old(log) && r == Filter(log, OfThread(key))
    {
      Publish();
      r := Find(byThreadSnapshots, key).GetOr([]);
      assert Find(byThread, key) == NonEmptyList(Filter(log, OfThread(key)));
    }

    method GetBySeq(seqNo: int) returns (r: Option<Event>)
      requires Valid()
      ensures r == Last(log, WithSeq(seqNo))
    {
      r := Find(bySeq, seqNo);
    }

    method GetLatest(t: EventType) returns (r: Option<Event>)
      requires Valid()
      ensures r == Last(log, WithType(t))
    {
      r := Find(latestByType, t);
    }

    method GetStartedAt() returns (r: Option<int>)
      requires Valid()
      ensures r == StartedAt(log)
    {
      r := startedAt;
    }

    method Clear()
      modifies this
      ensures Valid() && log == []
    {
      EmptyOk();
      hide ThreadsOk, CountsOk, SeqsOk, TypesOk, SnapshotsOk, StartedAt;
      counts, countsSnapshot, countsDirty := map[], map[], false;
      byThread, byThreadSnapshots, dirtyThreads := map[], map[], {};
      bySeq, latestByType, startedAt := map[], map[], None;
      log := [];
    }
  }

  lemma SameMap<V>(a: map<string, V>, b: map<string, V>)
    requires forall key :: Find(a, key) == Find(b, key)
    ensures a == b
  {
    forall key ensures (key in a <==> key in b) && (key in a ==> a[key] == b[key]) {
      assert Find(a, key) == Find(b, key);
    }
  }

  /** In a log with increasing numbers, the event found by number is the one that has it. */
  lemma {:induction false} LastBySeq(log: seq<Event>, i: nat)
    requires Increasing(log) && i < |log|
    ensures Last(log, WithSeq(log[i].seqNo)) == Some(log[i])
  {
    if i < |log| - 1 {
      LastBySeq(log[..|log| - 1], i);
    }
  }
}

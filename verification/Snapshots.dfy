/** Snapshot markers: when to write one, recovering a run from one, and the incremental run cursor. */
module Snapshots {
  import opened Common
  import opened Events
  import opened Fold
  import opened FoldIdentity

  /** The run-state schema: its encoder, and its decoder, which rejects what it did not encode. */
  datatype Codec = Codec(encode: RunState -> Json, decode: Json -> Option<RunState>)

  /** The last snapshot marker in a log, durable or not. */
  function LastMarker(events: seq<Event>): (m: Option<Event>)
    ensures m.Some? ==> m.value in events && m.value.etype.SnapshotTaken?
    ensures m.None? ==> forall e :: e in events ==> !e.etype.SnapshotTaken?
  {
    if events == [] then None
    else if events[|events| - 1].etype.SnapshotTaken? then Some(events[|events| - 1])
    else LastMarker(events[..|events| - 1])
  }

  /** The marker's payload: the state goes in only when its encoding fits. */
  function MarkerPayload(cursor: int, stateHash: string, state: Option<RunState>, codec: Codec,
                         size: Json -> nat, maxInlineBytes: nat): Json
  {
    var bare := map[KSeq := Num(cursor), KStateHash := Str(stateHash)];
    if state.Some? && size(codec.encode(state.value)) <= maxInlineBytes
    then Obj(bare[KState := codec.encode(state.value)]) else Obj(bare)
  }

  /** The state a log recovers to, or nothing when its last marker does not decode. */
  function FoldFromSnapshots(events: seq<Event>, reg: Registry, runId: string, codec: Codec): Option<RunState> {
    var marker := LastMarker(events);
    if marker.None? then Some(FoldRun(events, reg, runId)) else
    var payload := marker.value.payload;
    var covered := ReadNumber(payload, KSeq);
    if covered.None? || ReadString(payload, KStateHash).None? then None else
    if Field(payload, KState).None? then Some(FoldRun(events, reg, runId)) else
    var trailing := After(events, covered.value);
    match codec.decode(Field(payload, KState).value)
    case None => None
    case Some(state) => if trailing == [] then Some(state) else Some(FoldFrom(state, trailing, reg))
  }

  function After(events: seq<Event>, seqNo: int): seq<Event> {
    Filter(events, (e: Event) => e.seqNo > seqNo)
  }

  function UpTo(events: seq<Event>, seqNo: int): seq<Event> {
    Filter(events, (e: Event) => e.seqNo <= seqNo)
  }

  /** What a trim before `beforeSeq` retains. */
  function Trimmed(events: seq<Event>, beforeSeq: int): seq<Event> {
    Filter(events, (e: Event) => e.seqNo >= beforeSeq)
  }

  lemma {:induction false} SplitLog(events: seq<Event>, seqNo: int)
    requires Increasing(events)
    ensures UpTo(events, seqNo) + After(events, seqNo) == events
  {
    if events != [] {
      SplitLog(events[1..], seqNo);
      if events[0].seqNo > seqNo {
        assert forall e :: e in events[1..] ==> e.seqNo > seqNo;
        FilterNone(events[1..], (e: Event) => e.seqNo <= seqNo);
      }
    }
  }

  lemma {:induction false} TrimKeepsAfter(events: seq<Event>, beforeSeq: int, seqNo: int)
    requires beforeSeq <= seqNo + 1
    ensures After(Trimmed(events, beforeSeq), seqNo) == After(events, seqNo)
  {
    if events != [] {
      TrimKeepsAfter(events[1..], beforeSeq, seqNo);
    }
  }

  /** The marker inlines exactly the fold of everything its covered seq counts. */
  ghost predicate Covers(marker: Event, full: seq<Event>, covered: int, reg: Registry, runId: string, codec: Codec) {
    && ReadNumber(marker.payload, KSeq) == Some(covered)
    && ReadString(marker.payload, KStateHash).Some?
    && Field(marker.payload, KState) == Some(codec.encode(FoldRun(UpTo(full, covered), reg, runId)))
  }

  /**
   * A covering marker whose state survives its encoding lets the log be trimmed up to the event after it
   * and still recover exactly.
   */
  lemma SnapshotRecovers(full: seq<Event>, beforeSeq: int, covered: int, reg: Registry, runId: string, codec: Codec)
    requires Increasing(full) && beforeSeq <= covered + 1
    requires var state := FoldRun(UpTo(full, covered), reg, runId); codec.decode(codec.encode(state)) == Some(state)
    requires LastMarker(Trimmed(full, beforeSeq)).Some?
    requires Covers(LastMarker(Trimmed(full, beforeSeq)).value, full, covered, reg, runId, codec)
    ensures FoldFromSnapshots(Trimmed(full, beforeSeq), reg, runId, codec) == Some(FoldRun(full, reg, runId))
  {
    SplitLog(full, covered);
    TrimKeepsAfter(full, beforeSeq, covered);
    FoldFromAppend(Empty(runId), UpTo(full, covered), After(full, covered), reg);
  }

  /** The marker the runtime builds covers its log exactly when the encoded state fits inline. */
  lemma BuiltMarkerCovers(marker: Event, full: seq<Event>, covered: int, stateHash: string, reg: Registry, runId: string,
                          codec: Codec, size: Json -> nat, maxInlineBytes: nat)
    requires var state := FoldRun(UpTo(full, covered), reg, runId);
      marker.payload == MarkerPayload(covered, stateHash, Some(state), codec, size, maxInlineBytes)
    ensures Covers(marker, full, covered, reg, runId, codec) <==>
      size(codec.encode(FoldRun(UpTo(full, covered), reg, runId))) <= maxInlineBytes
  {
  }

  /** A marker, delivered to no thread, changes no thread. */
  lemma MarkerKeepsThreads(s: RunState, marker: Event, reg: Registry)
    requires marker.etype.SnapshotTaken? && marker.threadId.None? && !marker.origin.External?
    ensures FoldEvent(s, marker, reg).threads == s.threads
  {
  }

  lemma StartAddsThread(s: RunState, start: Event, reg: Registry, t: string)
    requires start.etype.ThreadStarted? && !start.ephemeral && TargetThread(start) == Some(t) && t != ""
    requires NonEmpty(ReadString(start.payload, KKind)) && NonEmpty(ReadString(start.payload, KDefinitionName))
    ensures t in FoldEvent(s, start, reg).threads
  {
    assert t in Prepare(s, start, reg).threads;
    assert t in Deliver(Prepare(s, start, reg), start, reg, SettledWithoutOutcome(s, start)).threads;
  }

  /** A marker without the inlined state recovers nothing that was trimmed: here, the run's only thread is lost. */
  lemma BareMarkerLosesTrimmedHistory(reg: Registry, runId: string, codec: Codec, start: Event, marker: Event, t: string)
    requires start.seqNo == 1 && start.etype.ThreadStarted? && !start.ephemeral && TargetThread(start) == Some(t) && t != ""
    requires NonEmpty(ReadString(start.payload, KKind)) && NonEmpty(ReadString(start.payload, KDefinitionName))
    requires marker.seqNo == 2 && marker.etype.SnapshotTaken? && marker.threadId.None? && !marker.origin.External?
    requires ReadNumber(marker.payload, KSeq) == Some(1) && ReadString(marker.payload, KStateHash).Some?
    requires Field(marker.payload, KState).None?
    ensures FoldFromSnapshots(Trimmed([start, marker], 2), reg, runId, codec) != Some(FoldRun([start, marker], reg, runId))
  {
    var full := [start, marker];
    assert full[1..] == [marker] && [marker][1..] == [];
    assert Trimmed([marker], 2) == [marker];
    assert Trimmed(full, 2) == [marker];
    var s := FoldEvent(Empty(runId), start, reg);
    StartAddsThread(Empty(runId), start, reg, t);
    MarkerKeepsThreads(s, marker, reg);
    MarkerKeepsThreads(Empty(runId), marker, reg);
    FoldTwo(Empty(runId), start, marker, reg);
    FoldOne(Empty(runId), marker, reg);
  }

  // ---------------------------------------------------------------- when to write a marker

  predicate Counts(e: Event) {
    !e.ephemeral && !e.etype.SnapshotTaken?
  }

  predicate ShouldTakeSnapshot(events: seq<Event>, every: int) {
    var durable := Filter(events, Counts);
    var marker := LastMarker(events);
    durable != [] &&
    (if marker.Some? then |After(durable, marker.value.seqNo)| else |durable|) >= every
  }

  datatype RunCursor = RunCursor(state: RunState, seqNo: int, durableSinceSnapshot: nat)

  function EmptyCursor(runId: string): RunCursor {
    RunCursor(Empty(runId), 0, 0)
  }

  function CursorStep(c: RunCursor, e: Event, reg: Registry): RunCursor {
    RunCursor(
      FoldEvent(c.state, e, reg), Max(c.seqNo, e.seqNo),
      if e.ephemeral then c.durableSinceSnapshot
      else if e.etype.SnapshotTaken? then 0 else c.durableSinceSnapshot + 1)
  }

  function CursorAfter(c: RunCursor, events: seq<Event>, reg: Registry): RunCursor {
    if events == [] then c else CursorStep(CursorAfter(c, events[..|events| - 1], reg), events[|events| - 1], reg)
  }

  method AdvanceCursor(cursor: RunCursor, events: seq<Event>, reg: Registry) returns (next: RunCursor)
    ensures next == CursorAfter(cursor, events, reg)
  {
    var state, seqNo, durableSinceSnapshot := cursor.state, cursor.seqNo, cursor.durableSinceSnapshot;
    for i := 0 to |events|
      invariant RunCursor(state, seqNo, durableSinceSnapshot) == CursorAfter(cursor, events[..i], reg)
    {
      var event := events[i];
      assert events[..i + 1][..i] == events[..i];
      if event.seqNo > seqNo {
        seqNo := event.seqNo;
      }
      if !event.ephemeral {
        if event.etype.SnapshotTaken? {
          durableSinceSnapshot := 0;
        } else {
          durableSinceSnapshot := durableSinceSnapshot + 1;
        }
      }
      state := FoldEvent(state, event, reg);
    }
    assert events[..|events|] == events;
    next := RunCursor(state, seqNo, durableSinceSnapshot);
  }

  /** Advancing in batches gives what one pass gives. */
  lemma {:induction false} CursorIncremental(c: RunCursor, a: seq<Event>, b: seq<Event>, reg: Registry)
    ensures CursorAfter(c, a + b, reg) == CursorAfter(CursorAfter(c, a, reg), b, reg)
  {
    if b == [] {
      assert a + b == a;
    } else {
      assert (a + b)[..|a + b| - 1] == a + b[..|b| - 1];
      CursorIncremental(c, a, b[..|b| - 1], reg);
    }
  }

  lemma {:induction false} CursorStateIsFold(events: seq<Event>, reg: Registry, runId: string)
    ensures CursorAfter(EmptyCursor(runId), events, reg).state == FoldRun(events, reg, runId)
  {
    if events != [] {
      var init, last := events[..|events| - 1], events[|events| - 1];
      CursorStateIsFold(init, reg, runId);
      assert events == init + [last];
      FoldFromAppend(Empty(runId), init, [last], reg);
    }
  }

  /** How many events count towards the next snapshot. */
  function Since(events: seq<Event>): nat {
    var durable := Filter(events, Counts);
    var marker := LastMarker(events);
    if marker.Some? then |After(durable, marker.value.seqNo)| else |durable|
  }

  lemma SinceStep(init: seq<Event>, last: Event)
    requires Increasing(init + [last])
    ensures Since(init + [last]) ==
      if last.etype.SnapshotTaken? then 0 else if last.ephemeral then Since(init) else Since(init) + 1
  {
    var events := init + [last];
    assert events[..|events| - 1] == init && events[|events| - 1] == last;
    FilterAppend(init, [last], Counts);
    var durable := Filter(init, Counts);
    assert Filter([last], Counts) == if Counts(last) then [last] else [];
    forall e | e in init ensures e.seqNo < last.seqNo {
      var k :| 0 <= k < |init| && init[k] == e;
      assert events[k].seqNo < events[|init|].seqNo;
    }
    if last.etype.SnapshotTaken? {
      assert Filter(events, Counts) == durable + [] == durable;
      FilterNone(durable, (e: Event) => e.seqNo > last.seqNo);
    } else if LastMarker(init).Some? {
      var m := LastMarker(init).value;
      FilterAppend(durable, if Counts(last) then [last] else [], (e: Event) => e.seqNo > m.seqNo);
    }
  }

  lemma {:induction false} CursorCountsSince(events: seq<Event>, reg: Registry, runId: string)
    requires Increasing(events)
    requires forall e :: e in events && e.etype.SnapshotTaken? ==> !e.ephemeral
    ensures CursorAfter(EmptyCursor(runId), events, reg).durableSinceSnapshot == Since(events)
  {
    if events != [] {
      var init, last := events[..|events| - 1], events[|events| - 1];
      assert events == init + [last];
      CursorCountsSince(init, reg, runId);
      SinceStep(init, last);
    }
  }

  /** The cursor's running counter and the scan of the whole log agree on when a snapshot is due. */
  lemma SnapshotDueAgrees(events: seq<Event>, reg: Registry, runId: string, every: int)
    requires Increasing(events) && every >= 1
    requires forall e :: e in events && e.etype.SnapshotTaken? ==> !e.ephemeral
    ensures ShouldTakeSnapshot(events, every) <==>
      CursorAfter(EmptyCursor(runId), events, reg).durableSinceSnapshot >= every
  {
    CursorCountsSince(events, reg, runId);
  }
}

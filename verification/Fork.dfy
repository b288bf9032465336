/** Forking a run: where to cut its history, and what the copied history folds to. */
module Fork {
  import opened Common
  import opened Events
  import opened Fold
  import opened FoldIdentity
  import opened FoldThreads

  predicate RootTerminal(s: RunState) {
    !s.head.status.RunRunning? ||
    (NonEmpty(s.head.rootThreadId) && s.head.rootThreadId.value in s.threads &&
     IsTerminal(s.threads[s.head.rootThreadId.value].status))
  }

  predicate RootFailed(s: RunState) {
    s.head.status.RunFailed? ||
    (NonEmpty(s.head.rootThreadId) && s.head.rootThreadId.value in s.threads &&
     s.threads[s.head.rootThreadId.value].status.Failed?)
  }

  /** Where the cancellation that wrote `e` began, when it recorded that. */
  function CancellationStart(e: Event): Option<int> {
    if e.etype.ThreadCancelled? then ReadNumber(e.payload, KResumeSeq) else None
  }

  /** `end` is the index of the event that ended the root, when one did. */
  datatype SourceScan = SourceScan(
    cut: int, effects: map<EffectId, RuntimeEffect>, failedAt: map<string, nat>, rootFailed: bool, end: Option<nat>)

  function NoteEffects(effects: map<EffectId, RuntimeEffect>, items: seq<OutstandingEffect>): map<EffectId, RuntimeEffect>
    decreases |items|
  {
    if items == [] then effects else NoteEffects(effects[items[0].effectId := items[0].effect], items[1..])
  }

  function NoteFailures(failedAt: map<string, nat>, s: RunState, index: nat): map<string, nat> {
    map t | t in failedAt.Keys + s.threads.Keys && (t in failedAt || s.threads[t].status.Failed?) ::
      if t in failedAt then failedAt[t] else index
  }

  /** Continue the scan at `index` from the state `s` of the events before it. */
  function Scan(s: RunState, events: seq<Event>, index: nat, effects: map<EffectId, RuntimeEffect>,
                failedAt: map<string, nat>, reg: Registry): SourceScan
    requires index <= |events|
    decreases |events| - index
  {
    if index == |events| then SourceScan(|events|, effects, failedAt, false, None) else
    var next := FoldEvent(s, events[index], reg);
    var effects' := NoteEffects(effects, next.outstanding);
    var failedAt' := NoteFailures(failedAt, next, index);
    if RootTerminal(next) then
      SourceScan(CancellationStart(events[index]).GetOr(index), effects', failedAt', RootFailed(next), Some(index))
    else Scan(next, events, index + 1, effects', failedAt', reg)
  }

  function StartOf(events: seq<Event>): RunState {
    Empty(if events == [] then "" else events[0].runId)
  }

  method ScanSource(events: seq<Event>, reg: Registry) returns (scan: SourceScan)
    ensures scan == Scan(StartOf(events), events, 0, map[], map[], reg)
  {
    var state := StartOf(events);
    var effects: map<EffectId, RuntimeEffect> := map[];
    var failedAt: map<string, nat> := map[];
    var index := 0;
    while index < |events|
      invariant 0 <= index <= |events|
      invariant Scan(state, events, index, effects, failedAt, reg) == Scan(StartOf(events), events, 0, map[], map[], reg)
    {
      var event := events[index];
      state := FoldEvent(state, event, reg);
      var i := 0;
      ghost var was := effects;
      while i < |state.outstanding|
        invariant 0 <= i <= |state.outstanding|
        invariant NoteEffects(effects, state.outstanding[i..]) == NoteEffects(was, state.outstanding)
      {
        var item := state.outstanding[i];
        assert state.outstanding[i..][0] == item && state.outstanding[i..][1..] == state.outstanding[i + 1..];
        effects := effects[item.effectId := item.effect];
        i := i + 1;
      }
      failedAt := NoteFailures(failedAt, state, index);
      if RootTerminal(state) {
        return SourceScan(CancellationStart(event).GetOr(index), effects, failedAt, RootFailed(state), Some(index));
      }
      index := index + 1;
    }
    return SourceScan(|events|, effects, failedAt, false, None);
  }

  // ---------------------------------------------------------------- the walk back from a failure

  /** The last index that holds event `id`. */
  function IndexOf(events: seq<Event>, id: string): (i: Option<nat>)
    ensures i.Some? ==> i.value < |events|
  {
    if events == [] then None
    else if events[|events| - 1].id == id then Some(|events| - 1)
    else IndexOf(events[..|events| - 1], id)
  }

  /** A failed thread leads back to where the fold failed it, anything else to its cause. */
  function Previous(events: seq<Event>, failedAt: map<string, nat>, index: nat): (p: Option<nat>)
    requires index < |events|
    ensures p.Some? ==> p.value < index
  {
    var e := events[index];
    var t := if e.etype.ThreadFailed? then TargetThread(e) else None;
    var failed := if NonEmpty(t) && t.value in failedAt then Some(failedAt[t.value]) else None;
    var cause := if NonEmpty(e.causationId) then IndexOf(events, e.causationId.value) else None;
    var next := if failed.Some? && failed.value < index then failed else cause;
    if next.Some? && next.value < index then next else None
  }

  /** The event settles an effect that a fork should run again. */
  predicate Retryable(events: seq<Event>, effects: map<EffectId, RuntimeEffect>, deterministic: set<string>, index: nat)
    requires index < |events|
  {
    var e := events[index];
    && e.effectId.Some? && e.effectId.value in effects
    && effects[e.effectId.value].Invoke?
    && effects[e.effectId.value].name !in deterministic
    && !(ReadString(e.payload, KError).Some? && IsWithdrawn(ReadString(e.payload, KError).value))
  }

  function OriginFrom(events: seq<Event>, scan: SourceScan, deterministic: set<string>, index: nat): int
    requires index < |events|
    decreases index
  {
    if Retryable(events, scan.effects, deterministic, index) then index else
    match Previous(events, scan.failedAt, index)
    case None => scan.cut
    case Some(p) => OriginFrom(events, scan, deterministic, p)
  }

  method FailureOrigin(events: seq<Event>, scan: SourceScan, deterministic: set<string>) returns (origin: int)
    requires 0 <= scan.cut < |events|
    ensures origin == OriginFrom(events, scan, deterministic, scan.cut)
  {
    var index: nat := scan.cut;
    while true
      invariant index < |events|
      invariant OriginFrom(events, scan, deterministic, index) == OriginFrom(events, scan, deterministic, scan.cut)
      decreases index
    {
      if Retryable(events, scan.effects, deterministic, index) {
        return index;
      }
      var previous := Previous(events, scan.failedAt, index);
      if previous.None? {
        return scan.cut;
      }
      index := previous.value;
    }
  }

  /** `to` is some number of steps back from `from`, past events that are not worth running again. */
  ghost predicate LeadsBack(events: seq<Event>, scan: SourceScan, deterministic: set<string>, from: nat, to: nat)
    requires from < |events|
    decreases from
  {
    from == to ||
    (!Retryable(events, scan.effects, deterministic, from) &&
     Previous(events, scan.failedAt, from).Some? &&
     LeadsBack(events, scan, deterministic, Previous(events, scan.failedAt, from).value, to))
  }

  /** The origin is the nearest retryable event behind the failure, or the failure itself when none is. */
  lemma {:induction false} OriginIsNearestRetryable(events: seq<Event>, scan: SourceScan, deterministic: set<string>, index: nat)
    requires index < |events|
    ensures var o := OriginFrom(events, scan, deterministic, index);
      || (0 <= o <= index && LeadsBack(events, scan, deterministic, index, o) &&
          Retryable(events, scan.effects, deterministic, o))
      || (o == scan.cut && forall j: nat ::
            j < |events| && LeadsBack(events, scan, deterministic, index, j) ==> !Retryable(events, scan.effects, deterministic, j))
    decreases index
  {
    if !Retryable(events, scan.effects, deterministic, index) && Previous(events, scan.failedAt, index).Some? {
      OriginIsNearestRetryable(events, scan, deterministic, Previous(events, scan.failedAt, index).value);
    }
  }

  // ---------------------------------------------------------------- the plan

  /** What the fork's history holds in place of a source event. */
  function CopyEvent(e: Event, runId: string, reissued: seq<OutstandingEffect>): Event {
    if e.ephemeral && e.effectId.Some? && HasId(reissued, e.effectId.value) then
      e.(runId := runId, etype := ForkElided(e.etype), payload := Obj(map[]))
    else if e.etype.SnapshotTaken? && e.payload.Obj? then
      e.(runId := runId, payload := Obj(e.payload.fields - {KState}))
    else if e.etype.RunStarted? then e.(runId := runId, idempotencyKey := None)
    else e.(runId := runId)
  }

  function CopyAll(events: seq<Event>, runId: string, reissued: seq<OutstandingEffect>): seq<Event> {
    seq(|events|, i requires 0 <= i < |events| => CopyEvent(events[i], runId, reissued))
  }

  /** `slice(0, end)`: a negative end counts from the back. */
  function SliceTo<T>(xs: seq<T>, end: int): seq<T> {
    xs[..Min(|xs|, if end < 0 then Max(0, |xs| + end) else end)]
  }

  datatype ForkPlan = ForkPlan(events: seq<Event>, sourceSeq: int, rootThreadId: string)

  datatype ForkResult = Planned(plan: ForkPlan) | NoEvents | IncompleteHistory | NoRootThread

  predicate FullHistory(events: seq<Event>) {
    forall i :: 0 <= i < |events| ==> events[i].seqNo == i + 1
  }

  function Marker(sourceRunId: string, runId: string, cut: int): Event {
    Event("", runId, cut + 1, 0, RunForked,
          Obj(map[KSourceRunId := Str(sourceRunId), KSourceSeq := Num(cut)]),
          None, None, None, None, None, System, false, None)
  }

  function CutOf(events: seq<Event>, reg: Registry, deterministic: set<string>): int {
    var scan := Scan(StartOf(events), events, 0, map[], map[], reg);
    if scan.rootFailed && 0 <= scan.cut < |events| then OriginFrom(events, scan, deterministic, scan.cut) else scan.cut
  }

  function PlanFork(sourceRunId: string, runId: string, events: seq<Event>, reg: Registry, deterministic: set<string>): ForkResult {
    if events == [] then NoEvents
    else if !FullHistory(events) then IncompleteHistory
    else
      var cut := CutOf(events, reg, deterministic);
      var prefix := SliceTo(events, cut);
      var atCut := FoldRun(prefix, reg, runId);
      if !NonEmpty(atCut.head.rootThreadId) then NoRootThread
      else Planned(ForkPlan(
        CopyAll(prefix, runId, atCut.outstanding) + [Marker(sourceRunId, runId, cut)], cut, atCut.head.rootThreadId.value))
  }

  // ---------------------------------------------------------------- folding the copied history

  /** Events that differ only in what a fork may change. */
  ghost predicate Kin(e: Event, c: Event) {
    && c == e.(runId := c.runId, idempotencyKey := c.idempotencyKey, payload := c.payload)
    && (c.idempotencyKey == e.idempotencyKey || e.etype.RunStarted?)
    && (c.payload == e.payload ||
        (e.etype.SnapshotTaken? && e.payload.Obj? && c.payload == Obj(e.payload.fields - {KState})))
  }

  /** User code that does not read the run id, nor the other fields a fork rewrites. */
  ghost predicate IgnoresRun(d: ThreadDefinition) {
    && (forall state, e, c, x, r :: Kin(e, c) ==> d.step(state, e, x) == d.step(state, c, ThreadContext(r, x.threadId, x.parentThreadId)))
    && (forall state, x, r :: d.effects(state, x) == d.effects(state, ThreadContext(r, x.threadId, x.parentThreadId)))
    && (forall x, r :: d.initialState(x) ==
          d.initialState(StartContext(r, x.threadId, x.parentThreadId, x.definitionName, x.definitionVersion, x.input)))
  }

  ghost predicate AllIgnoreRun(reg: Registry) {
    forall kind :: kind in reg ==> IgnoresRun(reg[kind])
  }

  /** States that agree on all a run does next; only ids, keys and start records may differ. */
  ghost predicate Alike(s: RunState, c: RunState) {
    && c == s.(head := c.head)
    && c.head.status == s.head.status && c.head.rootThreadId == s.head.rootThreadId
  }

  lemma AdmitAlike(s: RunState, c: RunState, e: Event, f: Event)
    requires Alike(s, c) && Kin(e, f)
    ensures Alike(Admit(s, e), Admit(c, f))
  {
  }

  lemma StartAlike(s: RunState, c: RunState, e: Event, f: Event, reg: Registry)
    requires Alike(s, c) && Kin(e, f) && AllIgnoreRun(reg) && e.etype.ThreadStarted?
    ensures Alike(StartThread(s, e, reg), StartThread(c, f, reg))
  {
    assert f.payload == e.payload && f.threadId == e.threadId;
    assert TargetThread(f) == TargetThread(e);
    hide Kin, ReadString, FieldOrNull, IgnoresRun, ParentOf, TargetThread;
    var t, kind, name := TargetThread(e), ReadString(e.payload, KKind), ReadString(e.payload, KDefinitionName);
    if NonEmpty(t) && NonEmpty(kind) && NonEmpty(name) && kind.value in reg {
      var version := ReadString(e.payload, KDefinitionVersion).GetOr(DEFAULT_DEFINITION_VERSION);
      var x := StartContext(e.runId, t.value, ParentOf(e.payload), name.value, version, FieldOrNull(e.payload, KInput));
      assert IgnoresRun(reg[kind.value]);
      StartsAlike(reg[kind.value], x, f.runId);
    }
    hide AllIgnoreRun;
  }

  lemma StartsAlike(d: ThreadDefinition, x: StartContext, r: string)
    requires IgnoresRun(d)
    ensures d.initialState(x)
         == d.initialState(StartContext(r, x.threadId, x.parentThreadId, x.definitionName, x.definitionVersion, x.input))
  {
  }

  lemma RecordAlike(s: RunState, c: RunState, e: Event, f: Event)
    requires Alike(s, c) && Kin(e, f) && f.payload == e.payload
    ensures Alike(RecordExecution(s, e), RecordExecution(c, f))
  {
  }

  lemma StartRunAlike(s: RunState, c: RunState, e: Event, f: Event)
    requires Alike(s, c) && Kin(e, f) && f.payload == e.payload
    ensures Alike(StartRun(s, e), StartRun(c, f))
  {
  }

  lemma ChildEventAlike(s: RunState, c: RunState, e: Event, f: Event)
    requires Alike(s, c) && Kin(e, f) && f.payload == e.payload
    ensures Alike(ForkRun(s, e), ForkRun(c, f)) && Alike(LaunchChild(s, e), LaunchChild(c, f))
    ensures Alike(SettleChild(s, e), SettleChild(c, f)) && Alike(RequestChildClose(s, e), RequestChildClose(c, f))
  {
  }

  lemma RunEventAlike(s: RunState, c: RunState, e: Event, f: Event)
    requires Alike(s, c) && Kin(e, f)
    ensures Alike(ApplyRunEvent(s, e), ApplyRunEvent(c, f))
  {
    if !e.etype.SnapshotTaken? {
      if IsExecutionEvent(e.etype) { RecordAlike(s, c, e, f); }
      else if e.etype.RunStarted? { StartRunAlike(s, c, e, f); }
      else { ChildEventAlike(s, c, e, f); }
    }
  }

  lemma ThreadEventAlike(s: RunState, c: RunState, e: Event, f: Event)
    requires Alike(s, c) && Kin(e, f) && f.payload == e.payload
    ensures Alike(CompleteThread(s, e), CompleteThread(c, f))
    ensures Alike(FailThread(s, e), FailThread(c, f))
    ensures Alike(CancelThread(s, e), CancelThread(c, f))
  {
  }

  lemma WaitEventAlike(s: RunState, c: RunState, e: Event, f: Event)
    requires Alike(s, c) && Kin(e, f) && f.payload == e.payload
    ensures Alike(RegisterWait(s, e), RegisterWait(c, f))
    ensures Alike(SatisfyWait(s, e), SatisfyWait(c, f))
  {
  }

  lemma ProtocolAlike(s: RunState, c: RunState, e: Event, f: Event, reg: Registry)
    requires Alike(s, c) && Kin(e, f) && AllIgnoreRun(reg)
    ensures Alike(ApplyProtocol(s, e, reg), ApplyProtocol(c, f, reg))
  {
    if e.etype.ThreadStarted? { StartAlike(s, c, e, f, reg); }
    else if e.etype.ThreadCompleted? || e.etype.ThreadFailed? || e.etype.ThreadCancelled? { ThreadEventAlike(s, c, e, f); }
    else if e.etype.WaitRegistered? || e.etype.WaitSatisfied? { WaitEventAlike(s, c, e, f); }
    else if !e.etype.EffectCancelled? { RunEventAlike(s, c, e, f); }
  }

  /** Related states and events reach the same next state and enable the same effects. */
  lemma StepAlike(s: RunState, c: RunState, e: Event, f: Event, reg: Registry)
    requires Alike(s, c) && Kin(e, f) && AllIgnoreRun(reg) && Delivers(s, e, reg)
    ensures Delivers(c, f, reg) && DeliveryTarget(c, f) == DeliveryTarget(s, e)
    ensures StepOf(c, f, reg) == StepOf(s, e, reg) && EnabledBy(c, f, reg) == EnabledBy(s, e, reg)
  {
    var t := DeliveryTarget(s, e).value;
    var d := reg[s.threads[t].kind];
    assert IgnoresRun(d);
    var x, y := ContextOf(s, t), ContextOf(c, t);
    assert d.step(s.threads[t].state, e, x) == d.step(s.threads[t].state, f, y);
    assert d.effects(StepOf(s, e, reg), x) == d.effects(StepOf(s, e, reg), y);
  }

  lemma CommitAlike(s: RunState, c: RunState, e: Event, f: Event, t: string, nextState: Json, enabled: seq<RuntimeEffect>,
                    forgets: bool, settled: Option<OutstandingEffect>)
    requires Alike(s, c) && Kin(e, f) && t in s.threads
    ensures Alike(CommitStep(s, e, t, nextState, enabled, forgets, settled),
                  CommitStep(c, f, t, nextState, enabled, forgets, settled))
  {
    hide FindMatch, StableId, Fresh, IsTerminal;
    MatchKin(t, e, f, enabled, 0, OfThread(s.outstanding, t), settled);
  }

  lemma DeliverAlike(s: RunState, c: RunState, e: Event, f: Event, reg: Registry, settled: Option<OutstandingEffect>)
    requires Alike(s, c) && Kin(e, f) && AllIgnoreRun(reg)
    ensures Alike(Deliver(s, e, reg, settled), Deliver(c, f, reg, settled))
  {
    if Delivers(s, e, reg) {
      var t := DeliveryTarget(s, e).value;
      StepAlike(s, c, e, f, reg);
      CommitAlike(s, c, e, f, t, StepOf(s, e, reg), EnabledBy(s, e, reg), reg[s.threads[t].kind].forgetsCompletedEffects, settled);
    }
  }

  lemma {:induction false} MatchKin(t: string, e: Event, f: Event, effects: seq<RuntimeEffect>, index: nat,
                                    remaining: seq<OutstandingEffect>, settled: Option<OutstandingEffect>)
    requires index <= |effects| && Kin(e, f)
    ensures Match(t, e, effects, index, remaining, settled) == Match(t, f, effects, index, remaining, settled)
    decreases |effects| - index
  {
    if index < |effects| {
      var m := FindMatch(remaining, StableId(t, effects[index]), TypeOf(effects[index]));
      MatchKin(t, e, f, effects, index + 1, if m.Some? then RemoveAt(remaining, m.value) else remaining, settled);
    }
  }

  lemma FoldEventAlike(s: RunState, c: RunState, e: Event, f: Event, reg: Registry)
    requires Alike(s, c) && Kin(e, f) && AllIgnoreRun(reg)
    ensures Alike(FoldEvent(s, e, reg), FoldEvent(c, f, reg))
  {
    if !e.ephemeral {
      AdmitAlike(s, c, e, f);
      ProtocolAlike(Admit(s, e), Admit(c, f), e, f, reg);
      var settled := SettledWithoutOutcome(s, e);
      DeliverAlike(Prepare(s, e, reg), Prepare(c, f, reg), e, f, reg, settled);
      FailAlike(Deliver(Prepare(s, e, reg), e, reg, settled), Deliver(Prepare(c, f, reg), f, reg, settled), e, f,
                Prepare(s, e, reg).outstanding);
    }
  }

  lemma FailAlike(s: RunState, c: RunState, e: Event, f: Event, before: seq<OutstandingEffect>)
    requires Alike(s, c) && Kin(e, f)
    ensures Alike(FailUnhandled(s, e, before), FailUnhandled(c, f, before))
  {
  }

  lemma {:induction false} CopyAlike(s: RunState, c: RunState, events: seq<Event>, runId: string,
                                     reissued: seq<OutstandingEffect>, reg: Registry)
    requires Alike(s, c) && AllIgnoreRun(reg)
    ensures Alike(FoldFrom(s, events, reg), FoldFrom(c, CopyAll(events, runId, reissued), reg))
    decreases |events|
  {
    if events != [] {
      var copies := CopyAll(events, runId, reissued);
      var f := CopyEvent(events[0], runId, reissued);
      assert copies[0] == f && copies[1..] == CopyAll(events[1..], runId, reissued);
      if !events[0].ephemeral { FoldEventAlike(s, c, events[0], f, reg); }
      CopyAlike(FoldEvent(s, events[0], reg), FoldEvent(c, f, reg), events[1..], runId, reissued, reg);
    }
  }

  lemma {:induction false} SameEventsAlike(s: RunState, c: RunState, events: seq<Event>, reg: Registry)
    requires Alike(s, c) && AllIgnoreRun(reg)
    ensures Alike(FoldFrom(s, events, reg), FoldFrom(c, events, reg))
    decreases |events|
  {
    hide FoldEvent;
    if events != [] {
      FoldEventAlike(s, c, events[0], events[0], reg);
      SameEventsAlike(FoldEvent(s, events[0], reg), FoldEvent(c, events[0], reg), events[1..], reg);
    }
  }

  /** A fork's state carries on from a source state: everything but ids, keys and attempt records. */
  ghost predicate Resumes(s: RunState, c: RunState) {
    && c.threads == s.threads && c.started == s.started && c.waits == s.waits
    && c.outstanding == s.outstanding && c.completed == s.completed && c.children == s.children
    && c.head.status == s.head.status && c.head.rootThreadId == s.head.rootThreadId
  }

  lemma MarkerFold(c: RunState, sourceRunId: string, runId: string, cut: int, reg: Registry)
    requires sourceRunId != ""
    ensures var n := FoldEvent(c, Marker(sourceRunId, runId, cut), reg);
      Resumes(c, n) && n.executions == map[] && n.head.forkedFrom == Some(ForkSource(sourceRunId, cut))
  {
    var m := Marker(sourceRunId, runId, cut);
    assert ReadString(m.payload, KSourceRunId) == Some(sourceRunId) && ReadNumber(m.payload, KSourceSeq) == Some(cut);
    var p := Prepare(c, m, reg);
    assert !Delivers(p, m, reg);
  }

  ghost predicate OneRun(events: seq<Event>, runId: string) {
    runId != "" && forall e :: e in events ==> e.runId == runId
  }

  /**
   * Folding a fork's history gives the source run's state at the cut: the same threads, waits,
   * outstanding effects under the same ids, completed ids and launched runs, with no attempt under way.
   */
  lemma ForkResumesAtCut(sourceRunId: string, runId: string, events: seq<Event>, reg: Registry, deterministic: set<string>)
    requires PlanFork(sourceRunId, runId, events, reg, deterministic).Planned?
    requires OneRun(events, sourceRunId) && AllIgnoreRun(reg)
    ensures var plan := PlanFork(sourceRunId, runId, events, reg, deterministic).plan;
      var source := FoldRun(SliceTo(events, plan.sourceSeq), reg, sourceRunId);
      var fork := FoldRun(plan.events, reg, runId);
      && Resumes(source, fork)
      && fork.executions == map[] && fork.head.forkedFrom == Some(ForkSource(sourceRunId, plan.sourceSeq))
      && fork.head.rootThreadId == Some(plan.rootThreadId)
  {
    hide FoldEvent, CopyEvent, CutOf;
    var cut := CutOf(events, reg, deterministic);
    var prefix := SliceTo(events, cut);
    var reissued := FoldRun(prefix, reg, runId).outstanding;
    var copies := CopyAll(prefix, runId, reissued);
    var m := Marker(sourceRunId, runId, cut);
    CopyAlike(Empty(sourceRunId), Empty(runId), prefix, runId, reissued, reg);
    SameEventsAlike(Empty(sourceRunId), Empty(runId), prefix, reg);
    FoldFromAppend(Empty(runId), copies, [m], reg);
    var c := FoldFrom(Empty(runId), copies, reg);
    MarkerFold(c, sourceRunId, runId, cut, reg);
    assert [m][1..] == [];
    assert FoldFrom(c, [m], reg) == FoldEvent(c, m, reg);
  }

  /** A fork is numbered 1, 2, 3, ..., so it can itself be forked, exactly when its cut lies in the source. */
  lemma ForkIsFullHistory(sourceRunId: string, runId: string, events: seq<Event>, reg: Registry, deterministic: set<string>)
    requires PlanFork(sourceRunId, runId, events, reg, deterministic).Planned?
    ensures var plan := PlanFork(sourceRunId, runId, events, reg, deterministic).plan;
      FullHistory(plan.events) <==> 0 <= plan.sourceSeq <= |events|
  {
    hide FoldEvent, CutOf;
    var plan := PlanFork(sourceRunId, runId, events, reg, deterministic).plan;
    var cut := CutOf(events, reg, deterministic);
    var prefix := SliceTo(events, cut);
    var n := |plan.events| - 1;
    assert n == |prefix| && plan.events[n].seqNo == cut + 1;
    assert forall i :: 0 <= i < n ==> plan.events[i].seqNo == events[i].seqNo;
  }

  // ---------------------------------------------------------------- where the cut falls

  function StateAt(events: seq<Event>, n: nat, reg: Registry): RunState
    requires n <= |events|
  {
    FoldFrom(StartOf(events), events[..n], reg)
  }

  lemma NextState(events: seq<Event>, n: nat, reg: Registry)
    requires n < |events|
    ensures StateAt(events, n + 1, reg) == FoldEvent(StateAt(events, n, reg), events[n], reg)
  {
    hide FoldEvent;
    assert events[..n + 1] == events[..n] + [events[n]];
    FoldFromAppend(StartOf(events), events[..n], [events[n]], reg);
    assert [events[n]][1..] == [];
    assert FoldFrom(StateAt(events, n, reg), [events[n]], reg) == FoldEvent(StateAt(events, n, reg), events[n], reg);
  }

  /** The scan stops at the first event after which the root has ended. */
  lemma {:induction false} ScanStops(events: seq<Event>, index: nat, effects: map<EffectId, RuntimeEffect>,
                                     failedAt: map<string, nat>, reg: Registry)
    requires index <= |events|
    ensures var scan := Scan(StateAt(events, index, reg), events, index, effects, failedAt, reg);
      var k := scan.end.GetOr(|events|);
      && index <= k <= |events| && (scan.end.Some? ==> k < |events|)
      && (forall j :: index < j <= k ==> !RootTerminal(StateAt(events, j, reg)))
      && (scan.end.Some? ==>
            && RootTerminal(StateAt(events, k + 1, reg))
            && scan.cut == CancellationStart(events[k]).GetOr(k)
            && scan.rootFailed == RootFailed(StateAt(events, k + 1, reg)))
      && (scan.end.None? ==> scan.cut == |events| && !scan.rootFailed)
    decreases |events| - index
  {
    hide FoldEvent, RootTerminal, RootFailed;
    if index < |events| {
      NextState(events, index, reg);
      var next := StateAt(events, index + 1, reg);
      if !RootTerminal(next) {
        ScanStops(events, index + 1, NoteEffects(effects, next.outstanding), NoteFailures(failedAt, next, index), reg);
      }
    }
  }

  /** A cancellation that ends the root does not leave it failed. */
  lemma CancellationIsNoFailure(s: RunState, e: Event, reg: Registry)
    requires !RootTerminal(s) && e.etype.ThreadCancelled? && SelfNamed(s.threads)
    ensures !RootFailed(FoldEvent(s, e, reg))
  {
    if !e.ephemeral {
      var p := Prepare(s, e, reg);
      assert !RootFailed(p) && SelfNamed(p.threads) && p.head.rootThreadId == s.head.rootThreadId by {
        CancelNoFailure(Admit(s, e), e);
        CancelThreadKinds(Admit(s, e), e);
      }
      DeliverNoFailure(p, e, reg, SettledWithoutOutcome(s, e));
    }
  }

  lemma CancelNoFailure(s: RunState, e: Event)
    requires !RootTerminal(s) && SelfNamed(s.threads)
    ensures !RootFailed(CancelThread(s, e)) && CancelThread(s, e).head == s.head
  {
  }

  lemma DeliverNoFailure(s: RunState, e: Event, reg: Registry, settled: Option<OutstandingEffect>)
    requires !RootFailed(s) && SelfNamed(s.threads)
    ensures !RootFailed(Deliver(s, e, reg, settled))
  {
  }

  /** The whole-log scan, and the event that ended the root. */
  function ScanOf(events: seq<Event>, reg: Registry): SourceScan {
    Scan(StartOf(events), events, 0, map[], map[], reg)
  }

  lemma ScanFacts(events: seq<Event>, reg: Registry)
    ensures var scan := ScanOf(events, reg);
      var k := scan.end.GetOr(|events|);
      && k <= |events| && (scan.end.Some? ==> k < |events|)
      && (forall j :: 0 <= j <= k ==> !RootTerminal(StateAt(events, j, reg)))
      && (scan.end.Some? ==>
            && RootTerminal(StateAt(events, k + 1, reg))
            && scan.cut == CancellationStart(events[k]).GetOr(k)
            && (scan.rootFailed ==> CancellationStart(events[k]).None?))
      && (scan.end.None? ==> scan.cut == |events| && !scan.rootFailed)
  {
    hide FoldEvent;
    assert StateAt(events, 0, reg) == StartOf(events);
    ScanStops(events, 0, map[], map[], reg);
    var scan := ScanOf(events, reg);
    if scan.end.Some? && scan.rootFailed && CancellationStart(events[scan.end.value]).Some? {
      var k := scan.end.value;
      FoldFromSelfNamed(StartOf(events), events[..k], reg);
      NextState(events, k, reg);
      CancellationIsNoFailure(StateAt(events, k, reg), events[k], reg);
      assert false;
    }
  }

  /** A cancellation that ended the root and recorded where it began recorded an earlier seq. */
  ghost predicate ResumesEarlier(events: seq<Event>, reg: Registry) {
    var end := ScanOf(events, reg).end;
    end.Some? && end.value < |events| && CancellationStart(events[end.value]).Some? ==>
      0 <= CancellationStart(events[end.value]).value < events[end.value].seqNo
  }

  /** The cut lies in the source, and the root had not ended there. */
  lemma CutBeforeTheEnd(events: seq<Event>, reg: Registry, deterministic: set<string>)
    requires FullHistory(events) && ResumesEarlier(events, reg)
    ensures 0 <= CutOf(events, reg, deterministic) <= |events|
    ensures !RootTerminal(StateAt(events, CutOf(events, reg, deterministic), reg))
  {
    hide FoldEvent, RootTerminal;
    ScanFacts(events, reg);
    var scan := ScanOf(events, reg);
    if scan.rootFailed && 0 <= scan.cut < |events| {
      OriginIsNearestRetryable(events, scan, deterministic, scan.cut);
    }
  }

  /** Forking a run whose recorded cancellation start is earlier yields a live, renumbered run. */
  lemma ForkIsLive(sourceRunId: string, runId: string, events: seq<Event>, reg: Registry, deterministic: set<string>)
    requires PlanFork(sourceRunId, runId, events, reg, deterministic).Planned?
    requires OneRun(events, sourceRunId) && AllIgnoreRun(reg) && ResumesEarlier(events, reg)
    ensures var plan := PlanFork(sourceRunId, runId, events, reg, deterministic).plan;
      FullHistory(plan.events) && !RootTerminal(FoldRun(plan.events, reg, runId))
  {
    hide FoldEvent, CutOf;
    CutBeforeTheEnd(events, reg, deterministic);
    ForkIsFullHistory(sourceRunId, runId, events, reg, deterministic);
    ForkResumesAtCut(sourceRunId, runId, events, reg, deterministic);
    assert events[0] in events;
    assert StartOf(events) == Empty(sourceRunId);
  }

  // ---------------------------------------------------------------- when the fork's root has ended

  /** Whether the run's status is still running, and its root, change only with the run's start. */
  lemma HeadStays(s: RunState, e: Event, reg: Registry)
    requires e.ephemeral || !e.etype.RunStarted?
    ensures var n := FoldEvent(s, e, reg);
      && (!s.head.status.RunRunning? ==> !n.head.status.RunRunning?)
      && (NonEmpty(s.head.rootThreadId) ==> n.head.rootThreadId == s.head.rootThreadId)
  {
    if !e.ephemeral {
      var a := Admit(s, e);
      ProtocolHeadStays(a, e, reg);
      var p := Prepare(s, e, reg);
      DeliverHeadStays(p, e, reg, SettledWithoutOutcome(s, e));
      hide Prepare, Deliver, SettledWithoutOutcome, FaultOf, IsWithdrawn, OffThread;
    }
  }

  lemma ProtocolHeadStays(s: RunState, e: Event, reg: Registry)
    requires !e.etype.RunStarted?
    ensures var n := ApplyProtocol(s, e, reg);
      && (!s.head.status.RunRunning? ==> !n.head.status.RunRunning?)
      && (NonEmpty(s.head.rootThreadId) ==> n.head.rootThreadId == s.head.rootThreadId)
  {
    hide RegisterWait, SatisfyWait, CompleteThread, RecordExecution, LaunchChild, FaultOf, OffThread, WithoutEffect, OptFault, WithoutRun;
  }

  lemma DeliverHeadStays(s: RunState, e: Event, reg: Registry, settled: Option<OutstandingEffect>)
    ensures Deliver(s, e, reg, settled).head == s.head
  {
    hide MapEffects, OffThread, OfThread, StillNamed, Delivers, StepOf, EnabledBy;
  }

  /** An ended root stays ended through a log that starts each thread once and does not start the run again. */
  lemma {:induction false} RootStaysEnded(s: RunState, events: seq<Event>, reg: Registry)
    requires RootTerminal(s) && SelfNamed(s.threads) && StartsOnce(s, events, reg)
    requires forall e :: e in events ==> !e.etype.RunStarted?
    ensures RootTerminal(FoldFrom(s, events, reg))
    decreases |events|
  {
    if !s.head.status.RunRunning? {
      StatusStays(s, events, reg);
    } else {
      RootIdStays(s, events, reg);
      TerminalThreadStays(s, events, reg, s.head.rootThreadId.value);
    }
  }

  lemma {:induction false} StatusStays(s: RunState, events: seq<Event>, reg: Registry)
    requires !s.head.status.RunRunning? && forall e :: e in events ==> !e.etype.RunStarted?
    ensures !FoldFrom(s, events, reg).head.status.RunRunning?
    decreases |events|
  {
    if events != [] {
      hide FoldEvent;
      assert forall e :: e in events[1..] ==> e in events;
      HeadStays(s, events[0], reg);
      StatusStays(FoldEvent(s, events[0], reg), events[1..], reg);
    }
  }

  lemma {:induction false} RootIdStays(s: RunState, events: seq<Event>, reg: Registry)
    requires NonEmpty(s.head.rootThreadId) && forall e :: e in events ==> !e.etype.RunStarted?
    ensures FoldFrom(s, events, reg).head.rootThreadId == s.head.rootThreadId
    decreases |events|
  {
    if events != [] {
      hide FoldEvent;
      assert forall e :: e in events[1..] ==> e in events;
      HeadStays(s, events[0], reg);
      RootIdStays(FoldEvent(s, events[0], reg), events[1..], reg);
    }
  }

  /** Only the first event starts the run. */
  predicate OneStart(events: seq<Event>) {
    forall i :: 0 < i < |events| ==> !events[i].etype.RunStarted?
  }

  /** The recorded start of the cancellation that ended the root, when there is one. */
  ghost function RecordedStart(events: seq<Event>, reg: Registry): Option<int> {
    var end := ScanOf(events, reg).end;
    if end.Some? && end.value < |events| then CancellationStart(events[end.value]) else None
  }

  /**
   * If the cancellation that ended the root recorded where it began, fewer events than its seq are copied:
   * the recorded seq, or, if it is negative, as many as remain when so many are left off the end.
   */
  ghost predicate CopiesLess(events: seq<Event>, reg: Registry) {
    RecordedStart(events, reg).Some? ==>
      |SliceTo(events, RecordedStart(events, reg).value)| < events[ScanOf(events, reg).end.value].seqNo
  }

  /** A recorded start at or past the event that ended the root is too late: the copy ends with the root ended. */
  lemma LateResumeKeepsTheEnd(events: seq<Event>, reg: Registry, deterministic: set<string>)
    requires FullHistory(events) && OneStart(events) && StartsOnce(StartOf(events), events, reg) && !CopiesLess(events, reg)
    ensures RootTerminal(FoldFrom(StartOf(events), SliceTo(events, CutOf(events, reg, deterministic)), reg))
  {
    hide FoldEvent, RootTerminal, StartsOnce, Scan, OriginFrom;
    ScanFacts(events, reg);
    var k := ScanOf(events, reg).end.value;
    var n := RecordedStart(events, reg).value;
    EndIsNoCutback(events, reg, deterministic);
    EndedAtLater(events, k + 1, |SliceTo(events, n)|, reg);
  }

  /** A recorded start is the cut: the run was cancelled, so there is no failure to look behind. */
  lemma EndIsNoCutback(events: seq<Event>, reg: Registry, deterministic: set<string>)
    requires RecordedStart(events, reg).Some? && FullHistory(events)
    ensures ScanOf(events, reg).end.Some? && CutOf(events, reg, deterministic) == RecordedStart(events, reg).value
  {
    hide FoldEvent, RootTerminal;
    ScanFacts(events, reg);
  }

  /** Once the root has ended, it has ended at every later point of the log. */
  lemma EndedAtLater(events: seq<Event>, k: nat, m: nat, reg: Registry)
    requires 0 < k <= m <= |events| && OneStart(events) && StartsOnce(StartOf(events), events, reg)
    requires RootTerminal(StateAt(events, k, reg))
    ensures RootTerminal(StateAt(events, m, reg))
  {
    hide FoldEvent, RootTerminal, StartsOnce;
    var s, rest := StartOf(events), events[k..m];
    LaterStartsOnce(s, events, k, m, reg);
    FoldFromSelfNamed(s, events[..k], reg);
    assert events[..m] == events[..k] + rest;
    FoldFromAppend(s, events[..k], rest, reg);
    forall e | e in rest ensures !e.etype.RunStarted? {
      var i :| 0 <= i < |rest| && rest[i] == e;
      assert e == events[k + i];
    }
    RootStaysEnded(StateAt(events, k, reg), rest, reg);
  }

  lemma LaterStartsOnce(s: RunState, events: seq<Event>, k: nat, m: nat, reg: Registry)
    requires k <= m <= |events| && StartsOnce(s, events, reg)
    ensures StartsOnce(FoldFrom(s, events[..k], reg), events[k..m], reg)
  {
    hide FoldEvent, StartsOnce;
    assert events == events[..k] + events[k..] && events[k..] == events[k..m] + events[m..];
    StartsOnceAppend(s, events[..k], events[k..], reg);
    StartsOnceAppend(FoldFrom(s, events[..k], reg), events[k..m], events[m..], reg);
  }

  lemma EarlyResumeDropsTheEnd(events: seq<Event>, reg: Registry, deterministic: set<string>)
    requires FullHistory(events) && CopiesLess(events, reg)
    ensures !RootTerminal(FoldFrom(StartOf(events), SliceTo(events, CutOf(events, reg, deterministic)), reg))
  {
    hide FoldEvent, RootTerminal, Scan, OriginFrom;
    if RecordedStart(events, reg).Some? {
      ScanFacts(events, reg);
      EndIsNoCutback(events, reg, deterministic);
      assert !RootTerminal(StateAt(events, |SliceTo(events, RecordedStart(events, reg).value)|, reg));
    } else {
      CutBeforeTheEnd(events, reg, deterministic);
    }
  }

  /**
   * On logs that start the run and each thread once, the forked root is live exactly when the copy stops before the
   * cancellation that ended it: when that recorded no start, or one earlier than its own event's seq.
   */
  lemma ForkIsLiveIff(sourceRunId: string, runId: string, events: seq<Event>, reg: Registry, deterministic: set<string>)
    requires PlanFork(sourceRunId, runId, events, reg, deterministic).Planned?
    requires OneRun(events, sourceRunId) && AllIgnoreRun(reg)
    requires OneStart(events) && StartsOnce(Empty(sourceRunId), events, reg)
    ensures var plan := PlanFork(sourceRunId, runId, events, reg, deterministic).plan;
      !RootTerminal(FoldRun(plan.events, reg, runId)) <==> CopiesLess(events, reg)
    ensures RecordedStart(events, reg).Some? && RecordedStart(events, reg).value >= 0 ==>
      (CopiesLess(events, reg) <==> RecordedStart(events, reg).value < events[ScanOf(events, reg).end.value].seqNo)
  {
    hide FoldEvent, CutOf, StartsOnce;
    assert events[0] in events;
    assert StartOf(events) == Empty(sourceRunId);
    if CopiesLess(events, reg) {
      EarlyResumeDropsTheEnd(events, reg, deterministic);
    } else {
      LateResumeKeepsTheEnd(events, reg, deterministic);
    }
    ForkResumesAtCut(sourceRunId, runId, events, reg, deterministic);
    if RecordedStart(events, reg).Some? && RecordedStart(events, reg).value >= 0 {
      EarlierIsFewer(events, reg);
    }
  }

  lemma EarlierIsFewer(events: seq<Event>, reg: Registry)
    requires FullHistory(events) && RecordedStart(events, reg).Some? && RecordedStart(events, reg).value >= 0
    ensures CopiesLess(events, reg) <==> RecordedStart(events, reg).value < events[ScanOf(events, reg).end.value].seqNo
  {
    hide FoldEvent, Scan;
    ScanFacts(events, reg);
  }

  /**
   * A fork keeps each copied event's seq and durability, and elides exactly the streamed events of
   * effects that the source had outstanding at the cut.
   */
  lemma ForkElidesReissuedStreams(
    sourceRunId: string, runId: string, events: seq<Event>, reg: Registry, deterministic: set<string>, i: nat)
    requires PlanFork(sourceRunId, runId, events, reg, deterministic).Planned?
    requires OneRun(events, sourceRunId) && AllIgnoreRun(reg)
    requires i < |SliceTo(events, PlanFork(sourceRunId, runId, events, reg, deterministic).plan.sourceSeq)|
    requires !events[i].etype.ForkElided?
    ensures var plan := PlanFork(sourceRunId, runId, events, reg, deterministic).plan;
      var source := FoldRun(SliceTo(events, plan.sourceSeq), reg, sourceRunId);
      && i < |plan.events| && plan.events[i].seqNo == events[i].seqNo && plan.events[i].ephemeral == events[i].ephemeral
      && (plan.events[i].etype.ForkElided? <==>
            events[i].ephemeral && events[i].effectId.Some? && HasId(source.outstanding, events[i].effectId.value))
  {
    hide FoldEvent, CutOf;
    var prefix := SliceTo(events, CutOf(events, reg, deterministic));
    var mine := FoldRun(prefix, reg, runId).outstanding;
    SameEventsAlike(Empty(sourceRunId), Empty(runId), prefix, reg);
    OnlyReissuedStreamsAreElided(events[i], runId, mine);
  }

  lemma OnlyReissuedStreamsAreElided(e: Event, runId: string, reissued: seq<OutstandingEffect>)
    requires !e.etype.ForkElided?
    ensures CopyEvent(e, runId, reissued).etype.ForkElided? <==>
      e.ephemeral && e.effectId.Some? && HasId(reissued, e.effectId.value)
    ensures CopyEvent(e, runId, reissued).ephemeral == e.ephemeral && CopyEvent(e, runId, reissued).seqNo == e.seqNo
  {
  }

  // ---------------------------------------------------------------- a log whose fork stays ended

  /** A kind of thread that never asks for anything. */
  function QuietKind(): ThreadDefinition {
    ThreadDefinition((c: StartContext) => Null, (state: Json, e: Event, c: ThreadContext) => state,
                     (state: Json, c: ThreadContext) => [], false)
  }

  function ThreadEventOf(runId: string, seqNo: int, etype: EventType, t: string, payload: Json): Event {
    Event("", runId, seqNo, 0, etype, payload, None, Some(t), None, None, None, System, false, None)
  }

  /** A root thread starts, and is cancelled by a cancellation that records its own event's seq. */
  function StartedAndCancelled(runId: string, kind: string, t: string): seq<Event> {
    [ThreadEventOf(runId, 1, ThreadStarted, t, Obj(map[KThreadId := Str(t), KKind := Str(kind), KDefinitionName := Str(kind)])),
     ThreadEventOf(runId, 2, ThreadCancelled, t, Obj(map[KThreadId := Str(t), KResumeSeq := Num(2)]))]
  }

  lemma StartRuns(runId: string, kind: string, t: string)
    requires runId != "" && kind != "" && t != ""
    ensures var s := FoldEvent(Empty(runId), StartedAndCancelled(runId, kind, t)[0], map[kind := QuietKind()]);
      && s.head.rootThreadId == Some(t) && s.head.status.RunRunning? && s.threads.Keys == {t}
      && s.threads[t].threadId == t && s.threads[t].status.Running? && s.threads[t].kind == kind && s.outstanding == [] && s.waits == map[]
  {
    var reg := map[kind := QuietKind()];
    var e := StartedAndCancelled(runId, kind, t)[0];
    var a := Admit(Empty(runId), e);
    var p := StartThread(a, e, reg);
    assert TargetThread(e) == Some(t);
    assert p.threads.Keys == {t} && p.threads[t].status.Running? && p.head.rootThreadId == Some(t);
    QuietDelivery(p, e, t, kind);
  }

  lemma QuietDelivery(s: RunState, e: Event, t: string, kind: string)
    requires t != "" && e.threadId == Some(t) && t in s.threads && s.threads[t].kind == kind && !IsTerminal(s.threads[t].status)
    requires s.threads[t].threadId == t && s.outstanding == []
    ensures Deliver(s, e, map[kind := QuietKind()], None) == s
  {
    var reg := map[kind := QuietKind()];
    assert StepOf(s, e, reg) == s.threads[t].state && EnabledBy(s, e, reg) == [];
    assert Match(t, e, [], 0, [], None) == [];
    assert s.threads[t := s.threads[t]] == s.threads;
  }

  lemma CancelEnds(s: RunState, runId: string, kind: string, t: string)
    requires t != "" && kind != "" && s.head.rootThreadId == Some(t) && t in s.threads && s.threads[t].threadId == t
    requires !IsTerminal(s.threads[t].status) && s.outstanding == []
    ensures RootTerminal(FoldEvent(s, StartedAndCancelled(runId, kind, t)[1], map[kind := QuietKind()]))
  {
    var e := StartedAndCancelled(runId, kind, t)[1];
    var p := CancelThread(Admit(s, e), e);
    assert TargetThread(e) == Some(t);
    assert p.threads[t].status.Cancelled? && p.head.rootThreadId == Some(t);
    assert !Delivers(p, e, map[kind := QuietKind()]);
  }

  /** The scan of that log ends at the cancellation, and cuts after it. */
  lemma ScanOfLateResume(runId: string, kind: string, t: string)
    requires runId != "" && kind != "" && t != ""
    ensures var events, reg := StartedAndCancelled(runId, kind, t), map[kind := QuietKind()];
      && RecordedStart(events, reg) == Some(2) && CutOf(events, reg, {}) == 2
      && StateAt(events, 1, reg).head.rootThreadId == Some(t)
  {
    hide FoldEvent;
    var events, reg := StartedAndCancelled(runId, kind, t), map[kind := QuietKind()];
    StartRuns(runId, kind, t);
    var s := FoldEvent(Empty(runId), events[0], reg);
    CancelEnds(s, runId, kind, t);
    NextState(events, 0, reg);
    assert StateAt(events, 0, reg) == Empty(runId);
    hide CancellationStart, NoteEffects, NoteFailures, RootFailed;
    var effects, failed := NoteEffects(map[], s.outstanding), NoteFailures(map[], s, 0);
    assert ScanOf(events, reg) == Scan(s, events, 1, effects, failed, reg);
    CancelRecordsItsOwnSeq(runId, kind, t);
  }

  lemma CancelRecordsItsOwnSeq(runId: string, kind: string, t: string)
    ensures CancellationStart(StartedAndCancelled(runId, kind, t)[1]) == Some(2)
  {
  }

  lemma PlannedWhenRooted(sourceRunId: string, runId: string, events: seq<Event>, reg: Registry, t: string)
    requires events != [] && FullHistory(events) && AllIgnoreRun(reg) && OneStart(events) && t != ""
    requires CutOf(events, reg, {}) == |events| && FoldFrom(Empty(sourceRunId), events[..1], reg).head.rootThreadId == Some(t)
    ensures PlanFork(sourceRunId, runId, events, reg, {}).Planned?
  {
    hide FoldEvent, CutOf, CopyAll;
    assert SliceTo(events, |events|) == events && events == events[..1] + events[1..];
    FoldFromAppend(Empty(sourceRunId), events[..1], events[1..], reg);
    forall e | e in events[1..] ensures !e.etype.RunStarted? {
      var i :| 0 <= i < |events[1..]| && events[1..][i] == e;
      assert e == events[i + 1];
    }
    RootIdStays(FoldFrom(Empty(sourceRunId), events[..1], reg), events[1..], reg);
    SameEventsAlike(Empty(sourceRunId), Empty(runId), events, reg);
  }

  /** That log starts each thread once. */
  lemma LateResumeStartsOnce(runId: string, kind: string, t: string, reg: Registry)
    ensures StartsOnce(Empty(runId), StartedAndCancelled(runId, kind, t), reg)
  {
    hide FoldEvent;
    var events := StartedAndCancelled(runId, kind, t);
    assert events[1..] == [events[1]] && [events[1]][1..] == [];
    assert StartsFresh(Empty(runId), events[0]);
    var s := FoldEvent(Empty(runId), events[0], reg);
    assert StartsFresh(s, events[1]);
    assert StartsOnce(FoldEvent(s, events[1], reg), [], reg);
    assert StartsOnce(s, [events[1]], reg);
  }

  /** The fork of that log is planned from all of it, and its root has ended. */
  lemma ForkOfLateResumeStaysEnded(sourceRunId: string, runId: string, kind: string, t: string)
    requires sourceRunId != "" && kind != "" && t != ""
    ensures var events, reg := StartedAndCancelled(sourceRunId, kind, t), map[kind := QuietKind()];
      && PlanFork(sourceRunId, runId, events, reg, {}).Planned? && OneRun(events, sourceRunId) && AllIgnoreRun(reg)
      && OneStart(events) && StartsOnce(Empty(sourceRunId), events, reg) && RecordedStart(events, reg) == Some(2)
      && RootTerminal(FoldRun(PlanFork(sourceRunId, runId, events, reg, {}).plan.events, reg, runId))
  {
    var events, reg := StartedAndCancelled(sourceRunId, kind, t), map[kind := QuietKind()];
    assert AllIgnoreRun(reg);
    hide FoldEvent, RootTerminal, QuietKind, StartsOnce, PlanFork, CutOf, RecordedStart;
    ScanOfLateResume(sourceRunId, kind, t);
    LateResumeStartsOnce(sourceRunId, kind, t, reg);
    PlannedWhenRooted(sourceRunId, runId, events, reg, t);
    ResumesTooLate(events, reg);
    ForkIsLiveIff(sourceRunId, runId, events, reg, {});
  }

  lemma ResumesTooLate(events: seq<Event>, reg: Registry)
    requires FullHistory(events) && RecordedStart(events, reg) == Some(|events|)
    ensures !CopiesLess(events, reg)
  {
    hide FoldEvent, Scan;
  }
}

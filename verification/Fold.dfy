/** The run fold: one event at a time from a log to the state of a run. */
module Fold {
  import opened Common
  import opened Events

  const DEFAULT_DEFINITION_VERSION := "v1"

  datatype ThreadStatus = Running | Waiting | Completed | Failed | Cancelled

  predicate IsTerminal(s: ThreadStatus) {
    s.Completed? || s.Failed? || s.Cancelled?
  }

  datatype RunStatus = RunRunning | RunDone | RunFailed | RunStopped

  /** An error as reported, or the message the fold supplies when none was. */
  datatype Fault =
    | Reported(text: string) | UnsupportedKind(kind: string)
    | ThreadFault | EffectFault | DispatchDeferral

  function FaultOf(payload: Json, default: Fault): Fault {
    match ReadString(payload, KError)
    case Some(text) => Reported(text)
    case None => default
  }

  function OptFault(text: Option<string>): Option<Fault> {
    if text.Some? then Some(Reported(text.value)) else None
  }

  datatype ThreadRecord = ThreadRecord(
    threadId: string, kind: string, definitionName: string, definitionVersion: string,
    parentThreadId: Option<string>, status: ThreadStatus, input: Json,
    output: Json, error: Option<Fault>, state: Json)

  datatype WaitRecord = WaitRecord(waitId: string, threadId: string, on: WaitCondition, tag: Option<Json>)

  datatype OutstandingEffect = OutstandingEffect(
    effectId: EffectId, threadId: string, causingSeq: int, causingEventId: string, effect: RuntimeEffect)

  datatype ExecStatus =
    | ExecQueued | DispatchWait | ExecDispatched | ExecStarted | ExecHeartbeat | RetryWait
    | CancelRequested | TimedOut | Ambiguous | ExecRunning

  datatype Execution = Execution(
    attempt: int, status: ExecStatus, nextAttemptAt: Option<int>, deadlineAt: Option<int>,
    startedAt: Option<int>, lastHeartbeatAt: Option<int>, heartbeatDetails: Json,
    lastError: Option<Fault>, dispatchTry: int)

  datatype StartIdentity = StartIdentity(
    kind: string, definitionName: string, definitionVersion: string, input: Json,
    requestedThreadId: Option<string>, idempotencyKey: Option<string>, rootThreadId: string,
    launchedBy: Json, correlationId: Option<string>, attributes: Json, trace: Json)

  datatype ForkSource = ForkSource(runId: string, seqNo: int)

  datatype LaunchedRun = LaunchedRun(runId: string, close: ChildClose)

  datatype RunHead = RunHead(
    runId: string, status: RunStatus, rootThreadId: Option<string>,
    startIdentity: Option<StartIdentity>, forkedFrom: Option<ForkSource>, attributes: Json,
    processedKeys: seq<string>)

  datatype Children = Children(launchedRuns: seq<LaunchedRun>, closeWaiting: bool, childCloseSent: bool)

  /** `started` lists thread ids in the order they first appeared: the key order of `threads`. */
  datatype RunState = RunState(
    head: RunHead,
    threads: map<string, ThreadRecord>, started: seq<string>, waits: map<string, WaitRecord>,
    outstanding: seq<OutstandingEffect>, completed: seq<EffectId>, executions: map<EffectId, Execution>,
    children: Children)

  function Empty(runId: string): RunState {
    RunState(RunHead(runId, RunRunning, None, None, None, Obj(map[]), []),
             map[], [], map[], [], [], map[], Children([], false, false))
  }

  // ---------------------------------------------------------------- small state changes

  /** The items whose effect id is not `id`, in order. */
  function WithoutEffect(items: seq<OutstandingEffect>, id: EffectId): seq<OutstandingEffect> {
    Filter(items, (item: OutstandingEffect) => item.effectId != id)
  }

  /** The items that belong to `threadId`, in order. */
  function OfThread(items: seq<OutstandingEffect>, threadId: string): seq<OutstandingEffect> {
    Filter(items, (item: OutstandingEffect) => item.threadId == threadId)
  }

  /** The items of every other thread, in order. */
  function OffThread(items: seq<OutstandingEffect>, threadId: string): seq<OutstandingEffect> {
    Filter(items, (item: OutstandingEffect) => item.threadId != threadId)
  }

  function CompleteEffect(s: RunState, id: EffectId): RunState {
    s.(outstanding := WithoutEffect(s.outstanding, id),
       executions := s.executions - {id},
       completed := if id in s.completed then s.completed else s.completed + [id])
  }

  function PutThread(s: RunState, r: ThreadRecord): RunState {
    s.(threads := s.threads[r.threadId := r],
       started := if r.threadId in s.threads then s.started else s.started + [r.threadId])
  }

  /** Every wait that is not the thread's own. */
  function OtherWaits(waits: map<string, WaitRecord>, threadId: string): map<string, WaitRecord> {
    map w | w in waits && waits[w].threadId != threadId :: waits[w]
  }

  function DropThreadWork(s: RunState, threadId: string): RunState {
    s.(waits := OtherWaits(s.waits, threadId), outstanding := OffThread(s.outstanding, threadId))
  }

  predicate OwnsWait(waits: map<string, WaitRecord>, threadId: string) {
    exists w :: w in waits && waits[w].threadId == threadId
  }

  /** The race a wait belongs to: a string `raceId` in an object tag. */
  function RaceOf(w: WaitRecord): Option<string> {
    if w.tag.Some? then ReadString(w.tag.value, KRaceId) else None
  }

  function DecodeWait(on: Json): Option<WaitCondition> {
    match (Field(on, KType), Field(on, KTimerAt))
    case (Some(Str(t)), _) => Some(OnEvent(Str(t), Field(on, KMatch)))
    case (Some(Arr(ts)), timer) =>
      if forall i :: 0 <= i < |ts| ==> ts[i].Str? then Some(OnEvent(Arr(ts), Field(on, KMatch)))
      else if timer.Some? && timer.value.Num? then Some(OnTimer(timer.value.n)) else None
    case (_, Some(Num(n))) => Some(OnTimer(n))
    case _ => None
  }

  // ---------------------------------------------------------------- the protocol

  /** `payload.threadId ?? event.threadId` */
  function TargetThread(e: Event): Option<string> {
    OrElse(ReadString(e.payload, KThreadId), e.threadId)
  }

  function StartRun(s: RunState, e: Event): (r: RunState)
    ensures r == s.(head := r.head)
  {
    var root := ReadString(e.payload, KRootThreadId);
    var kind := ReadString(e.payload, KKind);
    var name := ReadString(e.payload, KDefinitionName);
    var version := ReadString(e.payload, KDefinitionVersion).GetOr(DEFAULT_DEFINITION_VERSION);
    var identity :=
      if NonEmpty(root) && NonEmpty(kind) && NonEmpty(name) && version != "" then
        Some(StartIdentity(kind.value, name.value, version, FieldOrNull(e.payload, KInput),
                           ReadString(e.payload, KRequestedThreadId), e.idempotencyKey, root.value,
                           FieldOrNull(e.payload, KLaunchedBy), e.correlationId,
                           FieldOrNull(e.payload, KAttributes), FieldOrNull(e.payload, KTrace)))
      else None;
    s.(head := s.head.(runId := e.runId, rootThreadId := root, startIdentity := identity,
                       attributes := if identity.Some? then identity.value.attributes else Obj(map[]),
                       status := RunRunning))
  }

  function CompletedRunStatus(payload: Json): RunStatus {
    if NonEmpty(ReadString(payload, KError)) then RunFailed else RunDone
  }

  function ParentOf(payload: Json): Option<string> {
    ReadString(payload, KParentThreadId)
  }

  function StartThread(s: RunState, e: Event, reg: Registry): (r: RunState)
    ensures r == s.(head := r.head, threads := r.threads, started := r.started)
  {
    var threadId := TargetThread(e);
    var kind := ReadString(e.payload, KKind);
    var name := ReadString(e.payload, KDefinitionName);
    var version := ReadString(e.payload, KDefinitionVersion).GetOr(DEFAULT_DEFINITION_VERSION);
    if !NonEmpty(threadId) || !NonEmpty(kind) || !NonEmpty(name) then s else
    var parent := ParentOf(e.payload);
    var input := FieldOrNull(e.payload, KInput);
    var known := kind.value in reg;
    var state :=
      if known then
        reg[kind.value].initialState(
          StartContext(e.runId, threadId.value, parent, name.value, version, input))
      else Obj(map[]);
    var r := ThreadRecord(
      threadId.value, kind.value, name.value, version, parent,
      if known then Running else Failed, input, Null,
      if known then None else Some(UnsupportedKind(kind.value)), state);
    var next := PutThread(s, r);
    if NonEmpty(next.head.rootThreadId) then next else next.(head := next.head.(rootThreadId := threadId))
  }

  function CompleteThread(s: RunState, e: Event): (r: RunState)
    ensures r == s.(threads := r.threads, started := r.started)
  {
    var t := TargetThread(e);
    if !NonEmpty(t) || t.value !in s.threads then s else
    PutThread(s, s.threads[t.value].(status := Completed, output := FieldOrNull(e.payload, KOutput), error := None))
  }

  function FailThread(s: RunState, e: Event): RunState {
    var t := TargetThread(e);
    if !NonEmpty(t) || t.value !in s.threads then s else
    DropThreadWork(
      PutThread(s, s.threads[t.value].(status := Failed,
                                       error := Some(FaultOf(e.payload, ThreadFault)))),
      t.value)
  }

  function CancelThread(s: RunState, e: Event): RunState {
    var t := TargetThread(e);
    if !NonEmpty(t) || t.value !in s.threads || IsTerminal(s.threads[t.value].status) then s else
    var r := s.threads[t.value];
    DropThreadWork(
      PutThread(s, r.(status := Cancelled, error := OrElse(OptFault(ReadString(e.payload, KReason)), r.error))),
      t.value)
  }

  function HeartbeatDetails(s: RunState, id: EffectId): Json {
    if id in s.executions then s.executions[id].heartbeatDetails else Null
  }

  function ExecStatusOf(t: EventType): ExecStatus {
    match t
    case EffectQueued => ExecQueued
    case EffectDispatched => ExecDispatched
    case WorkerStarted => ExecStarted
    case EffectHeartbeat => ExecHeartbeat
    case EffectCancelRequested => CancelRequested
    case EffectTimedOut => TimedOut
    case _ => Ambiguous
  }

  /** The record of this very attempt. */
  function SameAttempt(s: RunState, id: EffectId, attempt: int): Option<Execution> {
    if id in s.executions && s.executions[id].attempt == attempt then Some(s.executions[id]) else None
  }

  /** The execution events that only update the attempt's record. */
  function RecordExecution(s: RunState, e: Event): (r: RunState)
    ensures r == s.(executions := r.executions)
  {
    var attempt := ReadNumber(e.payload, KAttempt);
    if e.subject.None? || attempt.None? then s else
    var id := e.subject.value;
    var same := SameAttempt(s, id, attempt.value);
    match e.etype
    case AttemptStarted =>
      s.(executions := s.executions[id := Execution(
        attempt.value, ExecRunning, None, None, Some(e.ts), None, HeartbeatDetails(s, id), None, 0)])
    case DispatchDeferred =>
      var retryAt := ReadNumber(e.payload, KRetryAt);
      var tries := ReadNumber(e.payload, KTry);
      if retryAt.None? || tries.None? then s else
      s.(executions := s.executions[id := Execution(
        attempt.value, DispatchWait, retryAt, retryAt, None, None, HeartbeatDetails(s, id),
        Some(FaultOf(e.payload, DispatchDeferral)), tries.value)])
    case RetryScheduled =>
      var next := ReadNumber(e.payload, KNextAttemptAt);
      if next.None? then s else
      s.(executions := s.executions[id := Execution(
        attempt.value, RetryWait, next, next, None, None, HeartbeatDetails(s, id),
        Some(FaultOf(e.payload, EffectFault)), 0)])
    case _ =>
      var details :=
        if e.etype.EffectHeartbeat? && Field(e.payload, KDetails).Some? then FieldOrNull(e.payload, KDetails)
        else HeartbeatDetails(s, id);
      var startedAt :=
        if e.etype.WorkerStarted? then Some(e.ts)
        else if same.Some? then same.value.startedAt else None;
      var heartbeatAt := ReadNumber(e.payload, KHeartbeatAt);
      s.(executions := s.executions[id := Execution(
        attempt.value, ExecStatusOf(e.etype), None, ReadNumber(e.payload, KDeadlineAt), startedAt,
        if heartbeatAt.Some? then heartbeatAt else if same.Some? then same.value.lastHeartbeatAt else None,
        details, OptFault(ReadString(e.payload, KError)), if same.Some? then same.value.dispatchTry else 0)])
  }

  function RegisterWait(s: RunState, e: Event): (r: RunState)
    ensures r == s.(waits := r.waits, threads := r.threads, started := r.started)
  {
    var waitId := ReadString(e.payload, KWaitId);
    var t := TargetThread(e);
    var on := FieldOrNull(e.payload, KOn);
    if !NonEmpty(waitId) || !NonEmpty(t) || DecodeWait(on).None? then s else
    var next := s.(waits := s.waits[waitId.value :=
      WaitRecord(waitId.value, t.value, DecodeWait(on).value, Field(e.payload, KTag))]);
    if t.value in next.threads && !IsTerminal(next.threads[t.value].status)
    then PutThread(next, next.threads[t.value].(status := Waiting))
    else next
  }

  /** The waits that remain once `waitId` and every sibling in its race are gone. */
  function RemainingWaits(waits: map<string, WaitRecord>, waitId: string): map<string, WaitRecord> {
    var race := if waitId in waits then RaceOf(waits[waitId]) else None;
    map w | w in waits && w != waitId && !(NonEmpty(race) && RaceOf(waits[w]) == race) :: waits[w]
  }

  function SatisfyWait(s: RunState, e: Event): (r: RunState)
    ensures r == s.(waits := r.waits, threads := r.threads, started := r.started)
  {
    var waitId := ReadString(e.payload, KWaitId);
    if !NonEmpty(waitId) then s else
    var next := s.(waits := RemainingWaits(s.waits, waitId.value));
    var t := if waitId.value in s.waits then Some(s.waits[waitId.value].threadId) else e.threadId;
    if NonEmpty(t) && t.value in next.threads && next.threads[t.value].status.Waiting? && !OwnsWait(next.waits, t.value)
    then PutThread(next, next.threads[t.value].(status := Running))
    else next
  }

  function WithoutRun(runs: seq<LaunchedRun>, runId: string): seq<LaunchedRun> {
    Filter(runs, (run: LaunchedRun) => run.runId != runId)
  }

  function LaunchChild(s: RunState, e: Event): (r: RunState)
    ensures r == s.(children := r.children)
  {
    var child := ReadString(e.payload, KRunId);
    var close := ReadString(e.payload, KClose);
    if !NonEmpty(child) || (exists i :: 0 <= i < |s.children.launchedRuns| && s.children.launchedRuns[i].runId == child.value) then s
    else if close == Some("terminate") then s.(children := s.children.(launchedRuns := s.children.launchedRuns + [LaunchedRun(child.value, Terminate)]))
    else if close == Some("wait") then s.(children := s.children.(launchedRuns := s.children.launchedRuns + [LaunchedRun(child.value, AwaitClose)]))
    else s
  }

  /** The events that only record how an effect's current attempt is going. */
  predicate IsExecutionEvent(t: EventType) {
    t.AttemptStarted? || t.EffectQueued? || t.EffectDispatched? || t.WorkerStarted? || t.EffectHeartbeat? ||
    t.EffectCancelRequested? || t.EffectTimedOut? || t.EffectAmbiguous? || t.DispatchDeferred? || t.RetryScheduled?
  }

  function ForkRun(s: RunState, e: Event): (r: RunState)
    ensures r == s.(head := r.head, executions := r.executions)
  {
    var source := ReadString(e.payload, KSourceRunId);
    var seqNo := ReadNumber(e.payload, KSourceSeq);
    if NonEmpty(source) && seqNo.Some?
    then s.(head := s.head.(forkedFrom := Some(ForkSource(source.value, seqNo.value))), executions := map[]) else s
  }

  function SettleChild(s: RunState, e: Event): RunState {
    var child := ReadString(e.payload, KRunId);
    if NonEmpty(child) then s.(children := s.children.(launchedRuns := WithoutRun(s.children.launchedRuns, child.value)))
    else s
  }

  function RequestChildClose(s: RunState, e: Event): RunState {
    s.(children := s.children.(
      childCloseSent := true,
      closeWaiting := ReadString(e.payload, KPolicy) == Some("wait") || s.children.closeWaiting))
  }

  /** The events about the run as a whole, its child runs, and effect attempts. */
  function ApplyRunEvent(s: RunState, e: Event): (r: RunState)
    ensures r == s.(head := r.head, executions := r.executions, children := r.children)
  {
    match e.etype
    case RunStarted => StartRun(s, e)
    case RunCompleted => s.(head := s.head.(status := CompletedRunStatus(e.payload)))
    case RunCancelled => s.(head := s.head.(status := RunStopped))
    case RunForked => ForkRun(s, e)
    case RunLaunched => LaunchChild(s, e)
    case ChildSettled => SettleChild(s, e)
    case ChildCloseRequested => RequestChildClose(s, e)
    case _ => if IsExecutionEvent(e.etype) then RecordExecution(s, e) else s
  }

  function ApplyProtocol(s: RunState, e: Event, reg: Registry): RunState {
    match e.etype
    case ThreadStarted => StartThread(s, e, reg)
    case ThreadCompleted => CompleteThread(s, e)
    case ThreadFailed => FailThread(s, e)
    case ThreadCancelled => CancelThread(s, e)
    case EffectCancelled => if e.subject.Some? then CompleteEffect(s, e.subject.value) else s
    case WaitRegistered => RegisterWait(s, e)
    case WaitSatisfied => SatisfyWait(s, e)
    case _ => ApplyRunEvent(s, e)
  }

  // ---------------------------------------------------------------- effect reconciliation

  /** Where `remaining` first holds an item that `effect` continues. */
  function FindMatch(remaining: seq<OutstandingEffect>, sid: Option<EffectId>, etype: EffectType): (m: Option<nat>)
    ensures m.Some? ==> m.value < |remaining|
  {
    if remaining == [] then None
    else if (if sid.None? then TypeOf(remaining[0].effect) == etype else remaining[0].effectId == sid.value) then Some(0)
    else match FindMatch(remaining[1..], sid, etype)
      case Some(i) => Some(i + 1)
      case None => None
  }

  function RemoveAt<T>(xs: seq<T>, i: nat): seq<T>
    requires i < |xs|
  {
    xs[..i] + xs[i + 1..]
  }

  /** The item an effect that continues nothing gets. */
  function Fresh(threadId: string, e: Event, effects: seq<RuntimeEffect>, index: nat): OutstandingEffect
    requires index < |effects|
  {
    var sid := StableId(threadId, effects[index]);
    OutstandingEffect(if sid.Some? then sid.value else Positional(threadId, e.seqNo, index),
                      threadId, e.seqNo, e.id, effects[index])
  }

  /** The effect just settled without an outcome is not asked for again by the same event. */
  predicate AlreadySettled(threadId: string, effect: RuntimeEffect, settled: Option<OutstandingEffect>) {
    StableId(threadId, effect).None? && settled.Some? &&
    settled.value.threadId == threadId && settled.value.effect == effect
  }

  /** Items for `effects[index..]`: each continues an item of `remaining`, which it uses up, or is new. */
  function Match(threadId: string, e: Event, effects: seq<RuntimeEffect>, index: nat,
                 remaining: seq<OutstandingEffect>, settled: Option<OutstandingEffect>): seq<OutstandingEffect>
    requires index <= |effects|
    decreases |effects| - index
  {
    if index == |effects| then [] else
    var m := FindMatch(remaining, StableId(threadId, effects[index]), TypeOf(effects[index]));
    if m.Some? then
      [remaining[m.value]] + Match(threadId, e, effects, index + 1, RemoveAt(remaining, m.value), settled)
    else if AlreadySettled(threadId, effects[index], settled) then
      Match(threadId, e, effects, index + 1, remaining, settled)
    else
      [Fresh(threadId, e, effects, index)] + Match(threadId, e, effects, index + 1, remaining, settled)
  }

  function NotCompleted(items: seq<OutstandingEffect>, completed: seq<EffectId>): seq<OutstandingEffect> {
    Filter(items, (item: OutstandingEffect) => item.effectId !in completed)
  }

  function MapEffects(threadId: string, e: Event, effects: seq<RuntimeEffect>, completed: seq<EffectId>,
                      existing: seq<OutstandingEffect>, settled: Option<OutstandingEffect>): seq<OutstandingEffect>
  {
    NotCompleted(Match(threadId, e, effects, 0, existing, settled), completed)
  }

  function Reconcile(s: RunState, threadId: string, e: Event, effects: seq<RuntimeEffect>,
                     settled: Option<OutstandingEffect>): RunState
  {
    if threadId in s.threads && IsTerminal(s.threads[threadId].status)
    then s.(outstanding := OffThread(s.outstanding, threadId))
    else s.(outstanding :=
      OffThread(s.outstanding, threadId) +
      MapEffects(threadId, e, effects, s.completed, OfThread(s.outstanding, threadId), settled))
  }

  predicate Enables(threadId: string, effects: seq<RuntimeEffect>, id: EffectId) {
    exists i :: 0 <= i < |effects| && StableId(threadId, effects[i]) == Some(id)
  }

  /** The completed ids that survive: other threads', and those the thread still asks for. */
  function StillNamed(completed: seq<EffectId>, threadId: string, effects: seq<RuntimeEffect>): seq<EffectId> {
    Filter(completed, (id: EffectId) => id.thread != threadId || Enables(threadId, effects, id))
  }

  // ---------------------------------------------------------------- delivery

  /** The thread an event is delivered to: its own, or the root for an external event. */
  function DeliveryTarget(s: RunState, e: Event): Option<string> {
    if e.threadId.Some? then e.threadId
    else if e.origin.External? then s.head.rootThreadId else None
  }

  /** Whether `Deliver` runs the thread's definition. */
  predicate Delivers(s: RunState, e: Event, reg: Registry) {
    var t := DeliveryTarget(s, e);
    NonEmpty(t) && t.value in s.threads && !IsTerminal(s.threads[t.value].status) && s.threads[t.value].kind in reg
  }

  /** Record a delivered thread's next state and reconcile its effects with those it now enables. */
  function CommitStep(s: RunState, e: Event, t: string, nextState: Json, enabled: seq<RuntimeEffect>, forgets: bool,
                      settled: Option<OutstandingEffect>): RunState
    requires t in s.threads
  {
    var next := Reconcile(PutThread(s, s.threads[t].(state := nextState)), t, e, enabled, settled);
    if forgets then next.(completed := StillNamed(next.completed, t, enabled)) else next
  }

  function ContextOf(s: RunState, t: string): ThreadContext
    requires t in s.threads
  {
    ThreadContext(s.head.runId, t, s.threads[t].parentThreadId)
  }

  function StepOf(s: RunState, e: Event, reg: Registry): Json
    requires Delivers(s, e, reg)
  {
    var t := DeliveryTarget(s, e).value;
    reg[s.threads[t].kind].step(s.threads[t].state, e, ContextOf(s, t))
  }

  function EnabledBy(s: RunState, e: Event, reg: Registry): seq<RuntimeEffect>
    requires Delivers(s, e, reg)
  {
    var t := DeliveryTarget(s, e).value;
    reg[s.threads[t].kind].effects(StepOf(s, e, reg), ContextOf(s, t))
  }

  function Deliver(s: RunState, e: Event, reg: Registry, settled: Option<OutstandingEffect>): RunState {
    if !Delivers(s, e, reg) then s else
    var t := DeliveryTarget(s, e).value;
    CommitStep(s, e, t, StepOf(s, e, reg), EnabledBy(s, e, reg), reg[s.threads[t].kind].forgetsCompletedEffects, settled)
  }

  predicate HasId(items: seq<OutstandingEffect>, id: EffectId) {
    exists i :: 0 <= i < |items| && items[i].effectId == id
  }

  /** The first outstanding item with this id. */
  function ItemOf(items: seq<OutstandingEffect>, id: EffectId): Option<OutstandingEffect> {
    if items == [] then None else if items[0].effectId == id then Some(items[0]) else ItemOf(items[1..], id)
  }

  function SettledWithoutOutcome(s: RunState, e: Event): Option<OutstandingEffect> {
    if !e.etype.EffectCompleted? || e.effectId.None? then None else
    match ItemOf(s.outstanding, e.effectId.value)
    case Some(item) => if StableId(item.threadId, item.effect).None? then Some(item) else None
    case None => None
  }

  /** A failed effect whose delivery enabled nothing new fails its thread. */
  function FailUnhandled(s: RunState, e: Event, before: seq<OutstandingEffect>): RunState {
    var error := FaultOf(e.payload, EffectFault);
    if !e.etype.EffectFailed? || (error.Reported? && IsWithdrawn(error.text)) ||
       (exists i :: 0 <= i < |s.outstanding| && !HasId(before, s.outstanding[i].effectId)) ||
       !NonEmpty(e.threadId) || e.threadId.value !in s.threads ||
       IsTerminal(s.threads[e.threadId.value].status)
    then s
    else DropThreadWork(
      PutThread(s, s.threads[e.threadId.value].(status := Failed, error := Some(error))), e.threadId.value)
  }

  /** What an event does before its protocol meaning: run id, completed effect, idempotency key. */
  function Admit(s: RunState, e: Event): RunState {
    var head := s.head.(
      runId := if e.runId != "" then e.runId else s.head.runId,
      processedKeys :=
        if NonEmpty(e.idempotencyKey) && e.idempotencyKey.value !in s.head.processedKeys
        then s.head.processedKeys + [e.idempotencyKey.value] else s.head.processedKeys);
    if e.effectId.Some? then CompleteEffect(s.(head := head), e.effectId.value) else s.(head := head)
  }

  /** Everything up to delivery. */
  function Prepare(s: RunState, e: Event, reg: Registry): RunState {
    ApplyProtocol(Admit(s, e), e, reg)
  }

  function FoldEvent(s: RunState, e: Event, reg: Registry): RunState {
    if e.ephemeral then s else
    var prepared := Prepare(s, e, reg);
    FailUnhandled(Deliver(prepared, e, reg, SettledWithoutOutcome(s, e)), e, prepared.outstanding)
  }

  function FoldFrom(s: RunState, events: seq<Event>, reg: Registry): RunState
    decreases |events|
  {
    if events == [] then s else FoldFrom(FoldEvent(s, events[0], reg), events[1..], reg)
  }

  function FoldRun(events: seq<Event>, reg: Registry, runId: string): RunState {
    FoldFrom(Empty(runId), events, reg)
  }

  lemma {:induction false} FoldFromAppend(s: RunState, a: seq<Event>, b: seq<Event>, reg: Registry)
    ensures FoldFrom(s, a + b, reg) == FoldFrom(FoldFrom(s, a, reg), b, reg)
    decreases |a|
  {
    if a == [] {
      assert a + b == b;
    } else {
      assert (a + b)[1..] == a[1..] + b;
      FoldFromAppend(FoldEvent(s, a[0], reg), a[1..], b, reg);
    }
  }

  lemma FoldOne(s: RunState, a: Event, reg: Registry)
    ensures FoldFrom(s, [a], reg) == FoldEvent(s, a, reg)
  {
  }

  lemma FoldTwo(s: RunState, a: Event, b: Event, reg: Registry)
    ensures FoldFrom(s, [a, b], reg) == FoldEvent(FoldEvent(s, a, reg), b, reg)
  {
    assert [a, b][1..] == [b];
    FoldOne(FoldEvent(s, a, reg), b, reg);
  }
}

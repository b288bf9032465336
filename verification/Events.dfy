/** Event envelopes, thread definitions, and the effects they request. */
module Events {
  import opened Common

  /** Protocol event types, and every other type by name. */
  datatype EventType =
    | RunStarted | RunCompleted | RunCancelled | RunForked
    | ThreadStarted | ThreadCompleted | ThreadFailed | ThreadCancelled
    | AttemptStarted | EffectQueued | EffectDispatched | WorkerStarted | EffectHeartbeat
    | EffectCancelRequested | EffectTimedOut | EffectAmbiguous | DispatchDeferred
    | EffectCancelled | RetryScheduled
    | WaitRegistered | WaitSatisfied
    | RunLaunched | ChildSettled | ChildCloseRequested
    | SnapshotTaken | ThreadCancelRequested | TimerSet | TimerFired
    | EffectFailed | EffectCompleted | SignalReceived
    | ForkElided(original: EventType)
    | Domain(name: string)

  datatype Origin = FromThread(threadId: string) | External | System | FromRun(runId: string)

  /** `thread:name` for an effect that names itself, `thread:seq:index` for one that does not. */
  datatype EffectId =
    | Stable(thread: string, name: string)
    | Positional(thread: string, seqNo: int, index: nat)

  /** `subject` is the effect id that the payload carries, when it carries one. */
  datatype Event = Event(
    id: string,
    runId: string,
    seqNo: int,
    ts: int,
    etype: EventType,
    payload: Json,
    subject: Option<EffectId>,
    threadId: Option<string>,
    causationId: Option<string>,
    correlationId: Option<string>,
    effectId: Option<EffectId>,
    origin: Origin,
    ephemeral: bool,
    idempotencyKey: Option<string>)

  datatype WaitCondition = OnEvent(types: Json, pattern: Option<Json>) | OnTimer(timerAt: int)

  datatype ChildClose = Terminate | AwaitClose

  datatype RuntimeEffect =
    | Spawn(childThreadId: string, kind: string, definitionName: string, definitionVersion: string, input: Json)
    | Wait(waitId: string, on: WaitCondition, waitTag: Option<Json>)
    | Emit(event: Json, tag: Option<string>)
    | Complete(output: Json)
    | Fail(error: string)
    | Cancel(target: string, tag: Option<string>)
    | Launch(runId: string, launch: Json, close: ChildClose, tag: Option<string>)
    | CancelRun(runId: string, tag: Option<string>)
    | Invoke(name: string, input: Json, tag: Option<string>, at: Option<int>)

  datatype EffectType =
    | TSpawn | TWait | TEmit | TComplete | TFail | TCancel | TLaunch | TCancelRun
    | TInvoke(name: string)

  function TypeOf(e: RuntimeEffect): EffectType {
    match e
    case Spawn(_, _, _, _, _) => TSpawn
    case Wait(_, _, _) => TWait
    case Emit(_, _) => TEmit
    case Complete(_) => TComplete
    case Fail(_) => TFail
    case Cancel(_, _) => TCancel
    case Launch(_, _, _, _) => TLaunch
    case CancelRun(_, _) => TCancelRun
    case Invoke(name, _, _, _) => TInvoke(name)
  }

  /** The string tag an effect carries. A wait's tag is any JSON value; only a string counts. */
  function TagOf(e: RuntimeEffect): Option<string> {
    match e
    case Wait(_, _, Some(Str(t))) => Some(t)
    case Emit(_, t) => t
    case Cancel(_, t) => t
    case Launch(_, _, _, t) => t
    case CancelRun(_, t) => t
    case Invoke(_, _, t, _) => t
    case _ => None
  }

  /** The name an effect keeps across folds: its tag, its wait id, or the thread or run it targets. */
  function StableName(e: RuntimeEffect): Option<string> {
    if TagOf(e).Some? then TagOf(e) else
    match e
    case Wait(waitId, _, _) => Some(waitId)
    case Spawn(child, _, _, _, _) => Some("spawn_" + child)
    case Cancel(target, _) => Some("cancel_" + target)
    case Launch(runId, _, _, _) => Some("launch_" + runId)
    case CancelRun(runId, _) => Some("cancel_" + runId)
    case _ => None
  }

  function StableId(threadId: string, e: RuntimeEffect): Option<EffectId> {
    match StableName(e)
    case Some(name) => Some(Stable(threadId, name))
    case None => None
  }

  datatype StartContext = StartContext(
    runId: string, threadId: string, parentThreadId: Option<string>,
    definitionName: string, definitionVersion: string, input: Json)

  datatype ThreadContext = ThreadContext(runId: string, threadId: string, parentThreadId: Option<string>)

  /** User code for one thread kind: any total functions. */
  datatype ThreadDefinition = ThreadDefinition(
    initialState: StartContext -> Json,
    step: (Json, Event, ThreadContext) -> Json,
    effects: (Json, ThreadContext) -> seq<RuntimeEffect>,
    forgetsCompletedEffects: bool)

  type Registry = map<string, ThreadDefinition>

  ghost predicate Increasing(events: seq<Event>) {
    forall i, j :: 0 <= i < j < |events| ==> events[i].seqNo < events[j].seqNo
  }

  predicate IsWithdrawn(error: string) {
    "withdrawn:" <= error
  }
}

/**
 * One key of the coalescing append buffer, as its pushers, drains and forked flush workers interleave.
 * Every stretch of code between two suspension points is one step. Keys share nothing.
 */
module Coalesce {
  import opened Common

  /** What is pushed. Nothing here looks into it. */
  type Item = Json

  /** `next` is the deferred that the next completed flush resolves. */
  datatype KeyState = KeyState(buffer: seq<Item>, flushing: bool, scheduled: bool, poison: bool, next: nat)

  /** What a worker does after resolving a deferred: loop, stop after a failure, or try to evict. */
  datatype After = Again | Stop | Evict

  /** Where a `runFlush` worker is. `key` is the state object it holds. */
  datatype Stage =
    | Taking
    | Flushing(key: nat, batch: seq<Item>)
    | Judging(key: nat, ok: bool)
    | Poisoning(key: nat)
    | Completing(key: nat, after: After)
    | Resolving(deferred: nat, after: After)
    | Evicting

  /**
   * State objects by allocation number, the one in the map, the workers and the deferreds. `awaited`,
   * `accepted`, `flushed` and `inFlight` are history: deferreds somebody awaits, events taken into a
   * buffer, events of successful flushes in order, and the batch taken but not yet flushed.
   */
  datatype Appender = Appender(
    states: map<nat, KeyState>, current: Option<nat>, workers: map<nat, Stage>, deferreds: nat,
    resolved: set<nat>, awaited: set<nat>, accepted: seq<Item>, flushed: seq<Item>, inFlight: seq<Item>)

  /** `key` and `worker` name the state object and the worker a push may create; `ok` is a flush's outcome. */
  datatype Action = Push(event: Item, key: nat, worker: nat) | Drain | Work(worker: nat, ok: bool)

  predicate Known(a: Appender) {
    a.current.Some? ==> a.current.value in a.states
  }

  function Put(a: Appender, key: nat, s: KeyState): Appender {
    a.(states := a.states[key := s])
  }

  /** `enqueue` on the state in the map, and the forked worker when one is due. */
  function Enqueue(a: Appender, event: Item, key: nat, worker: nat, maxPending: nat): Appender
    requires key in a.states && !a.states[key].poison
  {
    var s := a.states[key];
    var shouldSchedule := !s.flushing && !s.scheduled;
    var s' := s.(buffer := s.buffer + [event], scheduled := s.scheduled || shouldSchedule);
    Put(a, key, s').(
      workers := if shouldSchedule then a.workers[worker := Taking] else a.workers,
      awaited := if |s'.buffer| > maxPending then a.awaited + {s.next} else a.awaited,
      accepted := a.accepted + [event])
  }

  /** A push to a poisoned key fails and changes nothing. */
  function PushStep(a: Appender, event: Item, key: nat, worker: nat, maxPending: nat): Option<Appender>
    requires Known(a)
  {
    if worker in a.workers then None
    else if a.current.Some? then
      if a.states[a.current.value].poison then Some(a)
      else Some(Enqueue(a, event, a.current.value, worker, maxPending))
    else if key in a.states then None
    else Some(Enqueue(Created(a, key), event, key, worker, maxPending))
  }

  /** A new state object for the key, with its own deferred. */
  function Created(a: Appender, key: nat): Appender {
    Put(a, key, KeyState([], false, false, false, a.deferreds)).(current := Some(key), deferreds := a.deferreds + 1)
  }

  predicate Idle(s: KeyState) {
    s.buffer == [] && !s.flushing && !s.scheduled
  }

  /** When `drain` returns. */
  predicate Drained(a: Appender)
    requires Known(a)
  {
    a.current.None? || a.states[a.current.value].poison || Idle(a.states[a.current.value])
  }

  function DrainStep(a: Appender): Appender
    requires Known(a)
  {
    if Drained(a) then a else a.(awaited := a.awaited + {a.states[a.current.value].next})
  }

  function At(a: Appender, w: nat, stage: Stage): Appender {
    a.(workers := a.workers[w := stage])
  }

  function Exit(a: Appender, w: nat): Appender {
    a.(workers := a.workers - {w})
  }

  function Take(a: Appender, w: nat): Appender
    requires Known(a)
  {
    if a.current.None? then Exit(a, w) else
    var key := a.current.value;
    var s := a.states[key];
    if s.buffer == [] then At(Put(a, key, s.(flushing := false, scheduled := false)), w, Completing(key, Evict))
    else At(Put(a, key, s.(buffer := [], flushing := true, scheduled := false)), w, Flushing(key, s.buffer)).(inFlight := s.buffer)
  }

  function Evicted(a: Appender): Appender
    requires Known(a)
  {
    if a.current.None? || !Idle(a.states[a.current.value]) || a.states[a.current.value].poison then a else a.(current := None)
  }

  /** The state object a stage still uses has been allocated. */
  predicate Holds(a: Appender, stage: Stage) {
    stage.Flushing? || stage.Judging? || stage.Poisoning? || stage.Completing? ==> stage.key in a.states
  }

  function WorkStep(a: Appender, w: nat, ok: bool): Appender
    requires Known(a) && w in a.workers && Holds(a, a.workers[w])
  {
    match a.workers[w]
    case Taking => Take(a, w)
    case Flushing(key, batch) =>
      if ok then At(a, w, Judging(key, true)).(flushed := a.flushed + batch, inFlight := []) else At(a, w, Judging(key, false))
    case Judging(key, succeeded) =>
      if a.current != Some(key) then Exit(a, w)
      else At(a, w, if succeeded then Completing(key, Again) else Poisoning(key))
    case Poisoning(key) =>
      At(Put(a, key, a.states[key].(poison := true, buffer := [], flushing := false, scheduled := false)), w, Completing(key, Stop))
    case Completing(key, after) =>
      At(Put(a, key, a.states[key].(next := a.deferreds)), w, Resolving(a.states[key].next, after)).(deferreds := a.deferreds + 1)
    case Resolving(deferred, after) =>
      (match after
       case Again => At(a, w, Taking)
       case Stop => Exit(a, w)
       case Evict => At(a, w, Evicting)).(resolved := a.resolved + {deferred})
    case Evicting => Exit(Evicted(a), w)
  }

  predicate WellFormed(a: Appender) {
    Known(a) && forall w :: w in a.workers ==> Holds(a, a.workers[w])
  }

  function Step(a: Appender, action: Action, maxPending: nat): Option<Appender>
    requires WellFormed(a)
  {
    match action
    case Push(event, key, worker) => PushStep(a, event, key, worker, maxPending)
    case Drain => Some(DrainStep(a))
    case Work(w, ok) => if w in a.workers then Some(WorkStep(a, w, ok)) else None
  }

  function Empty(): Appender {
    Appender(map[], None, map[], 0, {}, {}, [], [], [])
  }

  // ---------------------------------------------------------------- what every interleaving keeps

  /** The worker that owns the key's flushes, as opposed to one that has let go and is finishing. */
  predicate Active(stage: Stage) {
    match stage
    case Completing(_, after) => after == Again
    case Resolving(_, after) => after == Again
    case Evicting => false
    case _ => true
  }

  predicate Busy(a: Appender)
    requires Known(a)
  {
    a.current.Some? && (a.states[a.current.value].flushing || a.states[a.current.value].scheduled)
  }

  /** What an active worker's stage says about the key. */
  ghost predicate StageOk(a: Appender, stage: Stage)
    requires Known(a)
  {
    && Busy(a)
    && match stage
       case Flushing(key, batch) => a.current == Some(key) && batch == a.inFlight && a.states[key].flushing
       case Judging(key, ok) => a.current == Some(key) && (ok ==> a.inFlight == []) && a.states[key].flushing
       case Poisoning(key) => a.current == Some(key) && a.states[key].flushing
       case Completing(key, _) => a.current == Some(key) && a.inFlight == [] && a.states[key].flushing
       case _ => a.inFlight == []
  }

  ghost predicate WorkersOk(a: Appender)
    requires Known(a)
  {
    && (forall w :: w in a.workers && Active(a.workers[w]) ==> StageOk(a, a.workers[w]))
    && (forall v, w :: v in a.workers && w in a.workers && Active(a.workers[v]) && Active(a.workers[w]) ==> v == w)
    && (Busy(a) ==> exists w :: w in a.workers && Active(a.workers[w]))
  }

  /** Nothing accepted is lost or reordered while the key is healthy; a poisoned key is at rest. */
  ghost predicate EventsOk(a: Appender)
    requires Known(a)
  {
    match a.current
    case None => a.flushed == a.accepted && a.inFlight == []
    case Some(key) =>
      var s := a.states[key];
      if s.poison then Idle(s) && a.flushed <= a.accepted
      else
        && a.flushed + a.inFlight + s.buffer == a.accepted
        && (!s.flushing && !s.scheduled ==> a.inFlight == [] && s.buffer == [])
  }

  /** Somebody is bound to resolve `d`. */
  predicate Promised(a: Appender, d: nat)
    requires Known(a)
  {
    || (Busy(a) && a.states[a.current.value].next == d)
    || exists w :: w in a.workers && Resolves(a, a.workers[w], d)
  }

  predicate Resolves(a: Appender, stage: Stage, d: nat) {
    || (stage.Resolving? && stage.deferred == d)
    || (stage.Completing? && stage.key in a.states && a.states[stage.key].next == d)
  }

  ghost predicate AwaitedOk(a: Appender)
    requires Known(a)
  {
    forall d :: d in a.awaited ==> d in a.resolved || Promised(a, d)
  }

  ghost predicate Inv(a: Appender) {
    WellFormed(a) && WorkersOk(a) && EventsOk(a) && AwaitedOk(a)
  }

  /** Only worker `w` moved. */
  ghost predicate OnlyMoved(a: Appender, b: Appender, w: nat) {
    forall v :: v != w ==> (v in b.workers <==> v in a.workers) && (v in a.workers ==> b.workers[v] == a.workers[v])
  }

  lemma OwnerMoves(a: Appender, b: Appender, w: nat)
    requires Known(a) && Known(b) && WorkersOk(a) && OnlyMoved(a, b, w)
    requires !Busy(a) || (w in a.workers && Active(a.workers[w]))
    requires w in b.workers && Active(b.workers[w]) ==> StageOk(b, b.workers[w])
    requires Busy(b) ==> w in b.workers && Active(b.workers[w])
    ensures WorkersOk(b)
  {
  }

  /** The key looks the same to its owner. */
  ghost predicate SameKey(a: Appender, b: Appender)
    requires Known(a) && Known(b)
  {
    && b.current == a.current && b.inFlight == a.inFlight
    && (a.current.Some? ==> b.states[a.current.value].(next := 0, buffer := []) == a.states[a.current.value].(next := 0, buffer := []))
  }

  lemma OthersMove(a: Appender, b: Appender, w: nat)
    requires Known(a) && Known(b) && WorkersOk(a) && OnlyMoved(a, b, w)
    requires w in a.workers ==> !Active(a.workers[w])
    requires w in b.workers ==> !Active(b.workers[w])
    requires SameKey(a, b) || (!Busy(a) && !Busy(b))
    ensures WorkersOk(b)
  {
    if SameKey(a, b) {
      assert Busy(b) == Busy(a);
      forall v | v in b.workers && Active(b.workers[v]) ensures StageOk(b, b.workers[v]) {
        assert StageOk(a, a.workers[v]);
      }
      if Busy(a) {
        var v :| v in a.workers && Active(a.workers[v]);
        assert v in b.workers;
      }
    }
  }

  lemma WorkKeepsForm(a: Appender, w: nat, ok: bool)
    requires WellFormed(a) && w in a.workers
    ensures WellFormed(WorkStep(a, w, ok)) && OnlyMoved(a, WorkStep(a, w, ok), w)
  {
  }

  lemma WorkKeepsWorkers(a: Appender, w: nat, ok: bool)
    requires WellFormed(a) && WorkersOk(a) && EventsOk(a) && w in a.workers
    ensures WellFormed(WorkStep(a, w, ok)) && WorkersOk(WorkStep(a, w, ok))
  {
    hide WorkersOk;
    WorkKeepsForm(a, w, ok);
    var b := WorkStep(a, w, ok);
    if Active(a.workers[w]) {
      ActiveStageOk(a, w);
      OwnerStepsOk(a, w, ok);
      OwnerMoves(a, b, w);
    } else {
      TailStepsOk(a, w, ok);
      OthersMove(a, b, w);
    }
  }

  lemma ActiveStageOk(a: Appender, w: nat)
    requires Known(a) && WorkersOk(a) && w in a.workers && Active(a.workers[w])
    ensures StageOk(a, a.workers[w])
  {
  }

  lemma OwnerStepsOk(a: Appender, w: nat, ok: bool)
    requires WellFormed(a) && EventsOk(a) && w in a.workers && Active(a.workers[w]) && StageOk(a, a.workers[w])
    ensures var b := WorkStep(a, w, ok);
            && Known(b) && (w in b.workers && Active(b.workers[w]) ==> StageOk(b, b.workers[w]))
            && (Busy(b) ==> w in b.workers && Active(b.workers[w]))
  {
  }

  lemma TailStepsOk(a: Appender, w: nat, ok: bool)
    requires WellFormed(a) && w in a.workers && !Active(a.workers[w])
    ensures var b := WorkStep(a, w, ok);
            && Known(b) && (w in b.workers ==> !Active(b.workers[w]))
            && (SameKey(a, b) || (!Busy(a) && !Busy(b)))
  {
  }

  lemma WorkKeepsEvents(a: Appender, w: nat, ok: bool)
    requires WellFormed(a) && WorkersOk(a) && EventsOk(a) && w in a.workers
    ensures EventsOk(WorkStep(a, w, ok))
  {
    if Active(a.workers[w]) {
      ActiveStageOk(a, w);
      OwnerKeepsEvents(a, w, ok);
    } else {
      TailKeepsEvents(a, w, ok);
    }
  }

  lemma OwnerKeepsEvents(a: Appender, w: nat, ok: bool)
    requires WellFormed(a) && EventsOk(a) && w in a.workers && Active(a.workers[w]) && StageOk(a, a.workers[w])
    ensures Known(WorkStep(a, w, ok)) && EventsOk(WorkStep(a, w, ok))
  {
    assert Holds(a, a.workers[w]);
    hide WellFormed;
  }

  lemma TailKeepsEvents(a: Appender, w: nat, ok: bool)
    requires WellFormed(a) && EventsOk(a) && w in a.workers && !Active(a.workers[w])
    ensures Known(WorkStep(a, w, ok)) && EventsOk(WorkStep(a, w, ok))
  {
    assert Holds(a, a.workers[w]);
    hide WellFormed;
  }

  lemma WorkKeepsPromise(a: Appender, w: nat, ok: bool, d: nat)
    requires WellFormed(a) && w in a.workers && (Active(a.workers[w]) ==> StageOk(a, a.workers[w]))
    requires WellFormed(WorkStep(a, w, ok)) && OnlyMoved(a, WorkStep(a, w, ok), w)
    requires Promised(a, d)
    ensures d in WorkStep(a, w, ok).resolved || Promised(WorkStep(a, w, ok), d)
  {
    var b := WorkStep(a, w, ok);
    if Busy(a) && a.states[a.current.value].next == d {
      if !Busy(b) || b.states[b.current.value].next != d {
        assert w in b.workers;
        assert Resolves(b, b.workers[w], d);
      }
    } else {
      var v :| v in a.workers && Resolves(a, a.workers[v], d);
      if v != w {
        assert v in b.workers && b.workers[v] == a.workers[v];
        if !Resolves(b, b.workers[v], d) {
          assert w in b.workers && Resolves(b, b.workers[w], d);
        }
      } else if a.workers[w].Completing? {
        assert Resolves(b, b.workers[w], d);
      }
    }
  }

  lemma WorkKeepsAwaited(a: Appender, w: nat, ok: bool)
    requires WellFormed(a) && WorkersOk(a) && EventsOk(a) && AwaitedOk(a) && w in a.workers
    ensures WellFormed(WorkStep(a, w, ok)) && AwaitedOk(WorkStep(a, w, ok))
  {
    WorkKeepsForm(a, w, ok);
    if Active(a.workers[w]) {
      ActiveStageOk(a, w);
    }
    var b := WorkStep(a, w, ok);
    assert b.awaited == a.awaited && a.resolved <= b.resolved;
    forall d | d in b.awaited ensures d in b.resolved || Promised(b, d) {
      if d !in a.resolved {
        WorkKeepsPromise(a, w, ok, d);
      }
    }
  }

  lemma EnqueueKeeps(a: Appender, event: Item, key: nat, worker: nat, maxPending: nat)
    requires Inv(a) && a.current == Some(key) && !a.states[key].poison && worker !in a.workers
    ensures Inv(Enqueue(a, event, key, worker, maxPending))
  {
    var b := Enqueue(a, event, key, worker, maxPending);
    if Busy(a) {
      OthersMove(a, b, worker);
    } else {
      OwnerMoves(a, b, worker);
    }
    forall d | d in b.awaited ensures d in b.resolved || Promised(b, d) {
      if d in a.awaited && d !in a.resolved && !(Busy(a) && a.states[key].next == d) {
        var v :| v in a.workers && Resolves(a, a.workers[v], d);
        assert Resolves(b, b.workers[v], d);
      }
    }
  }

  lemma CreateKeeps(a: Appender, key: nat)
    requires Inv(a) && a.current.None? && key !in a.states
    ensures Inv(Created(a, key))
  {
    var b := Created(a, key);
    assert !exists w :: w in a.workers && Active(a.workers[w]);
    forall d | d in b.awaited ensures d in b.resolved || Promised(b, d) {
      if d !in a.resolved {
        var v :| v in a.workers && Resolves(a, a.workers[v], d);
        assert Resolves(b, b.workers[v], d);
      }
    }
  }

  lemma PushKeeps(a: Appender, event: Item, key: nat, worker: nat, maxPending: nat)
    requires Inv(a) && PushStep(a, event, key, worker, maxPending).Some?
    ensures Inv(PushStep(a, event, key, worker, maxPending).value)
  {
    hide Enqueue;
    if a.current.Some? {
      if !a.states[a.current.value].poison {
        EnqueueKeeps(a, event, a.current.value, worker, maxPending);
      }
    } else {
      CreateKeeps(a, key);
      EnqueueKeeps(Created(a, key), event, key, worker, maxPending);
    }
  }

  lemma StepKeeps(a: Appender, action: Action, maxPending: nat)
    requires Inv(a) && Step(a, action, maxPending).Some?
    ensures Inv(Step(a, action, maxPending).value)
  {
    match action
    case Push(event, key, worker) => PushKeeps(a, event, key, worker, maxPending);
    case Drain =>
    case Work(w, ok) =>
      WorkKeepsWorkers(a, w, ok);
      WorkKeepsEvents(a, w, ok);
      WorkKeepsAwaited(a, w, ok);
  }

  /** The buffer after actions that can each happen in turn. */
  function Run(a: Appender, actions: seq<Action>, maxPending: nat): Option<Appender>
    decreases |actions|
  {
    if actions == [] then Some(a)
    else if !WellFormed(a) then None
    else
      match Step(a, actions[0], maxPending)
      case None => None
      case Some(next) => Run(next, actions[1..], maxPending)
  }

  lemma {:induction false} RunKeeps(a: Appender, actions: seq<Action>, maxPending: nat)
    requires Inv(a) && Run(a, actions, maxPending).Some?
    ensures Inv(Run(a, actions, maxPending).value)
    decreases |actions|
  {
    if actions != [] {
      hide Inv, Step;
      StepKeeps(a, actions[0], maxPending);
      RunKeeps(Step(a, actions[0], maxPending).value, actions[1..], maxPending);
    }
  }

  lemma EmptyInv()
    ensures Inv(Empty())
  {
  }

  /** After any interleaving, at most one flush of the key is in flight. */
  lemma OneFlushAtATime(actions: seq<Action>, maxPending: nat, v: nat, w: nat)
    requires Run(Empty(), actions, maxPending).Some?
    requires var a := Run(Empty(), actions, maxPending).value;
             v in a.workers && w in a.workers && a.workers[v].Flushing? && a.workers[w].Flushing?
    ensures v == w
  {
    hide Run;
    EmptyInv();
    RunKeeps(Empty(), actions, maxPending);
  }

  /**
   * What was flushed is always a prefix of what was accepted; while the key is healthy, the batch in
   * flight and the buffer are the rest of it; and a buffer with something in it has a worker coming.
   */
  lemma FlushedIsPrefix(actions: seq<Action>, maxPending: nat)
    requires Run(Empty(), actions, maxPending).Some?
    ensures var a := Run(Empty(), actions, maxPending).value;
            && a.flushed <= a.accepted && Known(a)
            && (a.current.Some? && !a.states[a.current.value].poison ==>
                  && a.flushed + a.inFlight + a.states[a.current.value].buffer == a.accepted
                  && (a.states[a.current.value].buffer != [] ==> exists w :: w in a.workers && Active(a.workers[w])))
  {
    hide Run;
    EmptyInv();
    RunKeeps(Empty(), actions, maxPending);
  }

  /** A drain that returns with the key not poisoned means every push accepted before was flushed. */
  lemma DrainedMeansFlushed(actions: seq<Action>, maxPending: nat)
    requires Run(Empty(), actions, maxPending).Some?
    requires var a := Run(Empty(), actions, maxPending).value;
             Known(a) && Drained(a) && (a.current.Some? ==> !a.states[a.current.value].poison)
    ensures Run(Empty(), actions, maxPending).value.flushed == Run(Empty(), actions, maxPending).value.accepted
  {
    hide Run;
    EmptyInv();
    RunKeeps(Empty(), actions, maxPending);
  }

  /** The stage resolves `d` next, or owns the flushes of the state whose deferred is `d`. */
  predicate BoundToResolve(a: Appender, stage: Stage, d: nat) {
    || Resolves(a, stage, d)
    || (Active(stage) && a.current.Some? && a.current.value in a.states && a.states[a.current.value].next == d)
  }

  /** Every deferred somebody awaits is resolved, or a worker still in the pool is bound to resolve it. */
  lemma AwaitedIsResolvedOrPromised(actions: seq<Action>, maxPending: nat, d: nat)
    requires Run(Empty(), actions, maxPending).Some? && d in Run(Empty(), actions, maxPending).value.awaited
    ensures var a := Run(Empty(), actions, maxPending).value;
            d in a.resolved || exists w :: w in a.workers && BoundToResolve(a, a.workers[w], d)
  {
    hide Run;
    EmptyInv();
    RunKeeps(Empty(), actions, maxPending);
    var a := Run(Empty(), actions, maxPending).value;
    if d !in a.resolved && Busy(a) && a.states[a.current.value].next == d {
      var w :| w in a.workers && Active(a.workers[w]);
    }
  }

  // ---------------------------------------------------------------- which deferred an awaiter holds

  /** The deferreds still to be resolved by a state object or a worker are unresolved, each by one of them. */
  ghost predicate FreshOk(a: Appender) {
    && (forall d :: d in a.resolved ==> d < a.deferreds)
    && (forall k :: k in a.states ==> a.states[k].next < a.deferreds && a.states[k].next !in a.resolved)
    && (forall j, k :: j in a.states && k in a.states && a.states[j].next == a.states[k].next ==> j == k)
    && (forall w :: w in a.workers && a.workers[w].Resolving? ==> ResolvingOk(a, a.workers[w].deferred))
    && (forall v, w :: v in a.workers && w in a.workers && SameDeferred(a.workers[v], a.workers[w]) ==> v == w)
  }

  predicate SameDeferred(first: Stage, second: Stage) {
    first.Resolving? && second.Resolving? && first.deferred == second.deferred
  }

  predicate ResolvingOk(a: Appender, d: nat) {
    d < a.deferreds && d !in a.resolved && forall k :: k in a.states ==> a.states[k].next != d
  }

  /** Only buffers and flags of state objects moved, and no worker is resolving that was not. */
  ghost predicate SameDeferreds(a: Appender, b: Appender) {
    && b.resolved == a.resolved && b.deferreds == a.deferreds && b.states.Keys == a.states.Keys
    && (forall k :: k in a.states ==> b.states[k].next == a.states[k].next)
    && (forall w :: w in b.workers && b.workers[w].Resolving? ==> w in a.workers && b.workers[w] == a.workers[w])
  }

  lemma SameDeferredsKeepFresh(a: Appender, b: Appender)
    requires FreshOk(a) && SameDeferreds(a, b)
    ensures FreshOk(b)
  {
    forall w | w in b.workers && b.workers[w].Resolving? ensures ResolvingOk(b, b.workers[w].deferred) {
      assert ResolvingOk(a, a.workers[w].deferred);
    }
  }

  lemma SwapKeepsFresh(a: Appender, w: nat, ok: bool)
    requires WellFormed(a) && FreshOk(a) && w in a.workers && a.workers[w].Completing?
    ensures FreshOk(WorkStep(a, w, ok))
  {
    var b, key := WorkStep(a, w, ok), a.workers[w].key;
    assert Holds(a, a.workers[w]);
    hide WellFormed;
    forall v | v in b.workers && b.workers[v].Resolving? ensures ResolvingOk(b, b.workers[v].deferred) {
      if v != w {
        assert ResolvingOk(a, a.workers[v].deferred);
      }
    }
  }

  lemma ResolveKeepsFresh(a: Appender, w: nat, ok: bool)
    requires WellFormed(a) && FreshOk(a) && w in a.workers && a.workers[w].Resolving?
    ensures FreshOk(WorkStep(a, w, ok))
  {
    var b := WorkStep(a, w, ok);
    assert ResolvingOk(a, a.workers[w].deferred);
    forall v | v in b.workers && b.workers[v].Resolving? ensures ResolvingOk(b, b.workers[v].deferred) {
      assert v != w && ResolvingOk(a, a.workers[v].deferred);
    }
  }

  lemma WorkKeepsFresh(a: Appender, w: nat, ok: bool)
    requires WellFormed(a) && FreshOk(a) && w in a.workers
    ensures FreshOk(WorkStep(a, w, ok))
  {
    if a.workers[w].Completing? {
      SwapKeepsFresh(a, w, ok);
    } else if a.workers[w].Resolving? {
      ResolveKeepsFresh(a, w, ok);
    } else {
      assert Holds(a, a.workers[w]);
      assert SameDeferreds(a, WorkStep(a, w, ok)) by {
        hide FreshOk, WellFormed;
      }
      SameDeferredsKeepFresh(a, WorkStep(a, w, ok));
    }
  }

  lemma CreateKeepsFresh(a: Appender, key: nat)
    requires FreshOk(a) && key !in a.states
    ensures FreshOk(Created(a, key))
  {
    var b := Created(a, key);
    forall w | w in b.workers && b.workers[w].Resolving? ensures ResolvingOk(b, b.workers[w].deferred) {
      assert ResolvingOk(a, a.workers[w].deferred);
    }
  }

  lemma EnqueueSameDeferreds(a: Appender, event: Item, key: nat, worker: nat, maxPending: nat)
    requires key in a.states && !a.states[key].poison && worker !in a.workers
    ensures SameDeferreds(a, Enqueue(a, event, key, worker, maxPending))
  {
  }

  lemma StepKeepsFresh(a: Appender, action: Action, maxPending: nat)
    requires WellFormed(a) && FreshOk(a) && Step(a, action, maxPending).Some?
    ensures FreshOk(Step(a, action, maxPending).value)
  {
    hide FreshOk, SameDeferreds, Enqueue, Created, WorkStep;
    match action
    case Push(event, key, worker) =>
      if a.current.None? {
        CreateKeepsFresh(a, key);
        CreatedIsHealthy(a, key);
        EnqueueSameDeferreds(Created(a, key), event, key, worker, maxPending);
        SameDeferredsKeepFresh(Created(a, key), Enqueue(Created(a, key), event, key, worker, maxPending));
      } else if !a.states[a.current.value].poison {
        EnqueueSameDeferreds(a, event, a.current.value, worker, maxPending);
        SameDeferredsKeepFresh(a, Enqueue(a, event, a.current.value, worker, maxPending));
      }
    case Drain =>
      assert SameDeferreds(a, DrainStep(a)) by {
        DrainSameDeferreds(a);
      }
      SameDeferredsKeepFresh(a, DrainStep(a));
    case Work(w, ok) => WorkKeepsFresh(a, w, ok);
  }

  lemma CreatedIsHealthy(a: Appender, key: nat)
    ensures key in Created(a, key).states && !Created(a, key).states[key].poison && Created(a, key).workers == a.workers
  {
  }

  lemma DrainSameDeferreds(a: Appender)
    requires Known(a)
    ensures SameDeferreds(a, DrainStep(a))
  {
  }

  lemma {:induction false} RunKeepsFresh(a: Appender, actions: seq<Action>, maxPending: nat)
    requires Inv(a) && FreshOk(a) && Run(a, actions, maxPending).Some?
    ensures FreshOk(Run(a, actions, maxPending).value)
    decreases |actions|
  {
    if actions != [] {
      hide WorkersOk, EventsOk, AwaitedOk, FreshOk, Step;
      StepKeeps(a, actions[0], maxPending);
      StepKeepsFresh(a, actions[0], maxPending);
      RunKeepsFresh(Step(a, actions[0], maxPending).value, actions[1..], maxPending);
    }
  }

  /** The next deferred of the key's state in the map. */
  predicate IsCurrent(a: Appender, d: nat) {
    a.current.Some? && a.current.value in a.states && a.states[a.current.value].next == d
  }

  /** A worker is about to resolve `d`, or holds a state object that is no longer in the map and whose next is `d`. */
  predicate LeftBehind(a: Appender, stage: Stage, d: nat) {
    || (stage.Resolving? && stage.deferred == d)
    || (stage.Completing? && a.current != Some(stage.key) && stage.key in a.states && a.states[stage.key].next == d)
  }

  /**
   * Exactly when an awaited deferred is resolved or the key's current one: if and only if no worker is
   * about to resolve it, having swapped it out or still holding an evicted state object.
   */
  lemma AwaitedIsCurrentIff(actions: seq<Action>, maxPending: nat, d: nat)
    requires Run(Empty(), actions, maxPending).Some? && d in Run(Empty(), actions, maxPending).value.awaited
    ensures var a := Run(Empty(), actions, maxPending).value;
            (d in a.resolved || IsCurrent(a, d)) <==> !exists w :: w in a.workers && LeftBehind(a, a.workers[w], d)
  {
    hide Run;
    EmptyInv();
    RunKeeps(Empty(), actions, maxPending);
    assert FreshOk(Empty());
    RunKeepsFresh(Empty(), actions, maxPending);
    var a := Run(Empty(), actions, maxPending).value;
    if d in a.resolved || IsCurrent(a, d) {
      forall w | w in a.workers ensures !LeftBehind(a, a.workers[w], d) {
        assert a.workers[w].Resolving? ==> ResolvingOk(a, a.workers[w].deferred);
      }
    } else {
      assert Promised(a, d);
      var w :| w in a.workers && Resolves(a, a.workers[w], d);
      assert LeftBehind(a, a.workers[w], d);
    }
  }

  lemma RunCons(a: Appender, action: Action, b: Appender, rest: seq<Action>, maxPending: nat)
    requires WellFormed(a) && Step(a, action, maxPending) == Some(b)
    ensures Run(a, [action] + rest, maxPending) == Run(b, rest, maxPending)
  {
    assert ([action] + rest)[1..] == rest;
  }

  lemma {:induction false} RunAppend(a: Appender, first: seq<Action>, second: seq<Action>, maxPending: nat)
    requires Run(a, first, maxPending).Some?
    ensures Run(a, first + second, maxPending) == Run(Run(a, first, maxPending).value, second, maxPending)
    decreases |first|
  {
    hide Step, WellFormed;
    if first == [] {
      assert first + second == second;
    } else {
      assert (first + second)[1..] == first[1..] + second;
      RunAppend(Step(a, first[0], maxPending).value, first[1..], second, maxPending);
    }
  }

  /** Five steps of a worker: take the buffer, flush it, judge the outcome, swap the deferred, resolve the old one. */
  function Round(w: nat): seq<Action> {
    [Work(w, true)] + ([Work(w, true)] + ([Work(w, true)] + ([Work(w, true)] + ([Work(w, true)] + []))))
  }

  function AfterRound(a: Appender, key: nat): Appender
    requires key in a.states
  {
    var s := a.states[key];
    Put(a, key, KeyState([], true, false, s.poison, a.deferreds)).(
      deferreds := a.deferreds + 1, resolved := a.resolved + {s.next}, flushed := a.flushed + s.buffer, inFlight := [])
  }

  lemma RoundFlushes(a: Appender, w: nat, key: nat, maxPending: nat)
    requires WellFormed(a) && a.current == Some(key) && a.states[key].buffer != []
    requires w in a.workers && a.workers[w] == Taking
    ensures Run(a, Round(w), maxPending) == Some(AfterRound(a, key))
  {
    var s := a.states[key];
    var a1 := At(Put(a, key, KeyState([], true, false, s.poison, s.next)), w, Flushing(key, s.buffer)).(inFlight := s.buffer);
    var a2 := At(a1, w, Judging(key, true)).(flushed := a.flushed + s.buffer, inFlight := []);
    var a3 := At(a2, w, Completing(key, Again));
    var a4 := At(Put(a3, key, a3.states[key].(next := a.deferreds)), w, Resolving(s.next, Again)).(deferreds := a.deferreds + 1);
    var a5 := At(a4, w, Taking).(resolved := a.resolved + {s.next});
    var three := [Work(w, true)] + ([Work(w, true)] + ([Work(w, true)] + []));
    RunCons(a, Work(w, true), a1, [Work(w, true)] + three, maxPending);
    RunCons(a1, Work(w, true), a2, three, maxPending);
    RunCons(a2, Work(w, true), a3, [Work(w, true)] + ([Work(w, true)] + []), maxPending);
    RunCons(a3, Work(w, true), a4, [Work(w, true)] + [], maxPending);
    RunCons(a4, Work(w, true), a5, [], maxPending);
    assert a5.workers == a.workers && a5.states == AfterRound(a, key).states;
  }

  function Workers(first: Option<Stage>, second: Option<Stage>): map<nat, Stage> {
    var workers := if first.Some? then map[0 := first.value] else map[];
    if second.Some? then workers[1 := second.value] else workers
  }

  /** The key's only state object, with the next of its deferreds unresolved, and at most two workers. */
  predicate Looks(a: Appender, s: KeyState, first: Option<Stage>, second: Option<Stage>) {
    && WellFormed(a) && a.current == Some(0) && a.states[0] == s && !s.poison && a.deferreds == s.next + 1
    && (forall d :: d in a.resolved ==> d < s.next) && a.workers == Workers(first, second)
  }

  function Resting(next: nat): KeyState {
    KeyState([], false, false, false, next)
  }

  lemma Pushes(a: Appender, event: Item, first: Option<Stage>, next: nat, w: nat, maxPending: nat) returns (b: Appender)
    requires maxPending > 0 && w < 2 && (w == 0 ==> first.None?)
    requires Looks(a, Resting(next), first, None) || (a == Empty() && next == 0 && w == 0)
    ensures Run(a, [Push(event, 0, w)], maxPending) == Some(b)
    ensures Looks(b, KeyState([event], false, true, false, next), if w == 0 then Some(Taking) else first, if w == 1 then Some(Taking) else None)
  {
    b := PushStep(a, event, 0, w, maxPending).value;
    assert [] + [event] == [event];
    RunCons(a, Push(event, 0, w), b, [], maxPending);
  }

  lemma Flushes(a: Appender, s: KeyState, first: Option<Stage>, second: Option<Stage>, w: nat, maxPending: nat) returns (b: Appender)
    requires Looks(a, s, first, second) && s.buffer != [] && w in a.workers && a.workers[w] == Taking
    ensures Run(a, Round(w), maxPending) == Some(b)
    ensures Looks(b, KeyState([], true, false, false, s.next + 1), first, second)
  {
    b := AfterRound(a, 0);
    RoundFlushes(a, w, 0, maxPending);
  }

  /** The worker finds the buffer empty and lets go of the key. */
  lemma FindsNothing(a: Appender, s: KeyState, first: Option<Stage>, second: Option<Stage>, w: nat, maxPending: nat) returns (b: Appender)
    requires Looks(a, s, first, second) && s.buffer == [] && w in a.workers && w < 2 && a.workers[w] == Taking
    ensures Run(a, [Work(w, true)], maxPending) == Some(b) && b.awaited == a.awaited
    ensures Looks(b, Resting(s.next), if w == 0 then Some(Completing(0, Evict)) else first,
                  if w == 1 then Some(Completing(0, Evict)) else second)
  {
    b := Take(a, w);
    RunCons(a, Work(w, true), b, [], maxPending);
  }

  /** The first worker swaps the deferred and resolves the old one; what is left to it is the eviction. */
  lemma Retires(a: Appender, next: nat, maxPending: nat) returns (b: Appender)
    requires Looks(a, Resting(next), Some(Completing(0, Evict)), None)
    ensures Run(a, [Work(0, true)] + ([Work(0, true)] + []), maxPending) == Some(b)
    ensures Looks(b, Resting(next + 1), Some(Evicting), None)
  {
    var swapped := WorkStep(a, 0, true);
    assert Looks(swapped, Resting(next + 1), Some(Resolving(next, Evict)), None);
    b := WorkStep(swapped, 0, true);
    RunCons(a, Work(0, true), swapped, [Work(0, true)] + [], maxPending);
    RunCons(swapped, Work(0, true), b, [], maxPending);
  }

  /** A drain waits for the deferred of a key that is being flushed. */
  lemma DrainWaits(a: Appender, s: KeyState, first: Option<Stage>, second: Option<Stage>, maxPending: nat) returns (b: Appender)
    requires Looks(a, s, first, second) && s.flushing
    ensures Run(a, [Drain], maxPending) == Some(b) && Looks(b, s, first, second) && s.next in b.awaited
  {
    b := DrainStep(a);
    RunCons(a, Drain, b, [], maxPending);
  }

  lemma EvictsIdle(a: Appender, next: nat, second: Stage, maxPending: nat) returns (b: Appender)
    requires Looks(a, Resting(next), Some(Evicting), Some(second))
    ensures Run(a, [Work(0, true)], maxPending) == Some(b)
    ensures b.current.None? && b.resolved == a.resolved && b.awaited == a.awaited && b.workers == map[1 := second]
  {
    b := WorkStep(a, 0, true);
    RunCons(a, Work(0, true), b, [], maxPending);
  }

  /** A push, its flush, and the worker up to where it is about to evict the idle key. */
  function UpToEviction(event: Item): seq<Action> {
    [Push(event, 0, 0)] + (Round(0) + ([Work(0, true)] + ([Work(0, true)] + ([Work(0, true)] + []))))
  }

  /** A push meets the idle key and a second worker flushes; a drain waits; that worker finds nothing; the first evicts. */
  function LateEviction(event: Item): seq<Action> {
    [Push(event, 0, 1)] + (Round(1) + ([Drain] + ([Work(1, true)] + [Work(0, true)])))
  }

  lemma AboutToEvict(event: Item, maxPending: nat) returns (b: Appender)
    requires maxPending > 0
    ensures Run(Empty(), UpToEviction(event), maxPending) == Some(b) && Looks(b, Resting(2), Some(Evicting), None)
  {
    hide Run, Looks, Round, Step;
    var swap := [Work(0, true)] + ([Work(0, true)] + []);
    var a1 := Pushes(Empty(), event, None, 0, 0, maxPending);
    RunAppend(Empty(), [Push(event, 0, 0)], Round(0) + ([Work(0, true)] + swap), maxPending);
    IsTaking(a1, KeyState([event], false, true, false, 0), None, 0);
    var a2 := Flushes(a1, KeyState([event], false, true, false, 0), Some(Taking), None, 0, maxPending);
    RunAppend(a1, Round(0), [Work(0, true)] + swap, maxPending);
    IsTaking(a2, KeyState([], true, false, false, 1), None, 0);
    var a3 := FindsNothing(a2, KeyState([], true, false, false, 1), Some(Taking), None, 0, maxPending);
    RunAppend(a2, [Work(0, true)], swap, maxPending);
    b := Retires(a3, 1, maxPending);
  }

  lemma IsTaking(a: Appender, s: KeyState, other: Option<Stage>, w: nat)
    requires if w == 0 then Looks(a, s, Some(Taking), other) else w == 1 && Looks(a, s, other, Some(Taking))
    ensures w in a.workers && a.workers[w] == Taking
  {
  }

  /**
   * An awaited deferred need not belong to the key's state in the map. Here the key is gone, and only a
   * worker that still holds the old state object resolves the deferred a drain waits for.
   */
  lemma AwaitedOfAnEvictedKey(first: Item, second: Item, maxPending: nat)
    requires maxPending > 0
    ensures var r := Run(Empty(), UpToEviction(first) + LateEviction(second), maxPending);
            && r.Some? && r.value.current.None? && 3 in r.value.awaited && 3 !in r.value.resolved
            && r.value.workers == map[1 := Completing(0, Evict)]
  {
    hide Run, Round, Step, Looks;
    var e := Some(Evicting);
    var a0 := AboutToEvict(first, maxPending);
    RunAppend(Empty(), UpToEviction(first), LateEviction(second), maxPending);
    var a1 := Pushes(a0, second, e, 2, 1, maxPending);
    RunAppend(a0, [Push(second, 0, 1)], Round(1) + ([Drain] + ([Work(1, true)] + [Work(0, true)])), maxPending);
    IsTaking(a1, KeyState([second], false, true, false, 2), e, 1);
    var a2 := Flushes(a1, KeyState([second], false, true, false, 2), e, Some(Taking), 1, maxPending);
    RunAppend(a1, Round(1), [Drain] + ([Work(1, true)] + [Work(0, true)]), maxPending);
    var a3 := DrainWaits(a2, KeyState([], true, false, false, 3), e, Some(Taking), maxPending);
    RunAppend(a2, [Drain], [Work(1, true)] + [Work(0, true)], maxPending);
    IsTaking(a3, KeyState([], true, false, false, 3), e, 1);
    var a4 := FindsNothing(a3, KeyState([], true, false, false, 3), e, Some(Taking), 1, maxPending);
    RunAppend(a3, [Work(1, true)], [Work(0, true)], maxPending);
    var a5 := EvictsIdle(a4, 3, Completing(0, Evict), maxPending);
    NextUnresolved(a4, Resting(3), e, Some(Completing(0, Evict)));
  }

  lemma NextUnresolved(a: Appender, s: KeyState, first: Option<Stage>, second: Option<Stage>)
    requires Looks(a, s, first, second)
    ensures s.next !in a.resolved
  {
  }

  /** The key is poisoned and nothing of it is being flushed. */
  predicate Poisoned(a: Appender) {
    && a.current.Some? && a.current.value in a.states && a.states[a.current.value].poison
    && forall w :: w in a.workers ==> !a.workers[w].Flushing?
  }

  lemma PoisonStays(a: Appender, action: Action, maxPending: nat)
    requires Inv(a) && Poisoned(a) && Step(a, action, maxPending).Some?
    ensures var b := Step(a, action, maxPending).value; Poisoned(b) && b.flushed == a.flushed && b.accepted == a.accepted
  {
    assert forall w :: w in a.workers ==> !Active(a.workers[w]);
  }

  lemma PoisonedIsQuiet(a: Appender)
    requires Inv(a) && a.current.Some? && a.states[a.current.value].poison
    ensures Poisoned(a)
  {
    assert forall w :: w in a.workers ==> !Active(a.workers[w]);
  }

  lemma {:induction false} PoisonStaysOn(a: Appender, actions: seq<Action>, maxPending: nat)
    requires Inv(a) && Poisoned(a) && Run(a, actions, maxPending).Some?
    ensures var b := Run(a, actions, maxPending).value; Poisoned(b) && b.flushed == a.flushed && b.accepted == a.accepted
    decreases |actions|
  {
    if actions != [] {
      hide Inv, Step, Poisoned;
      PoisonStays(a, actions[0], maxPending);
      StepKeeps(a, actions[0], maxPending);
      PoisonStaysOn(Step(a, actions[0], maxPending).value, actions[1..], maxPending);
    }
  }

  /** A poisoned key stays poisoned through anything that follows, accepts nothing more and never flushes again. */
  lemma PoisonIsForever(before: seq<Action>, after: seq<Action>, maxPending: nat)
    requires Run(Empty(), before, maxPending).Some?
    requires var a := Run(Empty(), before, maxPending).value;
             && a.current.Some? && a.current.value in a.states && a.states[a.current.value].poison
             && Run(a, after, maxPending).Some?
    ensures var a := Run(Empty(), before, maxPending).value;
            var b := Run(a, after, maxPending).value;
            Poisoned(b) && b.flushed == a.flushed && b.accepted == a.accepted
  {
    hide Run, Inv, Poisoned;
    EmptyInv();
    RunKeeps(Empty(), before, maxPending);
    var a := Run(Empty(), before, maxPending).value;
    PoisonedIsQuiet(a);
    PoisonStaysOn(a, after, maxPending);
  }
}

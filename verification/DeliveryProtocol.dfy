/**
 * Projector delivery as it interleaves: appends, any number of deliveries, crashes between any two of
 * their steps, requeues, and trims guarded by the projectors' cursors.
 */
module DeliveryProtocol {
  import opened Common
  import opened Delivery

  /** Where one `deliverProjector` call is. `status` is its own copy of the row. */
  datatype Worker =
    | Initializing(projector: Projector, status: Row)
    | Reading(projector: Projector, status: Row)
    | Projecting(projector: Projector, status: Row, events: seq<int>)
    | Advancing(projector: Projector, status: Row, last: int)
    | Failing(projector: Projector, status: Row, failedSeq: int)

  /**
   * The retained log, the cursor rows and the deliveries. `observed` are cursors a trimming host has
   * read. The rest is history: every sequence number ever appended, the (projector, sequence number)
   * pairs of accepted batches, and the failed deliveries of a projector since its row last advanced or
   * was rewound (`failures`), or advanced, was rewound or was requeued (`recent`).
   */
  datatype System = System(
    log: seq<int>, tail: int, table: Table, workers: map<nat, Worker>, observed: map<Projector, int>,
    appended: set<int>, projected: set<(Projector, int)>, failures: map<Projector, nat>,
    recent: map<Projector, nat>)

  /**
   * `exclusive` is the semaphore of a single host: one delivery at a time for each projector. The
   * semaphore does not cover a requeue's write.
   */
  datatype Config = Config(projectors: set<Projector>, policy: Policy, exclusive: bool)

  datatype Action =
    | Append(seqs: seq<int>)
    | Begin(worker: nat, projector: Projector, force: bool, now: int)
    | Initialize(worker: nat, ok: bool, position: Option<int>, now: int)
    | ReadNext(worker: nat)
    | Project(worker: nat, ok: bool)
    | SaveCursor(worker: nat, now: int)
    | SaveFailure(worker: nat, error: string, now: int)
    | Crash(worker: nat)
    | RequeueRow(projector: Projector, now: int)
    | Observe(projector: Projector)
    | TrimSafely(beforeSeq: int)

  function At(s: System, w: nat, next: Worker): System {
    s.(workers := s.workers[w := next])
  }

  function Leave(s: System, w: nat): System {
    s.(workers := s.workers - {w})
  }

  function FailuresOf(s: System, p: Projector): nat {
    if p in s.failures then s.failures[p] else 0
  }

  function RecentOf(s: System, p: Projector): nat {
    if p in s.recent then s.recent[p] else 0
  }

  predicate Delivering(s: System, p: Projector) {
    exists v :: v in s.workers && s.workers[v].projector == p
  }

  /** `trimEventStoreSafely` with projector coverage. */
  predicate Covers(projectors: set<Projector>, observed: map<Projector, int>, beforeSeq: int) {
    projectors != {} && forall p :: p in projectors ==> (if p in observed then observed[p] else -1) >= Max(0, beforeSeq - 1)
  }

  /** Rows and counts are as they were. */
  predicate SameRows(s: System, t: System) {
    t.table == s.table && t.failures == s.failures && t.recent == s.recent
  }

  function BeginStep(s: System, w: nat, p: Projector, force: bool, now: int, c: Config): (t: Option<System>)
    ensures t.Some? ==> SameRows(s, t.value)
  {
    if w in s.workers || p !in c.projectors then None
    else if c.exclusive && Delivering(s, p) then None
    else if Due(RowOf(s.table, p), force, now) then Some(At(s, w, Initializing(p, RowOf(s.table, p))))
    else Some(s)
  }

  /** A projector with a position behind the cursor rewinds its row. */
  function InitializeStep(s: System, w: nat, ok: bool, position: Option<int>, now: int): System
    requires w in s.workers && s.workers[w].Initializing?
  {
    var Initializing(p, status) := s.workers[w];
    if !ok then At(s, w, Failing(p, status, status.cursor + 1))
    else if position.Some? && position.value < status.cursor then
      At(s, w, Reading(p, IdleStatus(status, position.value))).(
      table := Rewind(s.table, p, position.value, now), failures := s.failures[p := 0], recent := s.recent[p := 0])
    else At(s, w, Reading(p, status))
  }

  function ReadStep(s: System, w: nat, limit: nat): (t: System)
    requires w in s.workers && s.workers[w].Reading?
    ensures SameRows(s, t)
  {
    var Reading(p, status) := s.workers[w];
    var events := Read(s.log, status.cursor + 1, limit);
    if events == [] then Leave(s, w) else At(s, w, Projecting(p, status, events))
  }

  function ProjectStep(s: System, w: nat, ok: bool): (t: Option<System>)
    requires w in s.workers && s.workers[w].Projecting?
    ensures t.Some? ==> SameRows(s, t.value)
  {
    var Projecting(p, status, events) := s.workers[w];
    if events == [] then None
    else if !ok then Some(At(s, w, Failing(p, status, events[0])))
    else Some(At(s, w, Advancing(p, status, events[|events| - 1])).(projected := s.projected + set x | x in events :: (p, x)))
  }

  function SaveCursorStep(s: System, w: nat, now: int): System
    requires w in s.workers && s.workers[w].Advancing?
  {
    var Advancing(p, status, last) := s.workers[w];
    At(s, w, Reading(p, IdleStatus(status, last))).(
      table := Advance(s.table, p, last, now), failures := s.failures[p := 0], recent := s.recent[p := 0])
  }

  function SaveFailureStep(s: System, w: nat, error: string, now: int, o: Policy): System
    requires w in s.workers && s.workers[w].Failing?
  {
    var Failing(p, status, failedSeq) := s.workers[w];
    Leave(s, w).(table := RecordFailure(s.table, p, status, failedSeq, error, o, now),
                 failures := s.failures[p := FailuresOf(s, p) + 1], recent := s.recent[p := RecentOf(s, p) + 1])
  }

  function AppendStep(s: System, seqs: seq<int>): (t: Option<System>)
    ensures t.Some? ==> SameRows(s, t.value)
  {
    if seqs != [] && Increasing(seqs) && seqs[0] > s.tail then
      Some(s.(log := s.log + seqs, tail := seqs[|seqs| - 1], appended := s.appended + set x | x in seqs))
    else None
  }

  function Step(s: System, a: Action, c: Config): Option<System> {
    match a
    case Append(seqs) => AppendStep(s, seqs)
    case Begin(w, p, force, now) => BeginStep(s, w, p, force, now, c)
    case Initialize(w, ok, position, now) =>
      if w in s.workers && s.workers[w].Initializing? then Some(InitializeStep(s, w, ok, position, now)) else None
    case ReadNext(w) => if w in s.workers && s.workers[w].Reading? then Some(ReadStep(s, w, c.policy.batchSize)) else None
    case Project(w, ok) => if w in s.workers && s.workers[w].Projecting? then ProjectStep(s, w, ok) else None
    case SaveCursor(w, now) => if w in s.workers && s.workers[w].Advancing? then Some(SaveCursorStep(s, w, now)) else None
    case SaveFailure(w, error, now) =>
      if w in s.workers && s.workers[w].Failing? then Some(SaveFailureStep(s, w, error, now, c.policy)) else None
    case Crash(w) => if w in s.workers then Some(Leave(s, w)) else None
    case RequeueRow(p, now) =>
      if p in c.projectors then Some(s.(table := Requeue(s.table, p, now), recent := s.recent[p := 0])) else None
    case Observe(p) => Some(s.(observed := s.observed[p := RowOf(s.table, p).cursor]))
    case TrimSafely(beforeSeq) =>
      if Covers(c.projectors, s.observed, beforeSeq) then Some(s.(log := Filter(s.log, AtLeast(beforeSeq)))) else None
  }

  predicate NoWorker(a: Action) {
    a.Append? || a.RequeueRow? || a.Observe? || a.TrimSafely?
  }

  const START := System([], 0, map[], map[], map[], {}, {}, map[], map[])

  /** The system after actions that can each happen in turn. */
  function Run(s: System, actions: seq<Action>, c: Config): Option<System>
    decreases |actions|
  {
    if actions == [] then Some(s) else
    match Step(s, actions[0], c)
    case None => None
    case Some(next) => Run(next, actions[1..], c)
  }

  // ---------------------------------------------------------------- nothing is skipped

  /** Every event up to `n` that was ever appended has been in an accepted batch of `p`. */
  predicate Projected(s: System, p: Projector, n: int) {
    n <= s.tail && forall x :: x in s.appended && x <= n ==> (p, x) in s.projected
  }

  predicate LogOk(s: System, projectors: set<Projector>) {
    && Increasing(s.log) && s.tail >= 0
    && (forall x :: x in s.log ==> x in s.appended)
    && (forall x :: x in s.appended ==> 0 < x <= s.tail)
    && (forall x, p :: x in s.appended && x !in s.log && p in projectors ==> (p, x) in s.projected)
  }

  ghost predicate RowsOk(s: System) {
    && (forall p :: p in s.table ==> Projected(s, p, s.table[p].cursor))
    && (forall p :: p in s.observed ==> Projected(s, p, s.observed[p]))
  }

  predicate WorkerOk(s: System, w: Worker) {
    && Projected(s, w.projector, w.status.cursor)
    && match w
       case Projecting(p, status, events) =>
         && events != [] && events[|events| - 1] <= s.tail
         && forall x :: x in s.appended && status.cursor < x <= events[|events| - 1] ==> x in events || (p, x) in s.projected
       case Advancing(p, _, last) => Projected(s, p, last)
       case _ => true
  }

  ghost predicate WorkersOk(s: System, projectors: set<Projector>) {
    forall w :: w in s.workers ==> s.workers[w].projector in projectors && WorkerOk(s, s.workers[w])
  }

  ghost predicate Inv(s: System, c: Config) {
    LogOk(s, c.projectors) && RowsOk(s) && WorkersOk(s, c.projectors)
  }

  /** History only grows, and only above the tail. */
  predicate Extends(s: System, t: System) {
    && s.tail <= t.tail && s.appended <= t.appended && s.projected <= t.projected
    && forall x :: x in t.appended ==> x in s.appended || x > s.tail
  }

  lemma WorkerStays(s: System, t: System, w: Worker)
    requires Extends(s, t) && WorkerOk(s, w)
    ensures WorkerOk(t, w)
  {
  }

  lemma StepExtends(s: System, a: Action, c: Config)
    requires LogOk(s, c.projectors) && Step(s, a, c).Some?
    ensures Extends(s, Step(s, a, c).value)
  {
  }

  lemma TrimKeepsLog(s: System, beforeSeq: int, c: Config)
    requires LogOk(s, c.projectors) && RowsOk(s) && Covers(c.projectors, s.observed, beforeSeq)
    ensures LogOk(s.(log := Filter(s.log, AtLeast(beforeSeq))), c.projectors)
  {
    FilterIncreasing(s.log, AtLeast(beforeSeq));
  }

  lemma StepKeepsLog(s: System, a: Action, c: Config)
    requires LogOk(s, c.projectors) && RowsOk(s) && Step(s, a, c).Some?
    ensures LogOk(Step(s, a, c).value, c.projectors)
  {
    var t := Step(s, a, c).value;
    if a.TrimSafely? {
      TrimKeepsLog(s, a.beforeSeq, c);
    } else if a.Append? {
      AppendKeepsLog(s, a.seqs, c);
    } else {
      StepExtends(s, a, c);
      StepKeepsEvents(s, a, c);
      SameEvents(s, t, c.projectors);
    }
  }

  lemma AppendKeepsLog(s: System, seqs: seq<int>, c: Config)
    requires LogOk(s, c.projectors) && AppendStep(s, seqs).Some?
    ensures LogOk(AppendStep(s, seqs).value, c.projectors)
  {
    assert forall i :: 0 <= i < |s.log| ==> s.log[i] in s.log;
    assert forall i :: 0 <= i < |seqs| ==> seqs[0] <= seqs[i] <= seqs[|seqs| - 1];
  }

  lemma StepKeepsEvents(s: System, a: Action, c: Config)
    requires Step(s, a, c).Some? && !a.Append? && !a.TrimSafely?
    ensures var t := Step(s, a, c).value; t.log == s.log && t.tail == s.tail && t.appended == s.appended
  {
    hide RecordFailure, Advance, Rewind, Requeue, Read, Due, IdleStatus, Covers, AppendStep, Filter, Increasing;
  }

  lemma SameEvents(s: System, t: System, projectors: set<Projector>)
    requires LogOk(s, projectors) && Extends(s, t)
    requires t.log == s.log && t.tail == s.tail && t.appended == s.appended
    ensures LogOk(t, projectors)
  {
  }

  lemma RowIsProjected(s: System, p: Projector, c: Config)
    requires LogOk(s, c.projectors) && RowsOk(s)
    ensures Projected(s, p, RowOf(s.table, p).cursor)
  {
  }

  /** A step leaves a row's cursor alone, or moves it to a place its worker has projected up to, or back. */
  lemma CursorMoves(s: System, a: Action, c: Config, p: Projector)
    requires Step(s, a, c).Some?
    ensures var before, after := RowOf(s.table, p).cursor, RowOf(Step(s, a, c).value.table, p).cursor;
            || after <= before
            || (a.SaveCursor? && s.workers[a.worker].projector == p && after == s.workers[a.worker].last)
            || (a.Initialize? && s.workers[a.worker].projector == p && after <= s.workers[a.worker].status.cursor)
  {
    hide Read, Filter, Increasing, Covers, Due;
  }

  lemma ProjectedStays(s: System, t: System, p: Projector, n: int)
    requires Extends(s, t) && Projected(s, p, n)
    ensures Projected(t, p, n)
  {
  }

  lemma LessIsProjected(s: System, p: Projector, n: int, m: int)
    requires Projected(s, p, n) && m <= n
    ensures Projected(s, p, m)
  {
  }

  lemma ObservedMoves(s: System, a: Action, c: Config, p: Projector)
    requires Step(s, a, c).Some? && p in Step(s, a, c).value.observed
    ensures var n := Step(s, a, c).value.observed[p];
            (p in s.observed && n == s.observed[p]) || n == RowOf(s.table, p).cursor
  {
    hide RecordFailure, Advance, Rewind, Requeue, Read, Filter, Increasing, Covers, Due;
  }

  lemma ActingWorkerProjected(s: System, a: Action, c: Config)
    requires WorkersOk(s, c.projectors) && Step(s, a, c).Some?
    ensures a.SaveCursor? ==> Projected(s, s.workers[a.worker].projector, s.workers[a.worker].last)
    ensures a.Initialize? ==> Projected(s, s.workers[a.worker].projector, s.workers[a.worker].status.cursor)
  {
    hide RecordFailure, Advance, Rewind, Requeue, Read, Filter, Increasing, Covers, Due, AppendStep, Projected;
    if a.SaveCursor? || a.Initialize? {
      assert WorkerOk(s, s.workers[a.worker]);
    }
  }

  lemma StepKeepsRows(s: System, a: Action, c: Config)
    requires Inv(s, c) && Step(s, a, c).Some?
    ensures RowsOk(Step(s, a, c).value)
  {
    var t := Step(s, a, c).value;
    StepExtends(s, a, c);
    ActingWorkerProjected(s, a, c);
    hide Step, LogOk, Projected, WorkersOk, Extends;
    forall p | p in t.table ensures Projected(t, p, t.table[p].cursor) {
      RowIsProjected(s, p, c);
      CursorMoves(s, a, c, p);
      var before, after := RowOf(s.table, p).cursor, RowOf(t.table, p).cursor;
      if after <= before {
        LessIsProjected(s, p, before, after);
      } else if a.Initialize? {
        LessIsProjected(s, p, s.workers[a.worker].status.cursor, after);
      }
      ProjectedStays(s, t, p, after);
    }
    forall p | p in t.observed ensures Projected(t, p, t.observed[p]) {
      RowIsProjected(s, p, c);
      ObservedMoves(s, a, c, p);
      ProjectedStays(s, t, p, t.observed[p]);
    }
  }

  /** A batch leaves no unprojected event between the cursor and its last event. */
  lemma ReadLeavesNoGap(s: System, p: Projector, status: Row, limit: nat, c: Config)
    requires LogOk(s, c.projectors) && p in c.projectors && Projected(s, p, status.cursor)
    requires Read(s.log, status.cursor + 1, limit) != []
    ensures WorkerOk(s, Projecting(p, status, Read(s.log, status.cursor + 1, limit)))
  {
    var events := Read(s.log, status.cursor + 1, limit);
    ReadIsNextRange(s.log, status.cursor, limit);
  }

  /** The step a worker takes leaves it with everything its new stage needs. */
  lemma ActingWorkerOk(s: System, a: Action, c: Config, w: nat)
    requires LogOk(s, c.projectors) && RowsOk(s) && Step(s, a, c).Some?
    requires w in s.workers ==> s.workers[w].projector in c.projectors && WorkerOk(s, s.workers[w])
    requires !NoWorker(a) && a.worker == w
    ensures var t := Step(s, a, c).value;
            w in t.workers ==> t.workers[w].projector in c.projectors && WorkerOk(t, t.workers[w])
  {
    hide RecordFailure, Advance, Rewind, Due, Filter, Increasing, LogOk, RowsOk, Read;
    var t := Step(s, a, c).value;
    StepExtends(s, a, c);
    if w in t.workers {
      match a
      case Begin(_, p, _, _) => RowIsProjected(s, p, c);
      case ReadNext(_) =>
        if t.workers[w].Projecting? {
          ReadLeavesNoGap(s, s.workers[w].projector, s.workers[w].status, c.policy.batchSize, c);
        }
      case _ =>
    }
  }

  lemma StepKeepsWorkers(s: System, a: Action, c: Config)
    requires Inv(s, c) && Step(s, a, c).Some?
    ensures WorkersOk(Step(s, a, c).value, c.projectors)
  {
    hide RecordFailure, Advance, Rewind, Requeue, Due, Filter, Increasing, Covers, LogOk, RowsOk, Read, WorkerOk;
    var t := Step(s, a, c).value;
    StepExtends(s, a, c);
    forall w | w in t.workers ensures t.workers[w].projector in c.projectors && WorkerOk(t, t.workers[w]) {
      if NoWorker(a) || a.worker != w {
        WorkerStays(s, t, s.workers[w]);
      } else {
        ActingWorkerOk(s, a, c, w);
      }
    }
  }

  lemma {:induction false} RunKeeps(s: System, actions: seq<Action>, c: Config)
    requires Inv(s, c) && Run(s, actions, c).Some?
    ensures Inv(Run(s, actions, c).value, c)
    decreases |actions|
  {
    if actions != [] {
      hide Step, LogOk, RowsOk, WorkersOk;
      StepKeepsLog(s, actions[0], c);
      StepKeepsRows(s, actions[0], c);
      StepKeepsWorkers(s, actions[0], c);
      RunKeeps(Step(s, actions[0], c).value, actions[1..], c);
    }
  }

  lemma StartInv(c: Config)
    ensures Inv(START, c)
  {
  }

  /**
   * Delivery never skips: whatever crashed, was requeued, rewound or trimmed on the way, and however many
   * hosts delivered at once, every event at or below a projector's cursor has been in a batch that
   * the projector accepted, and every event that is gone from the log has been accepted by every projector.
   */
  lemma DeliveryNeverSkips(actions: seq<Action>, c: Config, p: Projector, x: int)
    requires Run(START, actions, c).Some? && p in c.projectors && x in Run(START, actions, c).value.appended
    requires x <= RowOf(Run(START, actions, c).value.table, p).cursor || x !in Run(START, actions, c).value.log
    ensures (p, x) in Run(START, actions, c).value.projected
  {
    hide Run, Increasing;
    StartInv(c);
    RunKeeps(START, actions, c);
    RowIsProjected(Run(START, actions, c).value, p, c);
  }

  // ---------------------------------------------------------------- dead letters

  predicate RowCounted(s: System, p: Projector, o: Policy) {
    var row := RowOf(s.table, p);
    row.attempts <= FailuresOf(s, p) && (row.state == DeadLetter ==> row.attempts >= o.maxAttempts)
  }

  predicate WorkerCounted(s: System, w: Worker) {
    w.status.attempts <= FailuresOf(s, w.projector)
  }

  ghost predicate RowsCounted(s: System, c: Config) {
    forall p :: RowCounted(s, p, c.policy)
  }

  ghost predicate OneEach(s: System) {
    forall v, w :: v in s.workers && w in s.workers && s.workers[v].projector == s.workers[w].projector ==> v == w
  }

  ghost predicate Counted(s: System, c: Config) {
    && (forall p :: RowCounted(s, p, c.policy)) && OneEach(s)
    && forall w :: w in s.workers ==> WorkerCounted(s, s.workers[w])
  }

  /** A step moves at most its own worker, which keeps its projector, and counts only for that projector. */
  ghost predicate OneMoves(s: System, t: System, w: nat) {
    && (forall v :: v != w ==> (v in t.workers <==> v in s.workers) && (v in s.workers ==> t.workers[v] == s.workers[v]))
    && (w in s.workers && w in t.workers ==> t.workers[w].projector == s.workers[w].projector)
    && CountsOnlyFor(s, t, w)
  }

  ghost predicate CountsOnlyFor(s: System, t: System, w: nat) {
    (forall p :: (w in s.workers ==> p != s.workers[w].projector) ==> FailuresOf(t, p) == FailuresOf(s, p))
  }

  lemma StepCountsOnlyFor(s: System, a: Action, c: Config)
    requires Step(s, a, c).Some? && !NoWorker(a)
    ensures CountsOnlyFor(s, Step(s, a, c).value, a.worker)
  {
    hide RecordFailure, Advance, Rewind, Requeue, Read, Due, IdleStatus, Filter, Increasing, Covers, AppendStep;
  }

  lemma StepMovesOne(s: System, a: Action, c: Config)
    requires Step(s, a, c).Some? && !NoWorker(a)
    ensures OneMoves(s, Step(s, a, c).value, a.worker)
    ensures a.Begin? || a.worker in s.workers
  {
    hide Step;
    StepCountsOnlyFor(s, a, c);
    OthersStand(s, a, c);
  }

  lemma OthersStand(s: System, a: Action, c: Config)
    requires Step(s, a, c).Some? && !NoWorker(a)
    ensures var t := Step(s, a, c).value;
            && (forall v :: v != a.worker ==> (v in t.workers <==> v in s.workers) && (v in s.workers ==> t.workers[v] == s.workers[v]))
            && (a.worker in s.workers && a.worker in t.workers ==> t.workers[a.worker].projector == s.workers[a.worker].projector)
    ensures a.Begin? || a.worker in s.workers
  {
    hide RecordFailure, Advance, Rewind, Requeue, Read, Due, IdleStatus, Filter, Increasing, Covers, AppendStep, FailuresOf, RecentOf, RowOf;
  }

  lemma StepMovesNone(s: System, a: Action, c: Config)
    requires Step(s, a, c).Some? && NoWorker(a)
    ensures Step(s, a, c).value.workers == s.workers && Step(s, a, c).value.failures == s.failures
  {
    hide Requeue, Filter, Increasing, Covers;
  }

  lemma StepKeepsOneEach(s: System, a: Action, c: Config)
    requires c.exclusive && OneEach(s) && Step(s, a, c).Some?
    ensures OneEach(Step(s, a, c).value)
  {
    if NoWorker(a) {
      StepMovesNone(s, a, c);
    } else {
      StepMovesOne(s, a, c);
      if !a.Begin? {
        hide Step;
      }
    }
  }

  /** The step writes the row of this projector. */
  predicate WritesRow(s: System, a: Action, p: Projector) {
    || (a.RequeueRow? && a.projector == p)
    || ((a.Initialize? || a.SaveCursor? || a.SaveFailure?) && a.worker in s.workers && s.workers[a.worker].projector == p)
  }

  predicate SameRow(s: System, t: System, p: Projector) {
    RowOf(t.table, p) == RowOf(s.table, p) && RecentOf(t, p) == RecentOf(s, p) && FailuresOf(t, p) == FailuresOf(s, p)
  }

  lemma WriteSparesProjectors(s: System, a: Action, c: Config, p: Projector)
    requires Step(s, a, c).Some? && !WritesRow(s, a, p)
    requires a.Initialize? || a.SaveCursor? || a.SaveFailure? || a.RequeueRow?
    ensures SameRow(s, Step(s, a, c).value, p)
  {
    hide Read, ReadStep, ProjectStep, BeginStep, AppendStep, Filter, Covers, RetryDelay, IdleStatus, Due, Increasing, Delivering;
  }

  /** A step leaves the rows and counts of other projectors alone. */
  lemma StepSparesProjectors(s: System, a: Action, c: Config, p: Projector)
    requires Step(s, a, c).Some? && !WritesRow(s, a, p)
    ensures SameRow(s, Step(s, a, c).value, p)
  {
    if a.Initialize? || a.SaveCursor? || a.SaveFailure? || a.RequeueRow? {
      WriteSparesProjectors(s, a, c, p);
    } else {
      hide InitializeStep, SaveCursorStep, SaveFailureStep, AppendStep, BeginStep, ReadStep, ProjectStep, Filter, Covers;
      assert SameRows(s, Step(s, a, c).value);
    }
  }

  /** A failure that counts on from attempts since forgotten, at a place the row has not passed. */
  predicate StaleFailure(s: System, a: Action) {
    && a.SaveFailure? && a.worker in s.workers && s.workers[a.worker].Failing?
    && var Failing(p, status, failedSeq) := s.workers[a.worker];
       !(p in s.table && s.table[p].cursor >= failedSeq) && status.attempts > FailuresOf(s, p)
  }

  lemma StepKeepsRowCounted(s: System, a: Action, c: Config, p: Projector)
    requires RowCounted(s, p, c.policy) && Step(s, a, c).Some? && !StaleFailure(s, a)
    ensures RowCounted(Step(s, a, c).value, p, c.policy)
  {
    if WritesRow(s, a, p) {
      WrittenRowCounted(s, a, c, p);
    } else {
      StepSparesProjectors(s, a, c, p);
      hide Step;
    }
  }

  lemma WrittenRowCounted(s: System, a: Action, c: Config, p: Projector)
    requires RowCounted(s, p, c.policy) && Step(s, a, c).Some? && WritesRow(s, a, p) && !StaleFailure(s, a)
    ensures RowCounted(Step(s, a, c).value, p, c.policy)
  {
    hide Read, Filter, Increasing, Covers, RetryDelay, Due, AppendStep, ReadStep, ProjectStep, BeginStep;
  }

  lemma StaleMiscounts(s: System, a: Action, c: Config)
    requires Step(s, a, c).Some? && StaleFailure(s, a)
    ensures !RowCounted(Step(s, a, c).value, s.workers[a.worker].projector, c.policy)
  {
    hide Read, Filter, Increasing, Covers, RetryDelay, Due, AppendStep, ReadStep, ProjectStep, BeginStep;
  }

  /** Every row's attempts have been failures since its last acceptance or rewind, at every point of the run. */
  ghost predicate CountedThroughout(s: System, actions: seq<Action>, c: Config)
    decreases |actions|
  {
    && RowsCounted(s, c)
    && (actions != [] && Step(s, actions[0], c).Some? ==> CountedThroughout(Step(s, actions[0], c).value, actions[1..], c))
  }

  predicate NeverStale(s: System, actions: seq<Action>, c: Config)
    decreases |actions|
  {
    actions != [] ==>
      && !StaleFailure(s, actions[0])
      && (Step(s, actions[0], c).Some? ==> NeverStale(Step(s, actions[0], c).value, actions[1..], c))
  }

  lemma {:induction false} CountedIff(s: System, actions: seq<Action>, c: Config)
    requires RowsCounted(s, c) && Run(s, actions, c).Some?
    ensures CountedThroughout(s, actions, c) <==> NeverStale(s, actions, c)
    decreases |actions|
  {
    if actions != [] {
      hide Step, RowCounted, StaleFailure;
      var a, t := actions[0], Step(s, actions[0], c).value;
      if StaleFailure(s, a) {
        StaleMiscounts(s, a, c);
        var p := s.workers[a.worker].projector;
        assert !RowCounted(t, p, c.policy);
        assert !RowsCounted(t, c);
      } else {
        forall p ensures RowCounted(t, p, c.policy) {
          StepKeepsRowCounted(s, a, c, p);
        }
        CountedIff(t, actions[1..], c);
      }
    }
  }

  /**
   * Exactly when attempts are honest, with any number of hosts: throughout a run every row's attempts
   * are failures since its last acceptance or rewind if and only if no delivery records a failure past
   * the cursor on top of more attempts than that.
   */
  lemma CountedIffNeverStale(actions: seq<Action>, c: Config)
    requires Run(START, actions, c).Some?
    ensures CountedThroughout(START, actions, c) <==> NeverStale(START, actions, c)
  {
    hide Run, CountedThroughout, NeverStale;
    assert RowsCounted(START, c);
    CountedIff(START, actions, c);
  }

  lemma {:induction false} RunKeepsRowsCounted(s: System, actions: seq<Action>, c: Config)
    requires Run(s, actions, c).Some? && CountedThroughout(s, actions, c)
    ensures RowsCounted(Run(s, actions, c).value, c)
    decreases |actions|
  {
    if actions != [] {
      hide Step, RowsCounted;
      RunKeepsRowsCounted(Step(s, actions[0], c).value, actions[1..], c);
    }
  }

  lemma BeginCounted(s: System, a: Action, c: Config, w: nat)
    requires a.Begin? && Step(s, a, c).Some? && w in Step(s, a, c).value.workers && RowCounted(s, a.projector, c.policy)
    requires w in s.workers ==> WorkerCounted(s, s.workers[w])
    ensures WorkerCounted(Step(s, a, c).value, Step(s, a, c).value.workers[w])
  {
  }

  /** A step of another delivery, or of no delivery, leaves a worker and its projector's count alone. */
  lemma OthersKeepCount(s: System, a: Action, c: Config, w: nat)
    requires c.exclusive && OneEach(s) && Step(s, a, c).Some? && w in s.workers && WorkerCounted(s, s.workers[w])
    requires NoWorker(a) || a.worker != w
    ensures var t := Step(s, a, c).value; w in t.workers && WorkerCounted(t, t.workers[w])
  {
    hide Step;
    if NoWorker(a) {
      StepMovesNone(s, a, c);
    } else {
      StepMovesOne(s, a, c);
    }
  }

  /** A worker's own step sets its attempts and its projector's count together. */
  lemma OwnStepKeepsCount(s: System, a: Action, c: Config, w: nat)
    requires Step(s, a, c).Some? && w in s.workers && WorkerCounted(s, s.workers[w]) && w in Step(s, a, c).value.workers
    requires !NoWorker(a) && a.worker == w
    ensures WorkerCounted(Step(s, a, c).value, Step(s, a, c).value.workers[w])
  {
    hide RecordFailure, Advance, Rewind, Requeue, Read, Filter, Increasing, Covers, Due;
  }

  lemma StepKeepsWorkerCounted(s: System, a: Action, c: Config, w: nat)
    requires c.exclusive && Counted(s, c) && Step(s, a, c).Some? && w in Step(s, a, c).value.workers
    ensures WorkerCounted(Step(s, a, c).value, Step(s, a, c).value.workers[w])
  {
    if a.Begin? && a.worker == w {
      assert RowCounted(s, a.projector, c.policy);
      BeginCounted(s, a, c, w);
    } else {
      hide Step, RowCounted, WorkerCounted;
      if NoWorker(a) {
        StepMovesNone(s, a, c);
      } else {
        StepMovesOne(s, a, c);
      }
      assert w in s.workers && WorkerCounted(s, s.workers[w]);
      if NoWorker(a) || a.worker != w {
        OthersKeepCount(s, a, c, w);
      } else {
        OwnStepKeepsCount(s, a, c, w);
      }
    }
  }

  lemma StepKeepsCounted(s: System, a: Action, c: Config)
    requires c.exclusive && Counted(s, c) && Step(s, a, c).Some?
    ensures Counted(Step(s, a, c).value, c)
  {
    hide Step, RowCounted, WorkerCounted, OneEach;
    StepKeepsOneEach(s, a, c);
    CountedIsNotStale(s, a, c);
    forall p ensures RowCounted(Step(s, a, c).value, p, c.policy) {
      StepKeepsRowCounted(s, a, c, p);
    }
    forall w | w in Step(s, a, c).value.workers ensures WorkerCounted(Step(s, a, c).value, Step(s, a, c).value.workers[w]) {
      StepKeepsWorkerCounted(s, a, c, w);
    }
  }

  lemma CountedIsNotStale(s: System, a: Action, c: Config)
    requires Counted(s, c)
    ensures !StaleFailure(s, a)
  {
    if a.SaveFailure? && a.worker in s.workers {
      assert WorkerCounted(s, s.workers[a.worker]);
    }
  }

  /** One host's semaphore keeps failures from being stale. */
  lemma {:induction false} ExclusiveIsNeverStale(s: System, actions: seq<Action>, c: Config)
    requires c.exclusive && Counted(s, c)
    ensures NeverStale(s, actions, c)
    decreases |actions|
  {
    if actions != [] {
      hide Step, Counted, StaleFailure;
      CountedIsNotStale(s, actions[0], c);
      if Step(s, actions[0], c).Some? {
        StepKeepsCounted(s, actions[0], c);
        ExclusiveIsNeverStale(Step(s, actions[0], c).value, actions[1..], c);
      }
    }
  }

  /**
   * With one delivery at a time, or without stale failures, a projector is dead-lettered only after
   * `maxAttempts` failed deliveries with no accepted batch between them, whatever requeues there were.
   */
  lemma DeadLetterOnlyAfterMaxAttempts(actions: seq<Action>, c: Config, p: Projector)
    requires c.exclusive || NeverStale(START, actions, c)
    requires Run(START, actions, c).Some? && RowOf(Run(START, actions, c).value.table, p).state == DeadLetter
    ensures FailuresOf(Run(START, actions, c).value, p) >= c.policy.maxAttempts
  {
    hide Run, NeverStale, CountedThroughout;
    if c.exclusive {
      assert Counted(START, c);
      ExclusiveIsNeverStale(START, actions, c);
    }
    CountedIffNeverStale(actions, c);
    RunKeepsRowsCounted(START, actions, c);
    assert RowCounted(Run(START, actions, c).value, p, c.policy);
  }

  // ---------------------------------------------------------------- exactly when, with requeues

  predicate RowExact(s: System, p: Projector, o: Policy) {
    var row := RowOf(s.table, p);
    row.attempts == RecentOf(s, p) && (row.state == DeadLetter <==> RecentOf(s, p) >= o.maxAttempts)
  }

  /**
   * The delivery's copy agrees with its row, except on attempts once its batch is accepted, and what it
   * holds lies past the cursor.
   */
  predicate WorkerExact(s: System, w: Worker) {
    var row := RowOf(s.table, w.projector);
    && w.status.cursor == row.cursor && (w.Advancing? || w.status.attempts == row.attempts) && row.state != DeadLetter
    && match w
       case Projecting(_, status, events) => forall x :: x in events ==> x > status.cursor
       case Advancing(_, status, last) => last > status.cursor
       case Failing(_, status, failedSeq) => failedSeq > status.cursor
       case _ => true
  }

  ghost predicate Exact(s: System, c: Config) {
    && (forall p :: RowExact(s, p, c.policy)) && OneEach(s)
    && forall w :: w in s.workers ==> WorkerExact(s, s.workers[w])
  }

  lemma StepKeepsRowExact(s: System, a: Action, c: Config, p: Projector)
    requires c.policy.maxAttempts > 0 && RowExact(s, p, c.policy) && Step(s, a, c).Some?
    requires forall w :: w in s.workers ==> WorkerExact(s, s.workers[w])
    ensures RowExact(Step(s, a, c).value, p, c.policy)
  {
    if WritesRow(s, a, p) && !a.RequeueRow? {
      assert WorkerExact(s, s.workers[a.worker]);
      OwnRowExact(s, a, c);
    } else if a.RequeueRow? && a.projector == p {
      hide Read, Filter;
    } else {
      StepSparesProjectors(s, a, c, p);
      hide Step;
    }
  }

  lemma OwnRowExact(s: System, a: Action, c: Config)
    requires c.policy.maxAttempts > 0 && Step(s, a, c).Some? && (a.Initialize? || a.SaveCursor? || a.SaveFailure?)
    requires RowExact(s, s.workers[a.worker].projector, c.policy) && WorkerExact(s, s.workers[a.worker])
    ensures RowExact(Step(s, a, c).value, s.workers[a.worker].projector, c.policy)
  {
    hide Read, Filter, Increasing, Covers, RetryDelay, Due, AppendStep;
  }

  lemma BeginExact(s: System, a: Action, c: Config)
    requires a.Begin? && Step(s, a, c).Some? && a.worker in Step(s, a, c).value.workers
    ensures WorkerExact(Step(s, a, c).value, Step(s, a, c).value.workers[a.worker])
  {
    hide Read, Filter, Increasing, Covers, RetryDelay, RecordFailure;
  }

  lemma InitializeExact(s: System, w: nat, ok: bool, position: Option<int>, now: int)
    requires w in s.workers && s.workers[w].Initializing? && WorkerExact(s, s.workers[w])
    ensures WorkerExact(InitializeStep(s, w, ok, position, now), InitializeStep(s, w, ok, position, now).workers[w])
  {
  }

  lemma ReadExact(s: System, w: nat, limit: nat)
    requires w in s.workers && s.workers[w].Reading? && WorkerExact(s, s.workers[w]) && w in ReadStep(s, w, limit).workers
    ensures WorkerExact(ReadStep(s, w, limit), ReadStep(s, w, limit).workers[w])
  {
  }

  lemma ProjectExact(s: System, w: nat, ok: bool)
    requires w in s.workers && s.workers[w].Projecting? && WorkerExact(s, s.workers[w]) && ProjectStep(s, w, ok).Some?
    ensures WorkerExact(ProjectStep(s, w, ok).value, ProjectStep(s, w, ok).value.workers[w])
  {
    var events := s.workers[w].events;
    assert events[0] in events && events[|events| - 1] in events;
  }

  lemma SaveCursorExact(s: System, w: nat, now: int)
    requires w in s.workers && s.workers[w].Advancing? && WorkerExact(s, s.workers[w])
    ensures WorkerExact(SaveCursorStep(s, w, now), SaveCursorStep(s, w, now).workers[w])
  {
  }

  lemma OwnWorkerExact(s: System, a: Action, c: Config)
    requires Step(s, a, c).Some? && !NoWorker(a) && !a.Begin? && a.worker in s.workers && WorkerExact(s, s.workers[a.worker])
    requires a.worker in Step(s, a, c).value.workers
    ensures WorkerExact(Step(s, a, c).value, Step(s, a, c).value.workers[a.worker])
  {
    hide InitializeStep, ReadStep, ProjectStep, SaveCursorStep, WorkerExact, Filter, Covers;
    match a
    case Initialize(w, ok, position, now) => InitializeExact(s, w, ok, position, now);
    case ReadNext(w) => ReadExact(s, w, c.policy.batchSize);
    case Project(w, ok) => ProjectExact(s, w, ok);
    case SaveCursor(w, now) => SaveCursorExact(s, w, now);
    case _ =>
  }

  /** No delivery of `p` would write attempts back: its copy has none, or its batch is accepted. */
  predicate Harmless(s: System, p: Projector) {
    forall w :: w in s.workers && s.workers[w].projector == p ==> s.workers[w].Advancing? || s.workers[w].status.attempts == 0
  }

  predicate RequeuesHarmless(s: System, actions: seq<Action>, c: Config)
    decreases |actions|
  {
    actions != [] ==>
      && (actions[0].RequeueRow? ==> Harmless(s, actions[0].projector))
      && (Step(s, actions[0], c).Some? ==> RequeuesHarmless(Step(s, actions[0], c).value, actions[1..], c))
  }

  lemma RequeueExact(s: System, p: Projector, now: int, w: nat)
    requires w in s.workers && WorkerExact(s, s.workers[w]) && (s.workers[w].projector == p ==> Harmless(s, p))
    ensures WorkerExact(s.(table := Requeue(s.table, p, now), recent := s.recent[p := 0]), s.workers[w])
  {
  }

  lemma StepKeepsWorkerExact(s: System, a: Action, c: Config, w: nat)
    requires c.exclusive && c.policy.maxAttempts > 0 && Exact(s, c) && Step(s, a, c).Some?
    requires a.RequeueRow? ==> Harmless(s, a.projector)
    requires w in Step(s, a, c).value.workers
    ensures WorkerExact(Step(s, a, c).value, Step(s, a, c).value.workers[w])
  {
    var t := Step(s, a, c).value;
    if a.Begin? && a.worker == w {
      assert RowExact(s, a.projector, c.policy);
      BeginExact(s, a, c);
    } else if !NoWorker(a) && a.worker == w {
      StepMovesOne(s, a, c);
      assert WorkerExact(s, s.workers[w]);
      OwnWorkerExact(s, a, c);
    } else {
      SameWorker(s, a, c, w);
      assert WorkerExact(s, s.workers[w]);
      if a.RequeueRow? {
        RequeueExact(s, a.projector, a.now, w);
      } else {
        StepSparesProjectors(s, a, c, s.workers[w].projector);
      }
    }
  }

  /** A step of no delivery or another's leaves this one where it is; only a requeue may write its projector's row. */
  lemma SameWorker(s: System, a: Action, c: Config, w: nat)
    requires c.exclusive && OneEach(s) && Step(s, a, c).Some? && w in Step(s, a, c).value.workers
    requires NoWorker(a) || a.worker != w
    ensures w in s.workers && Step(s, a, c).value.workers[w] == s.workers[w]
    ensures a.RequeueRow? || !WritesRow(s, a, s.workers[w].projector)
  {
    hide Step;
    if NoWorker(a) {
      StepMovesNone(s, a, c);
    } else {
      StepMovesOne(s, a, c);
    }
  }

  lemma StepKeepsExact(s: System, a: Action, c: Config)
    requires c.exclusive && c.policy.maxAttempts > 0 && Exact(s, c) && Step(s, a, c).Some?
    requires a.RequeueRow? ==> Harmless(s, a.projector)
    ensures Exact(Step(s, a, c).value, c)
  {
    hide Step, RowExact, WorkerExact, OneEach;
    StepKeepsOneEach(s, a, c);
    forall p ensures RowExact(Step(s, a, c).value, p, c.policy) {
      StepKeepsRowExact(s, a, c, p);
    }
    forall w | w in Step(s, a, c).value.workers ensures WorkerExact(Step(s, a, c).value, Step(s, a, c).value.workers[w]) {
      StepKeepsWorkerExact(s, a, c, w);
    }
  }

  lemma {:induction false} RunKeepsExact(s: System, actions: seq<Action>, c: Config)
    requires c.exclusive && c.policy.maxAttempts > 0 && Exact(s, c) && Run(s, actions, c).Some?
    requires RequeuesHarmless(s, actions, c)
    ensures Exact(Run(s, actions, c).value, c)
    decreases |actions|
  {
    if actions != [] {
      hide Step, Exact, Harmless;
      StepKeepsExact(s, actions[0], c);
      RunKeepsExact(Step(s, actions[0], c).value, actions[1..], c);
    }
  }

  /**
   * With one delivery at a time and only harmless requeues, a row counts exactly the failures since the
   * last accepted batch, rewind or requeue, and is a dead letter if and only if they reach `maxAttempts`.
   */
  lemma DeadLetterIffMaxAttempts(actions: seq<Action>, c: Config, p: Projector)
    requires c.exclusive && c.policy.maxAttempts > 0 && Run(START, actions, c).Some? && RequeuesHarmless(START, actions, c)
    ensures var s := Run(START, actions, c).value;
            && RowOf(s.table, p).attempts == RecentOf(s, p)
            && (RowOf(s.table, p).state == DeadLetter <==> RecentOf(s, p) >= c.policy.maxAttempts)
  {
    hide Run;
    assert Exact(START, c);
    RunKeepsExact(START, actions, c);
    assert RowExact(Run(START, actions, c).value, p, c.policy);
  }

  /** No requeue comes during a delivery of its projector. */
  predicate RequeuesQuiet(s: System, actions: seq<Action>, c: Config)
    decreases |actions|
  {
    actions != [] ==>
      && (actions[0].RequeueRow? ==> !Delivering(s, actions[0].projector))
      && (Step(s, actions[0], c).Some? ==> RequeuesQuiet(Step(s, actions[0], c).value, actions[1..], c))
  }

  lemma {:induction false} QuietIsHarmless(s: System, actions: seq<Action>, c: Config)
    requires RequeuesQuiet(s, actions, c)
    ensures RequeuesHarmless(s, actions, c)
    decreases |actions|
  {
    if actions != [] {
      hide Step;
      if Step(s, actions[0], c).Some? {
        QuietIsHarmless(Step(s, actions[0], c).value, actions[1..], c);
      }
    }
  }

  // ---------------------------------------------------------------- exactly which requeues count from zero

  /** From here on `p` is counted exactly, whatever happens, as long as further requeues are harmless. */
  ghost predicate CountsOn(s: System, p: Projector, c: Config) {
    forall after :: Run(s, after, c).Some? && RequeuesHarmless(s, after, c) ==> RowExact(Run(s, after, c).value, p, c.policy)
  }

  lemma RunCons(s: System, a: Action, t: System, rest: seq<Action>, c: Config)
    requires Step(s, a, c) == Some(t)
    ensures Run(s, [a] + rest, c) == Run(t, rest, c)
  {
    assert ([a] + rest)[1..] == rest;
  }

  /** The delivery can still fail past the cursor of its projector's row. */
  predicate MayFail(s: System, w: nat) {
    && w in s.workers && !s.workers[w].Advancing?
    && var status, cursor := s.workers[w].status, RowOf(s.table, s.workers[w].projector).cursor;
       && status.cursor == cursor <= s.tail
       && match s.workers[w]
          case Projecting(_, _, events) => events != [] && events[0] > cursor
          case Failing(_, _, failedSeq) => failedSeq > cursor
          case _ => true
  }

  /** How many steps from a recorded failure a delivery is. */
  function Distance(s: System, w: nat, c: Config): nat
    requires w in s.workers
  {
    match s.workers[w]
    case Reading(_, status) => if Read(s.log, status.cursor + 1, c.policy.batchSize) == [] then 4 else 3
    case Projecting(_, _, _) => 2
    case Initializing(_, _) => 2
    case _ => 1
  }

  predicate NoRequeues(actions: seq<Action>) {
    forall a :: a in actions ==> !a.RequeueRow?
  }

  /** The step that takes a delivery which may fail nearer to its failure. */
  function TowardsFailure(s: System, w: nat, c: Config): Action
    requires MayFail(s, w)
  {
    match s.workers[w]
    case Initializing(_, _) => Initialize(w, false, None, 0)
    case Reading(_, status) => if Read(s.log, status.cursor + 1, c.policy.batchSize) == [] then Append([s.tail + 1]) else ReadNext(w)
    case Projecting(_, _, _) => Project(w, false)
    case _ => SaveFailure(w, "", 0)
  }

  lemma NearerToFailure(s: System, w: nat, c: Config)
    requires MayFail(s, w) && !s.workers[w].Failing? && c.policy.batchSize > 0
    ensures var a := TowardsFailure(s, w, c);
            && Step(s, a, c).Some? && !a.RequeueRow?
            && var t := Step(s, a, c).value;
               && MayFail(t, w) && Distance(t, w, c) < Distance(s, w, c) && SameRows(s, t)
               && t.workers[w].projector == s.workers[w].projector && t.workers[w].status == s.workers[w].status
  {
    hide RecordFailure, RetryDelay, Covers, Filter;
    if s.workers[w].Reading? {
      var from := s.workers[w].status.cursor + 1;
      if Read(s.log, from, c.policy.batchSize) == [] {
        assert s.tail + 1 in Filter(s.log + [s.tail + 1], AtLeast(from));
      } else {
        var events := Read(s.log, from, c.policy.batchSize);
        assert events[0] in Filter(s.log, AtLeast(from));
      }
    }
  }

  lemma {:induction false} CanStillFail(s: System, w: nat, c: Config) returns (after: seq<Action>)
    requires MayFail(s, w) && c.policy.batchSize > 0
    ensures Run(s, after, c).Some? && NoRequeues(after)
    ensures var t, p := Run(s, after, c).value, s.workers[w].projector;
            RowOf(t.table, p).attempts == s.workers[w].status.attempts + 1 && RecentOf(t, p) == RecentOf(s, p) + 1
    decreases Distance(s, w, c)
  {
    var a := TowardsFailure(s, w, c);
    if s.workers[w].Failing? {
      hide RetryDelay, Filter, Covers;
      after := [a] + [];
      RunCons(s, a, Step(s, a, c).value, [], c);
    } else {
      hide Step, MayFail, TowardsFailure, Distance;
      NearerToFailure(s, w, c);
      var rest := CanStillFail(Step(s, a, c).value, w, c);
      after := [a] + rest;
      RunCons(s, a, Step(s, a, c).value, rest, c);
    }
  }

  lemma {:induction false} NoRequeuesAreHarmless(s: System, actions: seq<Action>, c: Config)
    requires NoRequeues(actions)
    ensures RequeuesHarmless(s, actions, c)
    decreases |actions|
  {
    if actions != [] {
      hide Step;
      assert actions[0] in actions && forall a :: a in actions[1..] ==> a in actions;
      if Step(s, actions[0], c).Some? {
        NoRequeuesAreHarmless(Step(s, actions[0], c).value, actions[1..], c);
      }
    }
  }

  lemma RequeuedMayFail(s: System, p: Projector, now: int, w: nat, c: Config)
    requires Inv(s, c) && Exact(s, c) && w in s.workers && s.workers[w].projector == p && !s.workers[w].Advancing?
    ensures MayFail(s.(table := Requeue(s.table, p, now), recent := s.recent[p := 0]), w)
  {
    hide Increasing, OneEach, LogOk, RowsOk, RowExact;
    assert WorkerOk(s, s.workers[w]) && WorkerExact(s, s.workers[w]);
    if s.workers[w].Projecting? {
      assert s.workers[w].events[0] in s.workers[w].events;
    }
  }

  lemma HarmfulRequeueMiscounts(s: System, p: Projector, now: int, w: nat, c: Config)
    requires Inv(s, c) && Exact(s, c) && c.policy.batchSize > 0 && w in s.workers && s.workers[w].projector == p
    requires !s.workers[w].Advancing? && s.workers[w].status.attempts > 0
    ensures !CountsOn(s.(table := Requeue(s.table, p, now), recent := s.recent[p := 0]), p, c)
  {
    var t := s.(table := Requeue(s.table, p, now), recent := s.recent[p := 0]);
    RequeuedMayFail(s, p, now, w, c);
    var after := CanStillFail(t, w, c);
    NoRequeuesAreHarmless(t, after, c);
    hide Requeue, Inv, Exact, RequeuesHarmless;
    assert !RowExact(Run(t, after, c).value, p, c.policy);
  }

  /**
   * Exactly which requeues start the count again. In a state that a run reaches with its counts exact, a
   * requeue of `p` counts from zero in every continuation whose further requeues are harmless if and only
   * if it is harmless itself: no delivery of `p` whose batch is not yet accepted holds a positive count.
   */
  lemma RequeueCountsFromZeroIff(before: seq<Action>, c: Config, p: Projector, now: int)
    requires c.exclusive && c.policy.maxAttempts > 0 && c.policy.batchSize > 0 && p in c.projectors
    requires Run(START, before, c).Some? && Exact(Run(START, before, c).value, c)
    ensures var s := Run(START, before, c).value;
            Step(s, RequeueRow(p, now), c).Some? && (CountsOn(Step(s, RequeueRow(p, now), c).value, p, c) <==> Harmless(s, p))
  {
    var s := Run(START, before, c).value;
    var t := Step(s, RequeueRow(p, now), c).value;
    assert t == s.(table := Requeue(s.table, p, now), recent := s.recent[p := 0]);
    StartInv(c);
    RunKeeps(START, before, c);
    hide Run, Step, Inv, Exact, RequeuesHarmless;
    if Harmless(s, p) {
      StepKeepsExact(s, RequeueRow(p, now), c);
      forall after | Run(t, after, c).Some? && RequeuesHarmless(t, after, c) ensures RowExact(Run(t, after, c).value, p, c.policy) {
        RunKeepsExact(t, after, c);
        ExactRow(Run(t, after, c).value, p, c);
      }
    } else {
      var w :| w in s.workers && s.workers[w].projector == p && !s.workers[w].Advancing? && s.workers[w].status.attempts > 0;
      HarmfulRequeueMiscounts(s, p, now, w, c);
    }
  }

  lemma ExactRow(s: System, p: Projector, c: Config)
    requires Exact(s, c)
    ensures RowExact(s, p, c.policy)
  {
  }
}

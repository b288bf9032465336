/** The mailbox of an agent session: one turn at a time, with messages queued, held or steered into it. */
module AgentSession {
  import opened Common

  type MessageId = string
  type ThreadId = string

  datatype Delivery = Steer | FollowUp | NextTurn

  datatype Message = Message(id: MessageId, text: string, delivery: Option<Delivery>, steeredInto: Option<MessageId>)

  datatype Turn = Turn(id: MessageId, child: ThreadId, text: string)

  datatype Status = Completed | Failed | Cancelled

  datatype Closure = Closure(id: MessageId, status: Status, error: Option<string>)

  datatype Session = Session(
    pending: seq<Message>, held: seq<Message>, processed: seq<MessageId>, active: Option<Turn>,
    steers: seq<Message>, closures: seq<Closure>, lastSequence: nat,
    idleTimeoutMs: int, idleDeadlineAt: Option<int>, parked: bool, cancelling: bool)

  /** The events the session reacts to, decoded. A message that does not decode is absent. */
  datatype Event =
    | Started(input: Option<Message>, ts: int)
    | Submitted(message: Option<Message>, activeChild: Option<ThreadId>, ts: int)
    | TurnStarted(id: MessageId, child: ThreadId)
    | SteerDelivered(id: MessageId)
    | TurnClosed(id: MessageId)
    | CancelRequested
    | IdleElapsed(deadlineAt: Option<int>)
    | TurnEnded(consumed: seq<MessageId>, status: Status, error: Option<string>, ts: int)
    | Other

  datatype Effect =
    | EmitClosed(closure: Closure)
    | EmitSteered(child: ThreadId, id: MessageId, text: string)
    | EmitSteerDelivered(id: MessageId, into: MessageId)
    | CancelChild(child: ThreadId)
    | SpawnChild(child: ThreadId, text: string)
    | AwaitTurn(id: MessageId, child: ThreadId)
    | EmitTurnStarted(id: MessageId, child: ThreadId)
    | AwaitMailbox
    | AwaitIdle(deadlineAt: int)

  function Initial(idleTimeoutMs: int): Session {
    Session([], [], [], None, [], [], 0, idleTimeoutMs, None, false, false)
  }

  function DeadlineFrom(s: Session, ts: int): Option<int> {
    if s.idleTimeoutMs > 0 then Some(ts + s.idleTimeoutMs) else None
  }

  function Ids(ms: seq<Message>): (r: seq<MessageId>)
    ensures |r| == |ms| && forall i :: 0 <= i < |ms| ==> r[i] == ms[i].id
  {
    seq(|ms|, i requires 0 <= i < |ms| => ms[i].id)
  }

  function ClosureIds(cs: seq<Closure>): set<MessageId> {
    set c | c in cs :: c.id
  }

  function JoinLines(ms: seq<Message>): string {
    if ms == [] then "" else if |ms| == 1 then ms[0].text else ms[0].text + "\n" + JoinLines(ms[1..])
  }

  /** The first message with this id, as a list of at most one. */
  function FindMessage(ms: seq<Message>, id: MessageId): seq<Message> {
    if ms == [] then [] else if ms[0].id == id then [ms[0]] else FindMessage(ms[1..], id)
  }

  /** Steered messages of a turn go back to waiting for one of their own. */
  function Unsteer(ms: seq<Message>, turn: MessageId): (r: seq<Message>)
    ensures Ids(r) == Ids(ms)
    ensures forall i :: 0 <= i < |ms| ==>
                          r[i] == if ms[i].steeredInto == Some(turn) then ms[i].(steeredInto := None) else ms[i]
  {
    seq(|ms|, i requires 0 <= i < |ms| => if ms[i].steeredInto == Some(turn) then ms[i].(steeredInto := None) else ms[i])
  }

  function Distinct(ids: seq<MessageId>): (r: seq<MessageId>)
    ensures forall x :: x in r <==> x in ids
  {
    if ids == [] then [] else
    var rest := Distinct(ids[..|ids| - 1]);
    if ids[|ids| - 1] in rest then rest else rest + [ids[|ids| - 1]]
  }

  function StepSubmitted(s: Session, message: Message, activeChild: Option<ThreadId>, ts: int): Session {
    var next := s.(processed := s.processed + [message.id], idleDeadlineAt := DeadlineFrom(s, ts), parked := false);
    if message.delivery == Some(NextTurn) then next.(held := s.held + [message])
    else
      var queued := if message.delivery == Some(Steer) && s.active.Some? then message.(steeredInto := Some(s.active.value.id))
                    else message;
      next.(pending := s.pending + [queued],
            steers := if NonEmpty(queued.steeredInto) && s.active.Some? && activeChild != Some(s.active.value.child)
                      then s.steers + [queued] else s.steers)
  }

  function StepTurnStarted(s: Session, id: MessageId, child: ThreadId): Session {
    s.(pending := Filter(s.pending, (m: Message) => m.id != id),
       active := Some(Turn(id, child, JoinLines(s.held + FindMessage(s.pending, id)))),
       held := [], lastSequence := s.lastSequence + 1, cancelling := false)
  }

  function ClosuresOf(ids: seq<MessageId>, status: Status, error: Option<string>): seq<Closure> {
    seq(|ids|, i requires 0 <= i < |ids| => Closure(ids[i], status, error))
  }

  function StepTurnEnded(s: Session, turn: Turn, consumed: seq<MessageId>, status: Status, error: Option<string>, ts: int): Session {
    s.(closures := s.closures + ClosuresOf([turn.id] + Distinct(consumed), status, error),
       pending := Unsteer(Filter(s.pending, (m: Message) => m.id !in consumed), turn.id),
       steers := Filter(s.steers, (m: Message) => m.id !in consumed && m.steeredInto != Some(turn.id)),
       active := None, lastSequence := s.lastSequence + 1, cancelling := false, idleDeadlineAt := DeadlineFrom(s, ts))
  }

  /** A decoded message carries no steering mark. */
  function Fresh(m: Message): Message {
    m.(steeredInto := None)
  }

  function Step(s: Session, e: Event): Session {
    match e
    case Started(input, ts) =>
      if input.None? || input.value.id in s.processed then s.(idleDeadlineAt := DeadlineFrom(s, ts))
      else s.(pending := [Fresh(input.value)], processed := [input.value.id], idleDeadlineAt := DeadlineFrom(s, ts))
    case Submitted(message, activeChild, ts) =>
      if message.None? || message.value.id in s.processed then s
      else StepSubmitted(s, Fresh(message.value), activeChild, ts)
    case TurnStarted(id, child) => StepTurnStarted(s, id, child)
    case SteerDelivered(id) => s.(steers := Filter(s.steers, (m: Message) => m.id != id))
    case TurnClosed(id) => s.(closures := Filter(s.closures, (c: Closure) => c.id != id))
    case CancelRequested => if s.active.Some? then s.(cancelling := true) else s
    case IdleElapsed(deadlineAt) =>
      if deadlineAt == s.idleDeadlineAt && s.active.None? then s.(parked := true, idleDeadlineAt := None) else s
    case TurnEnded(consumed, status, error, ts) =>
      if s.active.None? then s else StepTurnEnded(s, s.active.value, consumed, status, error, ts)
    case Other => s
  }

  // ---------------------------------------------------------------- enabled effects

  function CloseEffects(closures: seq<Closure>): seq<Effect> {
    if closures == [] then []
    else CloseEffects(closures[..|closures| - 1]) + [EmitClosed(closures[|closures| - 1])]
  }

  function SteerEffects(steers: seq<Message>, active: Option<Turn>): seq<Effect> {
    if steers == [] then [] else
    var m := steers[|steers| - 1];
    var before := SteerEffects(steers[..|steers| - 1], active);
    if active.None? || m.steeredInto != Some(active.value.id) then before
    else before + [EmitSteered(active.value.child, m.id, m.text), EmitSteerDelivered(m.id, active.value.id)]
  }

  function TurnEffects(s: Session, turn: Turn, defined: bool): seq<Effect> {
    (if s.cancelling then [CancelChild(turn.child)] else if defined then [SpawnChild(turn.child, turn.text)] else [])
    + [AwaitTurn(turn.id, turn.child)]
  }

  /** The first message free to start a turn. */
  function NextUp(ms: seq<Message>): Option<Message> {
    if ms == [] then None else if ms[0].steeredInto.None? then Some(ms[0]) else NextUp(ms[1..])
  }

  function QueueEffects(s: Session, childOf: MessageId -> ThreadId): seq<Effect> {
    match NextUp(s.pending)
    case Some(m) => [EmitTurnStarted(m.id, childOf(m.id))]
    case None =>
      if s.parked || s.idleTimeoutMs == 0 || s.idleDeadlineAt.None? then [AwaitMailbox]
      else [AwaitIdle(s.idleDeadlineAt.value)]
  }

  /** `defined` says whether the session's definition is registered; `childOf` names a turn's thread. */
  function EffectsOf(s: Session, defined: bool, childOf: MessageId -> ThreadId): seq<Effect> {
    CloseEffects(s.closures) + SteerEffects(s.steers, s.active)
    + if s.active.Some? then TurnEffects(s, s.active.value, defined) else QueueEffects(s, childOf)
  }

  /** The enabled effects, pushed one by one. */
  method Effects(s: Session, defined: bool, childOf: MessageId -> ThreadId) returns (effects: seq<Effect>)
    ensures effects == EffectsOf(s, defined, childOf)
  {
    effects := [];
    for i := 0 to |s.closures|
      invariant effects == CloseEffects(s.closures[..i])
    {
      assert s.closures[..i + 1][..i] == s.closures[..i];
      effects := effects + [EmitClosed(s.closures[i])];
    }
    assert s.closures[..|s.closures|] == s.closures;
    for i := 0 to |s.steers|
      invariant effects == CloseEffects(s.closures) + SteerEffects(s.steers[..i], s.active)
    {
      assert s.steers[..i + 1][..i] == s.steers[..i];
      var m := s.steers[i];
      if s.active.None? || m.steeredInto != Some(s.active.value.id) {
        continue;
      }
      effects := effects + [EmitSteered(s.active.value.child, m.id, m.text), EmitSteerDelivered(m.id, s.active.value.id)];
    }
    assert s.steers[..|s.steers|] == s.steers;
    if s.active.Some? {
      if s.cancelling {
        effects := effects + [CancelChild(s.active.value.child)];
      } else if defined {
        effects := effects + [SpawnChild(s.active.value.child, s.active.value.text)];
      }
      return effects + [AwaitTurn(s.active.value.id, s.active.value.child)];
    }
    return effects + QueueEffects(s, childOf);
  }

  // ---------------------------------------------------------------- the session closed into a loop

  /**
   * The session with what became of its messages: absorbed into a started turn, closed, admitted in
   * order; and the messages its running child has been given.
   */
  datatype System = System(
    session: Session, absorbed: set<MessageId>, closed: set<MessageId>, admitted: seq<MessageId>, given: set<MessageId>)

  /**
   * A submission of a steer aimed at a child also gives that child the message. An enabled effect may
   * run; a running turn may end, having consumed some of what its child was given.
   */
  datatype Move =
    | Submit(message: Option<Message>, activeChild: Option<ThreadId>, ts: int)
    | Execute(effect: Effect)
    | Cancel
    | Idle(deadlineAt: Option<int>)
    | End(consumed: seq<MessageId>, status: Status, error: Option<string>, ts: int)

  predicate Gives(s: Session, m: Move) {
    && m.Submit? && m.message.Some? && m.message.value.delivery == Some(Steer)
    && s.active.Some? && m.activeChild == Some(s.active.value.child)
  }

  predicate CanMove(y: System, m: Move, defined: bool, childOf: MessageId -> ThreadId) {
    match m
    case Execute(effect) => effect in EffectsOf(y.session, defined, childOf)
    case End(consumed, _, _, _) => y.session.active.Some? && forall id :: id in consumed ==> id in y.given
    case _ => true
  }

  function Moved(y: System, m: Move): System {
    match m
    case Submit(message, activeChild, ts) =>
      y.(session := Step(y.session, Submitted(message, activeChild, ts)),
         given := if Gives(y.session, m) then y.given + {message.value.id} else y.given)
    case Execute(EmitTurnStarted(id, child)) =>
      y.(session := Step(y.session, TurnStarted(id, child)), admitted := y.admitted + [id],
         absorbed := y.absorbed + set m | m in y.session.held :: m.id)
    case Execute(EmitClosed(c)) => y.(session := Step(y.session, TurnClosed(c.id)), closed := y.closed + {c.id})
    case Execute(EmitSteerDelivered(id, _)) => y.(session := Step(y.session, SteerDelivered(id)))
    case Execute(EmitSteered(_, id, _)) => y.(given := y.given + {id})
    case Execute(_) => y
    case Cancel => y.(session := Step(y.session, CancelRequested))
    case Idle(deadlineAt) => y.(session := Step(y.session, IdleElapsed(deadlineAt)))
    case End(consumed, status, error, ts) =>
      y.(session := Step(y.session, TurnEnded(consumed, status, error, ts)), given := {})
  }

  function Start(idleTimeoutMs: int, input: Option<Message>, ts: int): System {
    System(Step(Initial(idleTimeoutMs), Started(input, ts)), {}, {}, [], {})
  }

  /** The system after moves that can each happen in turn. */
  function Play(y: System, moves: seq<Move>, defined: bool, childOf: MessageId -> ThreadId): Option<System>
    decreases |moves|
  {
    if moves == [] then Some(y)
    else if CanMove(y, moves[0], defined, childOf) then Play(Moved(y, moves[0]), moves[1..], defined, childOf)
    else None
  }

  /** No message already closed, absorbed, held or in its own turn is steered again into the running child. */
  predicate Proper(y: System, m: Move) {
    Gives(y.session, m) && m.message.value.id in y.session.processed ==> m.message.value.id in Ids(y.session.pending)
  }

  predicate AllProper(y: System, moves: seq<Move>)
    decreases |moves|
  {
    moves != [] ==> Proper(y, moves[0]) && AllProper(Moved(y, moves[0]), moves[1..])
  }

  /** A turn that ends consumed only messages still pending. */
  predicate ConsumesPending(y: System, m: Move) {
    m.End? ==> forall id :: id in m.consumed ==> id in Ids(y.session.pending)
  }

  predicate AllConsumePending(y: System, moves: seq<Move>)
    decreases |moves|
  {
    moves != [] ==> ConsumesPending(y, moves[0]) && AllConsumePending(Moved(y, moves[0]), moves[1..])
  }

  // ---------------------------------------------------------------- conservation

  function One(b: bool): nat {
    if b then 1 else 0
  }

  /** In how many places a message id is. */
  function Places(y: System, id: MessageId): nat {
    var s := y.session;
    One(id in Ids(s.pending)) + One(id in Ids(s.held)) + One(s.active.Some? && s.active.value.id == id)
    + One(id in y.absorbed) + One(id in ClosureIds(s.closures)) + One(id in y.closed)
  }

  ghost predicate Conserved(y: System) {
    && (forall id :: Places(y, id) == One(id in y.session.processed))
    && NoRepeats(y.session.processed) && NoRepeats(Ids(y.session.pending)) && NoRepeats(Ids(y.session.held))
    && ClosuresDistinct(y.session.closures)
  }

  predicate NoRepeats(ids: seq<MessageId>) {
    forall i, j :: 0 <= i < j < |ids| ==> ids[i] != ids[j]
  }

  predicate ClosuresDistinct(cs: seq<Closure>) {
    forall i, j :: 0 <= i < j < |cs| ==> cs[i].id != cs[j].id
  }

  /** Steering marks name the running turn, and undelivered steers are queued messages with that mark. */
  predicate SteersLive(s: Session) {
    && (forall m :: m in s.pending && m.steeredInto.Some? ==> s.active.Some? && m.steeredInto == Some(s.active.value.id))
    && (forall m :: m in s.steers ==> m in s.pending && m.steeredInto.Some?)
  }

  predicate Before(order: seq<MessageId>, a: MessageId, b: MessageId) {
    exists i, j :: 0 <= i < j < |order| && order[i] == a && order[j] == b
  }

  /** `ids` appear in `order` in the same order. */
  predicate InOrder(ids: seq<MessageId>, order: seq<MessageId>) {
    && (forall i :: 0 <= i < |ids| ==> ids[i] in order)
    && forall i, j :: 0 <= i < j < |ids| ==> Before(order, ids[i], ids[j])
  }

  ghost predicate Conserving(y: System, moves: seq<Move>)
    decreases |moves|
  {
    Conserved(y) && (moves != [] ==> Conserving(Moved(y, moves[0]), moves[1..]))
  }

  /** What every play keeps: steers belong to the running turn, and the queue is in submission order. */
  ghost predicate Ordered(y: System) {
    && SteersLive(y.session) && NoRepeats(y.session.processed)
    && InOrder(y.admitted + Ids(y.session.pending), y.session.processed)
  }

  ghost predicate Inv(y: System) {
    Conserved(y) && Ordered(y)
  }

  /** The running child has been given pending messages only. */
  predicate GivenPending(y: System) {
    forall id :: id in y.given ==> y.session.active.Some? && id in Ids(y.session.pending)
  }

  lemma {:induction false} CloseEffectsAre(cs: seq<Closure>, e: Effect)
    requires e in CloseEffects(cs)
    ensures e.EmitClosed? && e.closure in cs
  {
    if e in CloseEffects(cs[..|cs| - 1]) {
      CloseEffectsAre(cs[..|cs| - 1], e);
    }
  }

  lemma {:induction false} SteerEffectsAre(steers: seq<Message>, active: Option<Turn>, e: Effect)
    requires e in SteerEffects(steers, active)
    ensures e.EmitSteered? || e.EmitSteerDelivered?
    ensures active.Some? && exists m :: m in steers && m.id == e.id
  {
    if e in SteerEffects(steers[..|steers| - 1], active) {
      SteerEffectsAre(steers[..|steers| - 1], active, e);
    } else {
      assert steers[|steers| - 1] in steers;
    }
  }

  /** What an enabled emission says about the session. */
  lemma EnabledEffectMeans(s: Session, defined: bool, childOf: MessageId -> ThreadId, e: Effect)
    requires e in EffectsOf(s, defined, childOf)
    ensures e.EmitClosed? ==> e.closure in s.closures
    ensures e.EmitSteered? ==> s.active.Some? && exists m :: m in s.steers && m.id == e.id
    ensures e.EmitTurnStarted? ==> s.active.None? && NextUp(s.pending).Some? && NextUp(s.pending).value.id == e.id
  {
    if e in CloseEffects(s.closures) {
      CloseEffectsAre(s.closures, e);
    } else if e in SteerEffects(s.steers, s.active) {
      SteerEffectsAre(s.steers, s.active, e);
    }
  }

  lemma IdsMembers(ms: seq<Message>)
    ensures forall id :: id in Ids(ms) <==> exists m :: m in ms && m.id == id
  {
  }

  lemma AddedLast(ids: seq<MessageId>, order: seq<MessageId>, id: MessageId)
    requires InOrder(ids, order)
    ensures InOrder(ids + [id], order + [id]) && InOrder(ids, order + [id])
  {
    var longer := order + [id];
    forall a, b | Before(order, a, b) ensures Before(longer, a, b) {
      var i, j :| 0 <= i < j < |order| && order[i] == a && order[j] == b;
      assert longer[i] == a && longer[j] == b;
    }
    forall a | a in order ensures Before(longer, a, id) {
      var i :| 0 <= i < |order| && order[i] == a;
      assert longer[i] == a && longer[|order|] == id;
    }
  }

  lemma DropOne(first: seq<MessageId>, x: MessageId, rest: seq<MessageId>, order: seq<MessageId>)
    requires InOrder(first + [x] + rest, order)
    ensures InOrder(first + rest, order)
  {
    var all, fewer := first + [x] + rest, first + rest;
    forall i | 0 <= i < |fewer| ensures fewer[i] == all[if i < |first| then i else i + 1] {
    }
    forall i, j | 0 <= i < j < |fewer| ensures Before(order, fewer[i], fewer[j]) {
      var a, b := if i < |first| then i else i + 1, if j < |first| then j else j + 1;
      assert Before(order, all[a], all[b]);
    }
  }

  /** Dropping messages keeps the order of the rest. */
  lemma {:induction false} FilterKeepsOrder(first: seq<MessageId>, ms: seq<Message>, keep: Message -> bool, order: seq<MessageId>)
    requires InOrder(first + Ids(ms), order)
    ensures InOrder(first + Ids(Filter(ms, keep)), order)
    decreases |ms|
  {
    hide InOrder;
    if ms != [] {
      var x, rest := ms[0].id, Ids(ms[1..]);
      IdsSplit(ms);
      Shifted(first, x, rest);
      if keep(ms[0]) {
        FilterKeepsOrder(first + [x], ms[1..], keep, order);
        IdsSplit(Filter(ms, keep));
        Shifted(first, x, Ids(Filter(ms[1..], keep)));
        assert Filter(ms, keep)[1..] == Filter(ms[1..], keep);
      } else {
        DropOne(first, x, rest, order);
        FilterKeepsOrder(first, ms[1..], keep, order);
      }
    }
  }

  /** A list in the order of a list without repeats has no repeats. */
  lemma OrderedDistinct(ids: seq<MessageId>, order: seq<MessageId>)
    requires InOrder(ids, order) && NoRepeats(order)
    ensures NoRepeats(ids)
  {
  }

  lemma SuffixInOrder(first: seq<MessageId>, ids: seq<MessageId>, order: seq<MessageId>)
    requires InOrder(first + ids, order)
    ensures InOrder(ids, order)
  {
    var all := first + ids;
    assert forall i :: 0 <= i < |ids| ==> ids[i] == all[|first| + i];
  }

  lemma SubmitConserves(y: System, m: Move)
    requires Conserved(y) && m.Submit?
    ensures Conserved(Moved(y, m))
  {
    hide JoinLines, DeadlineFrom;
    var s, t := y.session, Moved(y, m).session;
    if m.message.Some? && m.message.value.id !in s.processed {
      var id := m.message.value.id;
      assert Places(y, id) == 0;
      if m.message.value.delivery == Some(NextTurn) {
        assert Ids(t.held) == Ids(s.held) + [id];
      } else {
        assert Ids(t.pending) == Ids(s.pending) + [id];
      }
    }
  }

  lemma SubmitKeepsOrder(y: System, m: Move)
    requires Ordered(y) && m.Submit?
    ensures Ordered(Moved(y, m))
  {
    hide InOrder, JoinLines, DeadlineFrom;
    var s, t := y.session, Moved(y, m).session;
    if m.message.Some? && m.message.value.id !in s.processed {
      var id := m.message.value.id;
      AddedLast(y.admitted + Ids(s.pending), s.processed, id);
      if m.message.value.delivery != Some(NextTurn) {
        assert Ids(t.pending) == Ids(s.pending) + [id];
        assert y.admitted + Ids(t.pending) == y.admitted + Ids(s.pending) + [id];
      }
    }
  }

  /** Without a running turn nothing is steered, so the head of the queue is next. */
  lemma HeadIsNext(s: Session)
    requires SteersLive(s) && s.active.None? && s.pending != []
    ensures NextUp(s.pending) == Some(s.pending[0])
  {
    assert s.pending[0] in s.pending;
  }

  /** The turn that starts takes the head of the queue, and nothing else. */
  lemma StartTakesHead(s: Session, id: MessageId, child: ThreadId)
    requires NoRepeats(Ids(s.pending)) && s.pending != [] && s.pending[0].id == id
    ensures StepTurnStarted(s, id, child).pending == s.pending[1..]
  {
    var rest := s.pending[1..];
    var keep := (m: Message) => m.id != id;
    forall m | m in rest ensures keep(m) {
      var k :| 0 <= k < |rest| && rest[k] == m;
      assert Ids(s.pending)[k + 1] == m.id && Ids(s.pending)[0] == id;
    }
    FilterAll(rest, keep);
  }

  lemma TurnStartPlaces(y: System, id: MessageId, child: ThreadId, x: MessageId)
    requires Places(y, id) == One(id in y.session.processed) && Places(y, x) == One(x in y.session.processed)
    requires NoRepeats(Ids(y.session.pending)) && y.session.pending != [] && y.session.pending[0].id == id
    requires y.session.active.None?
    ensures Places(Moved(y, Execute(EmitTurnStarted(id, child))), x) == One(x in y.session.processed)
  {
    var s := y.session;
    StartTakesHead(s, id, child);
    assert Ids(s.pending) == [id] + Ids(s.pending[1..]);
    assert NoRepeats(Ids(s.pending)) ==> id !in Ids(s.pending[1..]);
    IdsMembers(s.held);
    assert x in (set m | m in s.held :: m.id) <==> x in Ids(s.held);
  }

  lemma TurnStartLeavesRest(y: System, id: MessageId, child: ThreadId)
    ensures var u := Moved(y, Execute(EmitTurnStarted(id, child)));
            && u.session == StepTurnStarted(y.session, id, child)
            && u.session.held == [] && u.session.processed == y.session.processed && u.session.closures == y.session.closures
            && u.session.steers == y.session.steers && u.session.active.Some?
            && u.closed == y.closed && u.admitted == y.admitted + [id] && u.given == y.given
  {
    hide Filter, FindMessage, JoinLines;
  }

  /** Without a running turn no message is steered and no delivery is owed. */
  lemma NoneSteered(s: Session)
    requires SteersLive(s) && s.active.None?
    ensures s.steers == [] && forall m :: m in s.pending ==> m.steeredInto.None?
  {
    HeadIsMember(s.steers);
  }

  lemma HeadIsMember(ms: seq<Message>)
    ensures ms == [] || exists m :: m in ms
  {
    if ms != [] {
      assert ms[0] in ms;
    }
  }

  lemma TailDistinct(ids: seq<MessageId>)
    requires NoRepeats(ids) && ids != []
    ensures NoRepeats(ids[1..])
  {
  }

  lemma TurnStartConserves(y: System, id: MessageId, child: ThreadId)
    requires Conserved(y) && y.session.active.None? && y.session.pending != [] && y.session.pending[0].id == id
    ensures Conserved(Moved(y, Execute(EmitTurnStarted(id, child))))
  {
    var s, u := y.session, Moved(y, Execute(EmitTurnStarted(id, child)));
    hide Places, Moved, StepTurnStarted, NoRepeats, ClosuresDistinct;
    TurnStartLeavesRest(y, id, child);
    StartTakesHead(s, id, child);
    TailDistinct(Ids(s.pending));
    assert Ids(s.pending)[1..] == Ids(s.pending[1..]);
    NoIds();
    forall x ensures Places(u, x) == One(x in s.processed) {
      TurnStartPlaces(y, id, child, x);
    }
  }

  lemma QueueDistinct(y: System)
    requires Ordered(y)
    ensures NoRepeats(Ids(y.session.pending))
  {
    hide InOrder, NoRepeats, SteersLive;
    SuffixInOrder(y.admitted, Ids(y.session.pending), y.session.processed);
    OrderedDistinct(Ids(y.session.pending), y.session.processed);
  }

  lemma TurnStartKeepsOrder(y: System, id: MessageId, child: ThreadId)
    requires Ordered(y) && y.session.pending != [] && y.session.pending[0].id == id
    ensures var u := Moved(y, Execute(EmitTurnStarted(id, child)));
            InOrder(u.admitted + Ids(u.session.pending), u.session.processed)
  {
    hide Places, InOrder, Moved, StepTurnStarted, NoRepeats, ClosuresDistinct, SteersLive;
    var s, u := y.session, Moved(y, Execute(EmitTurnStarted(id, child)));
    QueueDistinct(y);
    TurnStartLeavesRest(y, id, child);
    StartTakesHead(s, id, child);
    IdsSplit(s.pending);
    Shifted(y.admitted, id, Ids(s.pending[1..]));
  }

  lemma IdsSplit(ms: seq<Message>)
    requires ms != []
    ensures Ids(ms) == [ms[0].id] + Ids(ms[1..])
  {
  }

  lemma Shifted(first: seq<MessageId>, x: MessageId, rest: seq<MessageId>)
    ensures first + [x] + rest == first + ([x] + rest)
  {
  }

  lemma TurnStartKeepsOrdered(y: System, id: MessageId, child: ThreadId)
    requires Ordered(y) && y.session.active.None? && NextUp(y.session.pending).Some? && NextUp(y.session.pending).value.id == id
    ensures Ordered(Moved(y, Execute(EmitTurnStarted(id, child))))
  {
    HeadIsNext(y.session);
    NoneSteered(y.session);
    QueueDistinct(y);
    TurnStartKeepsOrder(y, id, child);
    TurnStartLeavesRest(y, id, child);
    StartTakesHead(y.session, id, child);
    hide InOrder, Moved, StepTurnStarted, NextUp, NoRepeats;
  }

  lemma NoIds()
    ensures Ids([]) == [] && NoRepeats([])
  {
  }

  lemma {:induction false} FilterKeepsDistinct(cs: seq<Closure>, keep: Closure -> bool)
    requires ClosuresDistinct(cs)
    ensures ClosuresDistinct(Filter(cs, keep))
  {
    if cs != [] {
      assert forall i, j :: 0 <= i < j < |cs[1..]| ==> cs[1..][i] == cs[i + 1] && cs[1..][j] == cs[j + 1];
      FilterKeepsDistinct(cs[1..], keep);
      forall c | c in Filter(cs[1..], keep) ensures c.id != cs[0].id {
        var k :| 0 <= k < |cs[1..]| && cs[1..][k] == c;
        assert cs[k + 1] == c;
      }
    }
  }

  lemma TurnClosedConserves(y: System, c: Closure)
    requires Conserved(y) && c in y.session.closures
    ensures Conserved(Moved(y, Execute(EmitClosed(c))))
  {
    var s, u := y.session, Moved(y, Execute(EmitClosed(c)));
    FilterKeepsDistinct(s.closures, (d: Closure) => d.id != c.id);
    assert ClosureIds(u.session.closures) == ClosureIds(s.closures) - {c.id};
    assert Places(y, c.id) == One(c.id in s.processed);
    forall x ensures Places(u, x) == One(x in s.processed) {
      assert Places(y, x) == One(x in s.processed);
    }
  }

  lemma DistinctNoRepeats(ids: seq<MessageId>)
    ensures NoRepeats(Distinct(ids))
  {
    if ids != [] {
      DistinctNoRepeats(ids[..|ids| - 1]);
    }
  }

  lemma EndPending(s: Session, turn: Turn, consumed: seq<MessageId>, status: Status, error: Option<string>, ts: int)
    ensures var t := StepTurnEnded(s, turn, consumed, status, error, ts);
            && Ids(t.pending) == Ids(Filter(s.pending, (m: Message) => m.id !in consumed))
            && forall x :: x in Ids(t.pending) <==> x in Ids(s.pending) && x !in consumed
  {
    var kept := Filter(s.pending, (m: Message) => m.id !in consumed);
    IdsMembers(s.pending);
    IdsMembers(kept);
  }

  lemma EndClosureIds(ids: seq<MessageId>, status: Status, error: Option<string>)
    ensures forall x :: x in ClosureIds(ClosuresOf(ids, status, error)) <==> x in ids
  {
    var cs := ClosuresOf(ids, status, error);
    forall x | x in ids ensures x in ClosureIds(cs) {
      var i :| 0 <= i < |ids| && ids[i] == x;
      assert cs[i] in cs;
    }
  }

  lemma ClosureIdsAppend(a: seq<Closure>, b: seq<Closure>)
    ensures ClosureIds(a + b) == ClosureIds(a) + ClosureIds(b)
  {
  }

  /** Closing a turn closes its own message and the consumed ones. */
  lemma EndClosures(s: Session, turn: Turn, consumed: seq<MessageId>, status: Status, error: Option<string>, ts: int)
    ensures var t := StepTurnEnded(s, turn, consumed, status, error, ts);
            forall x :: x in ClosureIds(t.closures) <==> x in ClosureIds(s.closures) || x == turn.id || x in consumed
  {
    var ids := [turn.id] + Distinct(consumed);
    EndClosureIds(ids, status, error);
    ClosureIdsAppend(s.closures, ClosuresOf(ids, status, error));
  }

  lemma EndClosuresDistinct(cs: seq<Closure>, ids: seq<MessageId>, status: Status, error: Option<string>)
    requires ClosuresDistinct(cs) && NoRepeats(ids) && forall x :: x in ids ==> x !in ClosureIds(cs)
    ensures ClosuresDistinct(cs + ClosuresOf(ids, status, error))
  {
    assert forall c :: c in cs ==> c.id in ClosureIds(cs);
  }

  lemma EndSteers(s: Session, turn: Turn, consumed: seq<MessageId>, status: Status, error: Option<string>, ts: int)
    requires SteersLive(s) && s.active == Some(turn)
    ensures var t := StepTurnEnded(s, turn, consumed, status, error, ts);
            t.steers == [] && forall m :: m in t.pending ==> m.steeredInto.None?
  {
    var t := StepTurnEnded(s, turn, consumed, status, error, ts);
    FilterNone(s.steers, (m: Message) => m.id !in consumed && m.steeredInto != Some(turn.id));
    var kept := Filter(s.pending, (m: Message) => m.id !in consumed);
    forall m | m in t.pending ensures m.steeredInto.None? {
      var i :| 0 <= i < |kept| && t.pending[i] == m;
      assert kept[i] in s.pending;
    }
  }

  lemma EndLeavesRest(y: System, consumed: seq<MessageId>, status: Status, error: Option<string>, ts: int)
    requires y.session.active.Some?
    ensures var u := Moved(y, End(consumed, status, error, ts));
            && u.session == StepTurnEnded(y.session, y.session.active.value, consumed, status, error, ts)
            && u.session.held == y.session.held && u.session.processed == y.session.processed && u.session.active == None
            && u.absorbed == y.absorbed && u.closed == y.closed && u.admitted == y.admitted && u.given == {}
  {
    hide Filter;
  }

  lemma EndPlaces(y: System, consumed: seq<MessageId>, status: Status, error: Option<string>, ts: int, x: MessageId)
    requires y.session.active.Some? && (x in consumed ==> x in Ids(y.session.pending))
    requires Places(y, x) == One(x in y.session.processed)
    ensures Places(Moved(y, End(consumed, status, error, ts)), x) == One(x in y.session.processed)
  {
    hide StepTurnEnded, Moved, Filter;
    EndLeavesRest(y, consumed, status, error, ts);
    EndPending(y.session, y.session.active.value, consumed, status, error, ts);
    EndClosures(y.session, y.session.active.value, consumed, status, error, ts);
  }

  lemma EndOrder(y: System, consumed: seq<MessageId>, status: Status, error: Option<string>, ts: int)
    requires Ordered(y) && y.session.active.Some?
    ensures var u := Moved(y, End(consumed, status, error, ts));
            InOrder(u.admitted + Ids(u.session.pending), u.session.processed) && NoRepeats(Ids(u.session.pending))
  {
    hide StepTurnEnded, Moved, Filter, Places, InOrder, NoRepeats, SteersLive, ClosuresDistinct;
    EndLeavesRest(y, consumed, status, error, ts);
    var s, t := y.session, Moved(y, End(consumed, status, error, ts)).session;
    EndPending(s, s.active.value, consumed, status, error, ts);
    FilterKeepsOrder(y.admitted, s.pending, (m: Message) => m.id !in consumed, s.processed);
    SuffixInOrder(y.admitted, Ids(t.pending), s.processed);
    OrderedDistinct(Ids(t.pending), s.processed);
  }

  lemma EndClosuresStayDistinct(y: System, consumed: seq<MessageId>, status: Status, error: Option<string>, ts: int)
    requires Conserved(y) && y.session.active.Some? && forall id :: id in consumed ==> id in Ids(y.session.pending)
    ensures ClosuresDistinct(Moved(y, End(consumed, status, error, ts)).session.closures)
  {
    var s := y.session;
    var turn := s.active.value;
    var ids := [turn.id] + Distinct(consumed);
    forall x | x in ids ensures x !in ClosureIds(s.closures) && (x in consumed ==> x != turn.id) {
      assert Places(y, x) == One(x in s.processed);
    }
    DistinctNoRepeats(consumed);
    assert turn.id in ids && turn.id !in Distinct(consumed);
    assert forall i :: 0 < i < |ids| ==> ids[i] == Distinct(consumed)[i - 1];
    assert NoRepeats(ids);
    EndClosuresDistinct(s.closures, ids, status, error);
  }

  lemma EndConserves(y: System, consumed: seq<MessageId>, status: Status, error: Option<string>, ts: int)
    requires Inv(y) && y.session.active.Some? && forall id :: id in consumed ==> id in Ids(y.session.pending)
    ensures Conserved(Moved(y, End(consumed, status, error, ts)))
  {
    hide Places, InOrder, ClosuresDistinct, NoRepeats;
    var s, u := y.session, Moved(y, End(consumed, status, error, ts));
    forall x ensures Places(u, x) == One(x in s.processed) {
      EndPlaces(y, consumed, status, error, ts, x);
    }
    EndOrder(y, consumed, status, error, ts);
    EndClosuresStayDistinct(y, consumed, status, error, ts);
  }

  lemma EndKeepsOrdered(y: System, consumed: seq<MessageId>, status: Status, error: Option<string>, ts: int)
    requires Ordered(y) && y.session.active.Some?
    ensures Ordered(Moved(y, End(consumed, status, error, ts)))
  {
    hide InOrder, NoRepeats, StepTurnEnded, Moved;
    EndLeavesRest(y, consumed, status, error, ts);
    EndSteers(y.session, y.session.active.value, consumed, status, error, ts);
    EndOrder(y, consumed, status, error, ts);
  }

  lemma ExecuteKeepsOrdered(y: System, e: Effect, defined: bool, childOf: MessageId -> ThreadId)
    requires Ordered(y) && e in EffectsOf(y.session, defined, childOf)
    ensures Ordered(Moved(y, Execute(e)))
  {
    hide InOrder, EffectsOf, NextUp, NoRepeats;
    EnabledEffectMeans(y.session, defined, childOf, e);
    if e.EmitTurnStarted? {
      TurnStartKeepsOrdered(y, e.id, e.child);
    }
  }

  lemma ExecuteConserves(y: System, e: Effect, defined: bool, childOf: MessageId -> ThreadId)
    requires Inv(y) && e in EffectsOf(y.session, defined, childOf)
    ensures Conserved(Moved(y, Execute(e)))
  {
    hide InOrder, EffectsOf;
    EnabledEffectMeans(y.session, defined, childOf, e);
    match e
    case EmitTurnStarted(id, child) =>
      HeadIsNext(y.session);
      TurnStartConserves(y, id, child);
    case EmitClosed(c) => TurnClosedConserves(y, c);
    case EmitSteerDelivered(id, _) =>
      var u := Moved(y, Execute(e));
      assert forall x :: Places(u, x) == Places(y, x);
    case _ =>
  }

  lemma MoveKeepsOrdered(y: System, m: Move, defined: bool, childOf: MessageId -> ThreadId)
    requires Ordered(y) && CanMove(y, m, defined, childOf)
    ensures Ordered(Moved(y, m))
  {
    hide InOrder, EffectsOf, NoRepeats;
    match m
    case Submit(_, _, _) => SubmitKeepsOrder(y, m);
    case Execute(e) => ExecuteKeepsOrdered(y, e, defined, childOf);
    case End(consumed, status, error, ts) => EndKeepsOrdered(y, consumed, status, error, ts);
    case _ =>
  }

  lemma MoveConserves(y: System, m: Move, defined: bool, childOf: MessageId -> ThreadId)
    requires Inv(y) && CanMove(y, m, defined, childOf) && ConsumesPending(y, m)
    ensures Conserved(Moved(y, m))
  {
    hide Ordered, EffectsOf;
    match m
    case Submit(_, _, _) => SubmitConserves(y, m);
    case Execute(e) => ExecuteConserves(y, e, defined, childOf);
    case End(consumed, status, error, ts) => EndConserves(y, consumed, status, error, ts);
    case _ =>
      var u := Moved(y, m);
      assert forall x :: Places(u, x) == Places(y, x);
  }

  lemma {:induction false} PlayKeepsOrdered(y: System, moves: seq<Move>, defined: bool, childOf: MessageId -> ThreadId)
    requires Ordered(y) && Play(y, moves, defined, childOf).Some?
    ensures Ordered(Play(y, moves, defined, childOf).value)
    decreases |moves|
  {
    if moves != [] {
      hide Ordered, Moved, CanMove;
      MoveKeepsOrdered(y, moves[0], defined, childOf);
      PlayKeepsOrdered(Moved(y, moves[0]), moves[1..], defined, childOf);
    }
  }

  lemma {:induction false} PlayKeeps(y: System, moves: seq<Move>, defined: bool, childOf: MessageId -> ThreadId)
    requires Inv(y) && Play(y, moves, defined, childOf).Some? && AllConsumePending(y, moves)
    ensures Inv(Play(y, moves, defined, childOf).value)
    decreases |moves|
  {
    if moves != [] {
      hide Conserved, Ordered, Moved, CanMove, ConsumesPending;
      MoveKeepsOrdered(y, moves[0], defined, childOf);
      MoveConserves(y, moves[0], defined, childOf);
      PlayKeeps(Moved(y, moves[0]), moves[1..], defined, childOf);
    }
  }

  lemma ProperKeepsGiven(y: System, m: Move, defined: bool, childOf: MessageId -> ThreadId)
    requires Inv(y) && GivenPending(y) && CanMove(y, m, defined, childOf) && Proper(y, m)
    ensures ConsumesPending(y, m) && GivenPending(Moved(y, m))
  {
    hide Conserved, InOrder, EffectsOf, NoRepeats;
    match m
    case Submit(message, _, _) =>
      var s, t := y.session, Moved(y, m).session;
      if message.Some? && message.value.id !in s.processed && message.value.delivery != Some(NextTurn) {
        assert Ids(t.pending) == Ids(s.pending) + [message.value.id];
      }
    case Execute(e) =>
      EnabledEffectMeans(y.session, defined, childOf, e);
      IdsMembers(y.session.pending);
    case _ =>
  }

  lemma {:induction false} ProperConsumesPending(y: System, moves: seq<Move>, defined: bool, childOf: MessageId -> ThreadId)
    requires Inv(y) && GivenPending(y) && Play(y, moves, defined, childOf).Some? && AllProper(y, moves)
    ensures AllConsumePending(y, moves)
    decreases |moves|
  {
    if moves != [] {
      hide Conserved, Ordered, Moved, CanMove, ConsumesPending, Proper, GivenPending;
      ProperKeepsGiven(y, moves[0], defined, childOf);
      MoveKeepsOrdered(y, moves[0], defined, childOf);
      MoveConserves(y, moves[0], defined, childOf);
      ProperConsumesPending(Moved(y, moves[0]), moves[1..], defined, childOf);
    }
  }

  lemma StartInv(idleTimeoutMs: int, input: Option<Message>, ts: int)
    ensures Inv(Start(idleTimeoutMs, input, ts)) && GivenPending(Start(idleTimeoutMs, input, ts))
  {
    var y := Start(idleTimeoutMs, input, ts);
    if input.Some? {
      assert Ids(y.session.pending) == y.session.processed;
    }
    assert Ids([]) == [];
  }

  /**
   * Conservation. After any run in which no message that is closed, absorbed, held or in its own turn is
   * steered again into the running child, every accepted message is in exactly one place: pending, held
   * for the next turn, in its own turn, absorbed into a turn, awaiting closure or closed; no list names it
   * twice, and nothing else is anywhere.
   */
  lemma EveryMessageInOnePlace(
    idleTimeoutMs: int, input: Option<Message>, ts: int, moves: seq<Move>, defined: bool, childOf: MessageId -> ThreadId)
    requires Play(Start(idleTimeoutMs, input, ts), moves, defined, childOf).Some?
    requires AllProper(Start(idleTimeoutMs, input, ts), moves)
    ensures var y := Play(Start(idleTimeoutMs, input, ts), moves, defined, childOf).value;
            && (forall id :: Places(y, id) == if id in y.session.processed then 1 else 0)
            && NoRepeats(y.session.processed) && NoRepeats(Ids(y.session.pending)) && NoRepeats(Ids(y.session.held))
            && ClosuresDistinct(y.session.closures)
  {
    hide Places, AllProper, AllConsumePending, Play, Start;
    StartInv(idleTimeoutMs, input, ts);
    ProperConsumesPending(Start(idleTimeoutMs, input, ts), moves, defined, childOf);
    PlayKeeps(Start(idleTimeoutMs, input, ts), moves, defined, childOf);
  }

  lemma {:induction false} ConservingIff(y: System, moves: seq<Move>, defined: bool, childOf: MessageId -> ThreadId)
    requires Inv(y) && Play(y, moves, defined, childOf).Some?
    ensures Conserving(y, moves) <==> AllConsumePending(y, moves)
    decreases |moves|
  {
    if moves != [] {
      hide Conserved, Ordered, Moved, ConsumesPending;
      var m := moves[0];
      MoveKeepsOrdered(y, m, defined, childOf);
      ConservesIff(y, m, defined, childOf);
      if ConsumesPending(y, m) {
        ConservingIff(Moved(y, m), moves[1..], defined, childOf);
      } else {
        assert !Conserving(Moved(y, m), moves[1..]);
      }
    }
  }

  lemma ConservesIff(y: System, m: Move, defined: bool, childOf: MessageId -> ThreadId)
    requires Inv(y) && CanMove(y, m, defined, childOf)
    ensures Conserved(Moved(y, m)) <==> ConsumesPending(y, m)
  {
    hide Conserved, Ordered, Moved, EffectsOf;
    if ConsumesPending(y, m) {
      MoveConserves(y, m, defined, childOf);
    } else {
      EndConservesIffConsumedPending(y, m.consumed, m.status, m.error, m.ts);
    }
  }

  /**
   * Exactly: whatever is submitted, messages are conserved throughout a run if and only if every turn
   * that ends in it consumed only messages that were still pending.
   */
  lemma ConservedIffConsumedPending(
    idleTimeoutMs: int, input: Option<Message>, ts: int, moves: seq<Move>, defined: bool, childOf: MessageId -> ThreadId)
    requires Play(Start(idleTimeoutMs, input, ts), moves, defined, childOf).Some?
    ensures Conserving(Start(idleTimeoutMs, input, ts), moves) <==> AllConsumePending(Start(idleTimeoutMs, input, ts), moves)
  {
    hide Inv, Play, Conserving, AllConsumePending;
    StartInv(idleTimeoutMs, input, ts);
    ConservingIff(Start(idleTimeoutMs, input, ts), moves, defined, childOf);
  }

  /** A steered message names the running turn; without one nothing is steered and the head of the queue starts next. */
  lemma SteersNeverStick(
    idleTimeoutMs: int, input: Option<Message>, ts: int, moves: seq<Move>, defined: bool, childOf: MessageId -> ThreadId)
    requires Play(Start(idleTimeoutMs, input, ts), moves, defined, childOf).Some?
    ensures var s := Play(Start(idleTimeoutMs, input, ts), moves, defined, childOf).value.session;
            && (forall m :: m in s.pending && m.steeredInto.Some? ==> s.active.Some? && m.steeredInto == Some(s.active.value.id))
            && (forall m :: m in s.steers ==> m in s.pending)
            && (s.active.None? && s.pending != [] ==>
                  EmitTurnStarted(s.pending[0].id, childOf(s.pending[0].id)) in EffectsOf(s, defined, childOf))
  {
    StartInv(idleTimeoutMs, input, ts);
    PlayKeepsOrdered(Start(idleTimeoutMs, input, ts), moves, defined, childOf);
    var s := Play(Start(idleTimeoutMs, input, ts), moves, defined, childOf).value.session;
    if s.active.None? && s.pending != [] {
      HeadIsNext(s);
    }
  }

  /** Turns are admitted, and what is pending waits, in the order the messages were submitted. */
  lemma AdmittedInSubmissionOrder(
    idleTimeoutMs: int, input: Option<Message>, ts: int, moves: seq<Move>, defined: bool, childOf: MessageId -> ThreadId)
    requires Play(Start(idleTimeoutMs, input, ts), moves, defined, childOf).Some?
    ensures var y := Play(Start(idleTimeoutMs, input, ts), moves, defined, childOf).value;
            InOrder(y.admitted + Ids(y.session.pending), y.session.processed)
  {
    hide InOrder;
    StartInv(idleTimeoutMs, input, ts);
    PlayKeepsOrdered(Start(idleTimeoutMs, input, ts), moves, defined, childOf);
  }

  /** Ending a turn conserves messages exactly when everything its child consumed was pending. */
  lemma EndConservesIffConsumedPending(y: System, consumed: seq<MessageId>, status: Status, error: Option<string>, ts: int)
    requires Inv(y) && y.session.active.Some?
    ensures Conserved(Moved(y, End(consumed, status, error, ts)))
       <==> forall id :: id in consumed ==> id in Ids(y.session.pending)
  {
    hide Conserved, Moved, SteersLive, InOrder;
    if forall id :: id in consumed ==> id in Ids(y.session.pending) {
      EndConserves(y, consumed, status, error, ts);
    } else {
      var id :| id in consumed && id !in Ids(y.session.pending);
      EndConsumedElsewhere(y, id, consumed, status, error, ts);
    }
  }

  lemma EndConsumedElsewhere(
    y: System, id: MessageId, consumed: seq<MessageId>, status: Status, error: Option<string>, ts: int)
    requires Conserved(y) && y.session.active.Some? && id in consumed && id !in Ids(y.session.pending)
    ensures !Conserved(Moved(y, End(consumed, status, error, ts)))
  {
    var s := y.session;
    assert Places(y, id) == One(id in s.processed);
    if s.active.value.id == id {
      ActiveConsumedTwice(s, consumed, status, error, ts);
    } else if id in ClosureIds(s.closures) {
      AwaitingConsumedTwice(s, id, consumed, status, error, ts);
    } else {
      EndAddsAPlace(y, id, consumed, status, error, ts);
    }
  }

  lemma EndAddsAPlace(
    y: System, id: MessageId, consumed: seq<MessageId>, status: Status, error: Option<string>, ts: int)
    requires y.session.active.Some? && y.session.active.value.id != id
    requires id in consumed && id !in Ids(y.session.pending) && id !in ClosureIds(y.session.closures)
    ensures Places(Moved(y, End(consumed, status, error, ts)), id) == 1 + Places(y, id)
  {
    hide StepTurnEnded, Moved, Filter;
    EndLeavesRest(y, consumed, status, error, ts);
    EndPending(y.session, y.session.active.value, consumed, status, error, ts);
    EndClosures(y.session, y.session.active.value, consumed, status, error, ts);
  }

  lemma ActiveConsumedTwice(s: Session, consumed: seq<MessageId>, status: Status, error: Option<string>, ts: int)
    requires s.active.Some? && s.active.value.id in consumed
    ensures !ClosuresDistinct(StepTurnEnded(s, s.active.value, consumed, status, error, ts).closures)
  {
    var cs := StepTurnEnded(s, s.active.value, consumed, status, error, ts).closures;
    var i :| 0 <= i < |Distinct(consumed)| && Distinct(consumed)[i] == s.active.value.id;
    assert cs[|s.closures|].id == cs[|s.closures| + 1 + i].id;
  }

  lemma AwaitingConsumedTwice(
    s: Session, id: MessageId, consumed: seq<MessageId>, status: Status, error: Option<string>, ts: int)
    requires s.active.Some? && id in consumed && id in ClosureIds(s.closures)
    ensures !ClosuresDistinct(StepTurnEnded(s, s.active.value, consumed, status, error, ts).closures)
  {
    var cs := StepTurnEnded(s, s.active.value, consumed, status, error, ts).closures;
    var i :| 0 <= i < |Distinct(consumed)| && Distinct(consumed)[i] == id;
    var k :| 0 <= k < |s.closures| && s.closures[k].id == id;
    assert cs[k].id == cs[|s.closures| + 1 + i].id;
  }

  /** A turn starts; `m` is held for the next one, then submitted again as a steer at the child, which consumes it. */
  function HeldThenSteered(turn: Message, m: Message, childOf: MessageId -> ThreadId): seq<Move> {
    [Execute(EmitTurnStarted(turn.id, childOf(turn.id))), Submit(Some(m), None, 0),
     Submit(Some(m.(delivery := Some(Steer))), Some(childOf(turn.id)), 0), End([m.id], Completed, None, 0)]
  }

  lemma PlayCons(y: System, m: Move, rest: seq<Move>, defined: bool, childOf: MessageId -> ThreadId)
    requires CanMove(y, m, defined, childOf)
    ensures Play(y, [m] + rest, defined, childOf) == Play(Moved(y, m), rest, defined, childOf)
  {
    assert ([m] + rest)[1..] == rest;
  }

  /** From the start: once that turn ends, `m` is both held and awaiting closure. */
  lemma ResubmittedSteerIsInTwoPlaces(turn: Message, m: Message, childOf: MessageId -> ThreadId)
    requires turn.id != m.id && m.delivery == Some(NextTurn)
    ensures var r := Play(Start(0, Some(turn), 0), HeldThenSteered(turn, m, childOf), true, childOf);
            r.Some? && Places(r.value, m.id) == 2
  {
    hide Play, Places, JoinLines;
    var child := childOf(turn.id);
    var steer, end := Submit(Some(m.(delivery := Some(Steer))), Some(child), 0), End([m.id], Completed, None, 0);
    var y0 := Start(0, Some(turn), 0);
    var y1 := Moved(y0, Execute(EmitTurnStarted(turn.id, child)));
    var y2 := Moved(y1, Submit(Some(m), None, 0));
    var y3 := Moved(y2, steer);
    assert y0.session.pending == [Fresh(turn)] && y1.session.pending == [] && y1.session.held == [];
    assert y2.session.held == [Fresh(m)] && y2.session.pending == [] && y3.session == y2.session && y3.given == {m.id};
    assert HeldThenSteered(turn, m, childOf) == [Execute(EmitTurnStarted(turn.id, child))] + ([Submit(Some(m), None, 0)] + ([steer] + ([end] + [])));
    PlayCons(y0, Execute(EmitTurnStarted(turn.id, child)), [Submit(Some(m), None, 0)] + ([steer] + ([end] + [])), true, childOf);
    PlayCons(y1, Submit(Some(m), None, 0), [steer] + ([end] + []), true, childOf);
    PlayCons(y2, steer, [end] + [], true, childOf);
    PlayCons(y3, end, [], true, childOf);
    PlayNone(Moved(y3, end), true, childOf);
    EndAddsAPlace(y3, m.id, [m.id], Completed, None, 0);
    HeldOnce(y3, m);
  }

  lemma PlayNone(y: System, defined: bool, childOf: MessageId -> ThreadId)
    ensures Play(y, [], defined, childOf) == Some(y)
  {
  }

  lemma HeldOnce(y: System, m: Message)
    requires y.session.held == [Fresh(m)] && y.session.pending == [] && y.session.closures == []
    requires (y.session.active.Some? ==> y.session.active.value.id != m.id) && y.absorbed == {} && y.closed == {}
    ensures Places(y, m.id) == 1
  {
    assert Ids([Fresh(m)]) == [m.id];
  }
}

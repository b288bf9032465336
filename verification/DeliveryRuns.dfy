/** Runs in which a count of attempts is not what it seems. */
module DeliveryRuns {
  import opened Common
  import opened Delivery
  import opened DeliveryProtocol

  // ---------------------------------------------------------------- a requeue during a delivery

  /** One host, which allows two attempts. */
  function TwoAttempts(p: Projector): Config {
    Config({p}, Policy(1, 0, 0, 2), true)
  }

  /** The state once `p` has failed: its row and its two counts. */
  function Recorded(p: Projector, row: Row, failures: nat, recent: nat): System {
    START.(table := map[p := row], failures := map[p := failures], recent := map[p := recent])
  }

  /** The row a failed start of `p` leaves, given the row its delivery read. */
  function FailedRow(attempts: nat): Row {
    Row(0, if attempts >= 2 then DeadLetter else Retrying, attempts, Some(1), if attempts >= 2 then None else Some(0), Some(""), 0)
  }

  /** A delivery begins and the projector fails to start. */
  function FailedDelivery(p: Projector, between: seq<Action>): seq<Action> {
    [Begin(0, p, true, 0)] + (between + [Initialize(0, false, None, 0), SaveFailure(0, "", 0)])
  }

  lemma DeliveryBegins(s: System, p: Projector)
    requires s.workers == map[] && RowOf(s.table, p).state != DeadLetter
    ensures Step(s, Begin(0, p, true, 0), TwoAttempts(p)) == Some(s.(workers := map[0 := Initializing(p, RowOf(s.table, p))]))
  {
    hide Read, Filter, RetryDelay;
    assert map[][0 := Initializing(p, RowOf(s.table, p))] == map[0 := Initializing(p, RowOf(s.table, p))];
  }

  lemma StartFails(s: System, p: Projector, status: Row)
    requires s.workers == map[0 := Initializing(p, status)] && status.cursor == 0
    ensures Run(s, [Initialize(0, false, None, 0), SaveFailure(0, "", 0)], TwoAttempts(p))
         == Some(s.(workers := map[], table := RecordFailure(s.table, p, status, 1, "", TwoAttempts(p).policy, 0),
                    failures := s.failures[p := FailuresOf(s, p) + 1], recent := s.recent[p := RecentOf(s, p) + 1]))
  {
    hide RecordFailure, Read, Filter;
    var next := s.(workers := map[0 := Failing(p, status, 1)]);
    assert s.workers[0 := Failing(p, status, 1)] == next.workers && next.workers - {0} == map[];
    assert [Initialize(0, false, None, 0), SaveFailure(0, "", 0)] == [Initialize(0, false, None, 0)] + ([SaveFailure(0, "", 0)] + []);
    RunCons(s, Initialize(0, false, None, 0), next, [SaveFailure(0, "", 0)] + [], TwoAttempts(p));
    RunCons(next, SaveFailure(0, "", 0), Leave(next, 0).(
      table := RecordFailure(s.table, p, status, 1, "", TwoAttempts(p).policy, 0),
      failures := s.failures[p := FailuresOf(s, p) + 1], recent := s.recent[p := RecentOf(s, p) + 1]), [], TwoAttempts(p));
  }

  lemma FirstFailure(p: Projector)
    ensures Run(START, FailedDelivery(p, []), TwoAttempts(p)) == Some(Recorded(p, FailedRow(1), 1, 1))
  {
    hide Step;
    var c := TwoAttempts(p);
    var rest := [Initialize(0, false, None, 0), SaveFailure(0, "", 0)];
    var begun := START.(workers := map[0 := Initializing(p, NO_ROW)]);
    assert [] + rest == rest;
    DeliveryBegins(START, p);
    RunCons(START, Begin(0, p, true, 0), begun, rest, c);
    StartFails(begun, p, NO_ROW);
    assert RecordFailure(map[], p, NO_ROW, 1, "", c.policy, 0) == map[p := FailedRow(1)];
  }

  lemma SecondFailure(p: Projector)
    ensures Run(Recorded(p, FailedRow(1), 1, 1), FailedDelivery(p, [RequeueRow(p, 0)]), TwoAttempts(p))
         == Some(Recorded(p, FailedRow(2), 2, 1))
  {
    hide Step;
    var c := TwoAttempts(p);
    var s := Recorded(p, FailedRow(1), 1, 1);
    var rest := [Initialize(0, false, None, 0), SaveFailure(0, "", 0)];
    var begun := s.(workers := map[0 := Initializing(p, FailedRow(1))]);
    var requeued := begun.(table := Requeue(begun.table, p, 0), recent := map[p := 0]);
    DeliveryBegins(s, p);
    RunCons(s, Begin(0, p, true, 0), begun, [RequeueRow(p, 0)] + rest, c);
    RequeueLands(p, begun);
    RunCons(begun, RequeueRow(p, 0), requeued, rest, c);
    StartFails(requeued, p, FailedRow(1));
    assert RecordFailure(requeued.table, p, FailedRow(1), 1, "", c.policy, 0) == map[p := FailedRow(2)];
    assert requeued.failures[p := 2] == map[p := 2] && requeued.recent[p := 1] == map[p := 1];
  }

  lemma RequeueLands(p: Projector, s: System)
    requires s.recent == map[p := 1]
    ensures Step(s, RequeueRow(p, 0), TwoAttempts(p)) == Some(s.(table := Requeue(s.table, p, 0), recent := map[p := 0]))
  {
    hide Requeue, Read, Filter;
    assert s.recent[p := 0] == map[p := 0];
  }

  /** A requeue that lands during a delivery does not start the count again: one more failure is the second. */
  lemma RequeueDuringDeliveryIsForgotten(p: Projector)
    ensures Run(START, FailedDelivery(p, []) + FailedDelivery(p, [RequeueRow(p, 0)]), TwoAttempts(p))
         == Some(Recorded(p, FailedRow(2), 2, 1))
    ensures FailedRow(2).state == DeadLetter && RecentOf(Recorded(p, FailedRow(2), 2, 1), p) == 1
  {
    FirstFailure(p);
    SecondFailure(p);
    RunAppend(START, FailedDelivery(p, []), FailedDelivery(p, [RequeueRow(p, 0)]), TwoAttempts(p));
  }

  // ---------------------------------------------------------------- a failure after another host's rewind

  /** Two hosts, which allow two attempts. */
  function TwoHosts(p: Projector): Config {
    Config({p}, Policy(1, 0, 0, 2), false)
  }

  /** One event, accepted by `p`, whose row and counts are these. */
  function OneAccepted(p: Projector, row: Row, failures: nat, recent: nat, workers: map<nat, Worker>): System {
    System([1], 1, map[p := row], workers, map[], {1}, {(p, 1)}, map[p := failures], map[p := recent])
  }

  function Accepting(p: Projector): seq<Action> {
    [Append([1])] + ([Begin(0, p, true, 0)] + ([Initialize(0, true, None, 0)] + ([ReadNext(0)] + ([Project(0, true)]
    + ([SaveCursor(0, 0)] + ([Crash(0)] + []))))))
  }

  function AcceptedRow(): Row {
    Row(1, Idle, 0, None, None, None, 0)
  }

  /** A row that failed before event 2, from the given cursor. */
  function FailedBeforeTwo(cursor: int, attempts: nat): Row {
    FailedRow(attempts).(cursor := cursor, failedSeq := Some(2))
  }

  lemma EventAccepted(p: Projector)
    ensures Run(START, Accepting(p), TwoHosts(p)) == Some(OneAccepted(p, AcceptedRow(), 0, 0, map[]))
  {
    var c := TwoHosts(p);
    var s1 := START.(log := [1], tail := 1, appended := {1});
    var s2 := s1.(workers := map[0 := Initializing(p, NO_ROW)]);
    var s3 := s1.(workers := map[0 := Reading(p, NO_ROW)]);
    var s4 := s1.(workers := map[0 := Projecting(p, NO_ROW, [1])]);
    var s5 := s1.(workers := map[0 := Advancing(p, NO_ROW, 1)], projected := {(p, 1)});
    var s6 := OneAccepted(p, AcceptedRow(), 0, 0, map[0 := Reading(p, IdleStatus(NO_ROW, 1))]);
    var s7 := OneAccepted(p, AcceptedRow(), 0, 0, map[]);
    FirstSteps(p, s1, s2, s3);
    MiddleSteps(p, s3, s4, s5);
    LastSteps(p, s5, s6, s7);
    hide Step;
    var r6 := [Crash(0)] + [];
    var r5 := [SaveCursor(0, 0)] + r6;
    var r4 := [Project(0, true)] + r5;
    var r3 := [ReadNext(0)] + r4;
    var r2 := [Initialize(0, true, None, 0)] + r3;
    RunCons(START, Append([1]), s1, [Begin(0, p, true, 0)] + r2, c);
    RunCons(s1, Begin(0, p, true, 0), s2, r2, c);
    RunCons(s2, Initialize(0, true, None, 0), s3, r3, c);
    RunCons(s3, ReadNext(0), s4, r4, c);
    RunCons(s4, Project(0, true), s5, r5, c);
    RunCons(s5, SaveCursor(0, 0), s6, r6, c);
    RunCons(s6, Crash(0), s7, [], c);
  }

  lemma FirstSteps(p: Projector, s1: System, s2: System, s3: System)
    requires s1 == START.(log := [1], tail := 1, appended := {1})
    requires s2 == s1.(workers := map[0 := Initializing(p, NO_ROW)]) && s3 == s1.(workers := map[0 := Reading(p, NO_ROW)])
    ensures Step(START, Append([1]), TwoHosts(p)) == Some(s1) && Step(s1, Begin(0, p, true, 0), TwoHosts(p)) == Some(s2)
    ensures Step(s2, Initialize(0, true, None, 0), TwoHosts(p)) == Some(s3)
  {
    assert [] + [1] == [1] && {} + (set x | x in [1]) == {1};
    assert map[0 := Initializing(p, NO_ROW)][0 := Reading(p, NO_ROW)] == map[0 := Reading(p, NO_ROW)];
  }

  lemma MiddleSteps(p: Projector, s3: System, s4: System, s5: System)
    requires s3.log == [1] && s3.workers == map[0 := Reading(p, NO_ROW)] && s3.projected == {}
    requires s4 == s3.(workers := map[0 := Projecting(p, NO_ROW, [1])])
    requires s5 == s3.(workers := map[0 := Advancing(p, NO_ROW, 1)], projected := {(p, 1)})
    ensures Step(s3, ReadNext(0), TwoHosts(p)) == Some(s4) && Step(s4, Project(0, true), TwoHosts(p)) == Some(s5)
  {
    assert Read([1], 1, 1) == [1];
    assert s3.workers[0 := Projecting(p, NO_ROW, [1])] == s4.workers && s4.workers[0 := Advancing(p, NO_ROW, 1)] == s5.workers;
    assert {} + (set x | x in [1] :: (p, x)) == {(p, 1)};
  }

  lemma LastSteps(p: Projector, s5: System, s6: System, s7: System)
    requires s5 == START.(log := [1], tail := 1, appended := {1}, workers := map[0 := Advancing(p, NO_ROW, 1)], projected := {(p, 1)})
    requires s6 == OneAccepted(p, AcceptedRow(), 0, 0, map[0 := Reading(p, IdleStatus(NO_ROW, 1))])
    requires s7 == OneAccepted(p, AcceptedRow(), 0, 0, map[])
    ensures Step(s5, SaveCursor(0, 0), TwoHosts(p)) == Some(s6) && Step(s6, Crash(0), TwoHosts(p)) == Some(s7)
  {
    assert s5.workers[0 := Reading(p, IdleStatus(NO_ROW, 1))] == s6.workers && s6.workers - {0} == s7.workers;
  }

  /** The projector fails to start once; then two hosts deliver, one fails to start, and the other rewinds before that is recorded. */
  function FailingOnce(p: Projector): seq<Action> {
    [Begin(0, p, true, 0)] + ([Initialize(0, false, None, 0)] + ([SaveFailure(0, "", 0)] + []))
  }

  function RewoundMeanwhile(p: Projector): seq<Action> {
    [Begin(0, p, true, 0)] + ([Begin(1, p, true, 0)] + ([Initialize(0, false, None, 0)] + ([Initialize(1, true, Some(0), 0)]
    + ([SaveFailure(0, "", 0)] + []))))
  }

  lemma OneFailure(p: Projector)
    ensures Run(OneAccepted(p, AcceptedRow(), 0, 0, map[]), FailingOnce(p), TwoHosts(p))
         == Some(OneAccepted(p, FailedBeforeTwo(1, 1), 1, 1, map[]))
  {
    var c, row := TwoHosts(p), AcceptedRow();
    var s0 := OneAccepted(p, row, 0, 0, map[]);
    var s1 := OneAccepted(p, row, 0, 0, map[0 := Initializing(p, row)]);
    var s2 := OneAccepted(p, row, 0, 0, map[0 := Failing(p, row, 2)]);
    var s3 := OneAccepted(p, FailedBeforeTwo(1, 1), 1, 1, map[]);
    assert s1.workers[0 := Failing(p, row, 2)] == s2.workers && s2.workers - {0} == map[];
    assert RecordFailure(map[p := row], p, row, 2, "", c.policy, 0) == map[p := FailedBeforeTwo(1, 1)];
    hide RecordFailure, Read, Filter;
    RunCons(s0, Begin(0, p, true, 0), s1, [Initialize(0, false, None, 0)] + ([SaveFailure(0, "", 0)] + []), c);
    RunCons(s1, Initialize(0, false, None, 0), s2, [SaveFailure(0, "", 0)] + [], c);
    assert s2.failures[p := 1] == map[p := 1] && s2.recent[p := 1] == map[p := 1];
    RunCons(s2, SaveFailure(0, "", 0), s3, [], c);
  }

  lemma RewindThenFailure(p: Projector)
    ensures Run(OneAccepted(p, FailedBeforeTwo(1, 1), 1, 1, map[]), RewoundMeanwhile(p), TwoHosts(p))
         == Some(OneAccepted(p, FailedBeforeTwo(0, 2), 1, 1, map[1 := Reading(p, IdleStatus(FailedBeforeTwo(1, 1), 0))]))
  {
    var c, row := TwoHosts(p), FailedBeforeTwo(1, 1);
    var reading := Reading(p, IdleStatus(row, 0));
    var rewound := Row(0, Idle, 0, None, None, None, 0);
    var s0 := OneAccepted(p, row, 1, 1, map[]);
    var s1 := OneAccepted(p, row, 1, 1, map[0 := Initializing(p, row)]);
    var s2 := OneAccepted(p, row, 1, 1, map[0 := Initializing(p, row), 1 := Initializing(p, row)]);
    var s3 := OneAccepted(p, row, 1, 1, map[0 := Failing(p, row, 2), 1 := Initializing(p, row)]);
    var s4 := OneAccepted(p, rewound, 0, 0, map[0 := Failing(p, row, 2), 1 := reading]);
    var s5 := OneAccepted(p, FailedBeforeTwo(0, 2), 1, 1, map[1 := reading]);
    TwoBegin(p, row, s0, s1, s2);
    OneRewinds(p, row, s2, s3, s4);
    assert s4.workers - {0} == s5.workers && s4.failures[p := 1] == s5.failures && s4.recent[p := 1] == s5.recent;
    assert RecordFailure(s4.table, p, row, 2, "", c.policy, 0) == s5.table;
    hide RecordFailure, Read, Filter;
    var r4 := [SaveFailure(0, "", 0)] + [];
    RunCons(s4, SaveFailure(0, "", 0), s5, [], c);
    hide Step;
    var r3 := [Initialize(1, true, Some(0), 0)] + r4;
    var r2 := [Initialize(0, false, None, 0)] + r3;
    RunCons(s0, Begin(0, p, true, 0), s1, [Begin(1, p, true, 0)] + r2, c);
    RunCons(s1, Begin(1, p, true, 0), s2, r2, c);
    RunCons(s2, Initialize(0, false, None, 0), s3, r3, c);
    RunCons(s3, Initialize(1, true, Some(0), 0), s4, r4, c);
  }

  lemma TwoBegin(p: Projector, row: Row, s0: System, s1: System, s2: System)
    requires row.state == Retrying && s0.table == map[p := row] && s0.workers == map[]
    requires s1 == s0.(workers := map[0 := Initializing(p, row)])
    requires s2 == s0.(workers := map[0 := Initializing(p, row), 1 := Initializing(p, row)])
    ensures Step(s0, Begin(0, p, true, 0), TwoHosts(p)) == Some(s1) && Step(s1, Begin(1, p, true, 0), TwoHosts(p)) == Some(s2)
  {
    hide Read, Filter, RecordFailure;
    assert s1.workers[1 := Initializing(p, row)] == s2.workers;
  }

  lemma OneRewinds(p: Projector, row: Row, s2: System, s3: System, s4: System)
    requires row.cursor == 1 && s2 == OneAccepted(p, row, 1, 1, map[0 := Initializing(p, row), 1 := Initializing(p, row)])
    requires s3 == OneAccepted(p, row, 1, 1, map[0 := Failing(p, row, 2), 1 := Initializing(p, row)])
    requires s4 == OneAccepted(p, Row(0, Idle, 0, None, None, None, 0), 0, 0, map[0 := Failing(p, row, 2), 1 := Reading(p, IdleStatus(row, 0))])
    ensures Step(s2, Initialize(0, false, None, 0), TwoHosts(p)) == Some(s3)
    ensures Step(s3, Initialize(1, true, Some(0), 0), TwoHosts(p)) == Some(s4)
  {
    hide Read, Filter, RecordFailure;
    assert s2.workers[0 := Failing(p, row, 2)] == s3.workers && s3.workers[1 := Reading(p, IdleStatus(row, 0))] == s4.workers;
    assert s3.failures[p := 0] == s4.failures && s3.recent[p := 0] == s4.recent && Rewind(s3.table, p, 0, 0) == s4.table;
  }

  /** With two hosts one failure since a rewind can be the second: the stale count goes on top of the rewound row. */
  lemma StaleFailureDeadLetters(p: Projector)
    ensures var r := Run(START, Accepting(p) + FailingOnce(p) + RewoundMeanwhile(p), TwoHosts(p));
            && r.Some? && RowOf(r.value.table, p).state == DeadLetter
            && FailuresOf(r.value, p) == 1 && TwoHosts(p).policy.maxAttempts == 2
  {
    EventAccepted(p);
    OneFailure(p);
    RewindThenFailure(p);
    hide Run;
    RunAppend(START, Accepting(p), FailingOnce(p), TwoHosts(p));
    RunAppend(START, Accepting(p) + FailingOnce(p), RewoundMeanwhile(p), TwoHosts(p));
  }

  lemma {:induction false} RunAppend(s: System, first: seq<Action>, second: seq<Action>, c: Config)
    requires Run(s, first, c).Some?
    ensures Run(s, first + second, c) == Run(Run(s, first, c).value, second, c)
    decreases |first|
  {
    hide Step;
    if first == [] {
      assert first + second == second;
    } else {
      assert (first + second)[1..] == first[1..] + second;
      RunAppend(Step(s, first[0], c).value, first[1..], second, c);
    }
  }
}

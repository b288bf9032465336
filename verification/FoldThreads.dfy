/** Thread lifecycle in the fold: when a thread waits, and what a terminal thread still has. */
module FoldThreads {
  import opened Common
  import opened Events
  import opened Fold
  import opened FoldIdentity

  /** A start event names a thread id not seen before. */
  ghost predicate StartsFresh(s: RunState, e: Event) {
    e.etype.ThreadStarted? && !e.ephemeral && NonEmpty(TargetThread(e)) ==> TargetThread(e).value !in s.threads
  }

  /** A registered wait belongs to a started thread, which also owns its id's and its race's other waits. */
  ghost predicate WaitInPlace(s: RunState, e: Event) {
    e.etype.WaitRegistered? && !e.ephemeral && NonEmpty(TargetThread(e)) ==>
      var t := TargetThread(e).value;
      var w := WaitRecord("", t, OnTimer(0), Field(e.payload, KTag));
      && t in s.threads
      && forall id ::
           && id in s.waits
           && (Some(id) == ReadString(e.payload, KWaitId) || (RaceOf(w).Some? && RaceOf(s.waits[id]) == RaceOf(w)))
           ==> s.waits[id].threadId == t
  }

  ghost predicate Orderly(s: RunState, events: seq<Event>, reg: Registry)
    decreases |events|
  {
    events == [] ||
    (StartsFresh(s, events[0]) && WaitInPlace(s, events[0]) && Orderly(FoldEvent(s, events[0], reg), events[1..], reg))
  }

  /** Every open wait belongs to a started thread, and every race to one thread. */
  ghost predicate Placed(threads: map<string, ThreadRecord>, waits: map<string, WaitRecord>) {
    "" !in threads && forall w :: w in waits ==> waits[w].threadId in threads
  }

  ghost predicate RacesLocal(waits: map<string, WaitRecord>) {
    forall w, v :: w in waits && v in waits && RaceOf(waits[w]).Some? && RaceOf(waits[w]) == RaceOf(waits[v]) ==>
      waits[w].threadId == waits[v].threadId
  }

  ghost predicate WaitingMeansWaits(threads: map<string, ThreadRecord>, waits: map<string, WaitRecord>) {
    forall t :: t in threads && !IsTerminal(threads[t].status) ==> (threads[t].status.Waiting? <==> OwnsWait(waits, t))
  }

  ghost predicate WaitInv(s: RunState) {
    SelfNamed(s.threads) && Placed(s.threads, s.waits) && RacesLocal(s.waits) && WaitingMeansWaits(s.threads, s.waits)
  }

  /** Removing waits only. */
  ghost predicate Fewer(after: map<string, WaitRecord>, before: map<string, WaitRecord>) {
    forall w :: w in after ==> w in before && after[w] == before[w]
  }

  lemma FewerWaits(threads: map<string, ThreadRecord>, before: map<string, WaitRecord>, after: map<string, WaitRecord>)
    requires Placed(threads, before) && RacesLocal(before) && Fewer(after, before)
    ensures Placed(threads, after) && RacesLocal(after)
  {
  }

  /** Waits removed only from `t` leave what every other thread owns. */
  lemma OthersOwnTheSame(before: map<string, WaitRecord>, after: map<string, WaitRecord>, t: string, u: string)
    requires Fewer(after, before) && u != t
    requires forall w :: w in before && before[w].threadId != t ==> w in after
    ensures OwnsWait(after, u) == OwnsWait(before, u)
  {
    if OwnsWait(before, u) {
      var w :| w in before && before[w].threadId == u;
      assert after[w].threadId == u;
    }
  }

  lemma StartKeepsWaits(s: RunState, e: Event, reg: Registry)
    requires WaitInv(s) && StartsFresh(s, e) && e.etype.ThreadStarted? && !e.ephemeral
    ensures WaitInv(StartThread(s, e, reg))
  {
    assert StartThread(s, e, reg).waits == s.waits;
  }

  /** Putting a record with the same status, or a terminal one. */
  lemma PutKeepsWaits(s: RunState, r: ThreadRecord)
    requires WaitInv(s) && r.threadId in s.threads
    requires IsTerminal(r.status) || r.status == s.threads[r.threadId].status
    ensures WaitInv(PutThread(s, r))
  {
  }

  lemma DropKeepsWaits(s: RunState, r: ThreadRecord)
    requires WaitInv(s) && r.threadId in s.threads && IsTerminal(r.status)
    ensures WaitInv(DropThreadWork(PutThread(s, r), r.threadId))
  {
    var after := OtherWaits(s.waits, r.threadId);
    PutKeepsWaits(s, r);
    FewerWaits(PutThread(s, r).threads, s.waits, after);
    forall t | t != r.threadId ensures OwnsWait(after, t) == OwnsWait(s.waits, t) {
      OthersOwnTheSame(s.waits, after, r.threadId, t);
    }
  }

  /** Adding a wait for a started thread, which then waits unless it has ended. */
  lemma PlacedWait(s: RunState, id: string, w: WaitRecord)
    requires WaitInv(s) && w.threadId in s.threads
    requires forall v :: v in s.waits && (v == id || (RaceOf(w).Some? && RaceOf(s.waits[v]) == RaceOf(w))) ==> s.waits[v].threadId == w.threadId
    ensures var next := s.(waits := s.waits[id := w]);
      var r := s.threads[w.threadId];
      WaitInv(if IsTerminal(r.status) then next else PutThread(next, r.(status := Waiting)))
  {
    AddedWait(s.waits, id, w);
  }

  lemma RegisterKeepsWaits(s: RunState, e: Event)
    requires WaitInv(s) && WaitInPlace(s, e) && e.etype.WaitRegistered? && !e.ephemeral
    ensures WaitInv(RegisterWait(s, e))
  {
    var id := ReadString(e.payload, KWaitId);
    var t := TargetThread(e);
    var on := DecodeWait(FieldOrNull(e.payload, KOn));
    if NonEmpty(id) && NonEmpty(t) && on.Some? {
      var w := WaitRecord(id.value, t.value, on.value, Field(e.payload, KTag));
      assert RaceOf(w) == RaceOf(WaitRecord("", t.value, OnTimer(0), Field(e.payload, KTag)));
      PlacedWait(s, id.value, w);
    }
  }

  lemma AddedWait(waits: map<string, WaitRecord>, id: string, w: WaitRecord)
    requires RacesLocal(waits)
    requires forall v :: v in waits && (v == id || (RaceOf(w).Some? && RaceOf(waits[v]) == RaceOf(w))) ==> waits[v].threadId == w.threadId
    ensures RacesLocal(waits[id := w])
    ensures OwnsWait(waits[id := w], w.threadId)
    ensures forall u :: u != w.threadId ==> OwnsWait(waits[id := w], u) == OwnsWait(waits, u)
  {
    assert waits[id := w][id].threadId == w.threadId;
    forall u | u != w.threadId ensures OwnsWait(waits[id := w], u) == OwnsWait(waits, u) {
      if OwnsWait(waits, u) {
        var v :| v in waits && waits[v].threadId == u;
        assert waits[id := w][v].threadId == u;
      }
    }
  }

  /** Satisfying a wait removes waits of its own thread only. */
  lemma RemainingIsFewer(threads: map<string, ThreadRecord>, waits: map<string, WaitRecord>, id: string)
    requires Placed(threads, waits) && RacesLocal(waits)
    ensures var after := RemainingWaits(waits, id);
      && Fewer(after, waits)
      && (id !in waits ==> after == waits)
      && (id in waits ==> forall w :: w in waits && waits[w].threadId != waits[id].threadId ==> w in after)
  {
  }

  lemma SatisfyKeepsWaits(s: RunState, e: Event)
    requires WaitInv(s)
    ensures WaitInv(SatisfyWait(s, e))
  {
    if NonEmpty(ReadString(e.payload, KWaitId)) {
      var id := ReadString(e.payload, KWaitId).value;
      var after := RemainingWaits(s.waits, id);
      RemainingIsFewer(s.threads, s.waits, id);
      FewerWaits(s.threads, s.waits, after);
      if id in s.waits {
        var t := s.waits[id].threadId;
        forall u | u != t ensures OwnsWait(after, u) == OwnsWait(s.waits, u) {
          OthersOwnTheSame(s.waits, after, t, u);
        }
        assert OwnsWait(s.waits, t);
        SatisfiedThread(s, e, id, after);
      }
    }
  }

  /** The thread whose wait was satisfied runs again exactly when it has no wait left. */
  lemma SatisfiedThread(s: RunState, e: Event, id: string, after: map<string, WaitRecord>)
    requires WaitInv(s) && ReadString(e.payload, KWaitId) == Some(id) && id != "" && id in s.waits
    requires after == RemainingWaits(s.waits, id) && OwnsWait(s.waits, s.waits[id].threadId)
    requires Placed(s.threads, after) && RacesLocal(after)
    requires forall u :: u != s.waits[id].threadId ==> OwnsWait(after, u) == OwnsWait(s.waits, u)
    ensures WaitInv(SatisfyWait(s, e))
  {
    var t := s.waits[id].threadId;
    var n := SatisfyWait(s, e);
    assert n.waits == after;
    assert n.threads == s.threads[t := n.threads[t]];
  }

  lemma ProtocolKeepsWaits(s: RunState, e: Event, reg: Registry)
    requires WaitInv(s) && StartsFresh(s, e) && WaitInPlace(s, e) && !e.ephemeral
    ensures WaitInv(ApplyProtocol(s, e, reg))
  {
    hide StartThread, RegisterWait, SatisfyWait, ApplyRunEvent, FaultOf, OptFault, WaitingMeansWaits, RacesLocal, Placed;
    var t := TargetThread(e);
    var known := NonEmpty(t) && t.value in s.threads;
    if e.etype.ThreadStarted? { StartKeepsWaits(s, e, reg); }
    else if e.etype.ThreadCompleted? {
      if known { PutKeepsWaits(s, s.threads[t.value].(status := Completed, output := FieldOrNull(e.payload, KOutput), error := None)); }
    } else if e.etype.ThreadFailed? {
      if known { DropKeepsWaits(s, s.threads[t.value].(status := Failed, error := Some(FaultOf(e.payload, ThreadFault)))); }
    } else if e.etype.ThreadCancelled? {
      if known {
        var r := s.threads[t.value];
        DropKeepsWaits(s, r.(status := Cancelled, error := OrElse(OptFault(ReadString(e.payload, KReason)), r.error)));
      }
    } else if e.etype.WaitRegistered? { RegisterKeepsWaits(s, e); }
    else if e.etype.WaitSatisfied? { SatisfyKeepsWaits(s, e); }
  }

  lemma DeliverKeepsWaits(s: RunState, e: Event, reg: Registry, settled: Option<OutstandingEffect>)
    requires WaitInv(s)
    ensures WaitInv(Deliver(s, e, reg, settled))
  {
    if Delivers(s, e, reg) {
      var t := DeliveryTarget(s, e).value;
      var d := Deliver(s, e, reg, settled);
      assert d.waits == s.waits && d.threads == s.threads[t := s.threads[t].(state := d.threads[t].state)];
      PutKeepsWaits(s, d.threads[t]);
    }
  }

  lemma FoldEventKeepsWaits(s: RunState, e: Event, reg: Registry)
    requires WaitInv(s) && StartsFresh(s, e) && WaitInPlace(s, e)
    ensures WaitInv(FoldEvent(s, e, reg))
  {
    if !e.ephemeral {
      ProtocolKeepsWaits(Admit(s, e), e, reg);
      var p := Prepare(s, e, reg);
      DeliverKeepsWaits(p, e, reg, SettledWithoutOutcome(s, e));
      var d := Deliver(p, e, reg, SettledWithoutOutcome(s, e));
      if NonEmpty(e.threadId) && e.threadId.value in d.threads {
        DropKeepsWaits(d, d.threads[e.threadId.value].(status := Failed, error := Some(FaultOf(e.payload, EffectFault))));
      }
    }
  }

  lemma {:induction false} FoldFromKeepsWaits(s: RunState, events: seq<Event>, reg: Registry)
    requires WaitInv(s) && Orderly(s, events, reg)
    ensures WaitInv(FoldFrom(s, events, reg))
    decreases |events|
  {
    if events != [] {
      FoldEventKeepsWaits(s, events[0], reg);
      FoldFromKeepsWaits(FoldEvent(s, events[0], reg), events[1..], reg);
    }
  }

  /** In the state of an orderly log, a live thread is waiting exactly when it owns an open wait. */
  lemma WaitingIffOwnsWait(events: seq<Event>, reg: Registry, runId: string, t: string)
    requires Orderly(Empty(runId), events, reg)
    requires var s := FoldRun(events, reg, runId); t in s.threads && !IsTerminal(s.threads[t].status)
    ensures var s := FoldRun(events, reg, runId); s.threads[t].status.Waiting? <==> OwnsWait(s.waits, t)
  {
    FoldFromKeepsWaits(Empty(runId), events, reg);
  }

  // ---------------------------------------------------------------- terminal threads

  /** Each thread id is started once. */
  ghost predicate StartsOnce(s: RunState, events: seq<Event>, reg: Registry)
    decreases |events|
  {
    events == [] || (StartsFresh(s, events[0]) && StartsOnce(FoldEvent(s, events[0], reg), events[1..], reg))
  }

  ghost predicate Idle(s: RunState, t: string) {
    forall item :: item in s.outstanding ==> item.threadId != t
  }

  ghost predicate Ended(s: RunState, t: string) {
    t in s.threads && IsTerminal(s.threads[t].status)
  }

  /** The thread is still terminal, with the same local state, and owns no effect it did not own. */
  ghost predicate StillEnded(s: RunState, n: RunState, t: string) {
    && Ended(s, t) && Ended(n, t) && n.threads[t].state == s.threads[t].state
    && forall item :: item in n.outstanding && item.threadId == t ==> item in s.outstanding
  }

  lemma ProtocolStillEnded(s: RunState, e: Event, reg: Registry, t: string)
    requires SelfNamed(s.threads) && Ended(s, t) && StartsFresh(s, e) && !e.ephemeral
    ensures StillEnded(s, ApplyProtocol(s, e, reg), t)
  {
    ProtocolShrinks(s, e, reg);
    if e.etype.ThreadStarted? { StartStillEnded(s, e, reg, t); }
    else if e.etype.WaitRegistered? || e.etype.WaitSatisfied? { WaitStillEnded(s, e, t); }
    else if e.etype.ThreadCompleted? || e.etype.ThreadFailed? || e.etype.ThreadCancelled? { EndStillEnded(s, e, t); }
  }

  lemma StartStillEnded(s: RunState, e: Event, reg: Registry, t: string)
    requires Ended(s, t) && StartsFresh(s, e) && !e.ephemeral && e.etype.ThreadStarted?
    ensures Ended(StartThread(s, e, reg), t) && StartThread(s, e, reg).threads[t] == s.threads[t]
  {
  }

  lemma WaitStillEnded(s: RunState, e: Event, t: string)
    requires SelfNamed(s.threads) && Ended(s, t)
    ensures Ended(RegisterWait(s, e), t) && RegisterWait(s, e).threads[t] == s.threads[t]
    ensures Ended(SatisfyWait(s, e), t) && SatisfyWait(s, e).threads[t] == s.threads[t]
  {
  }

  lemma EndStillEnded(s: RunState, e: Event, t: string)
    requires SelfNamed(s.threads) && Ended(s, t)
    ensures Ended(CompleteThread(s, e), t) && CompleteThread(s, e).threads[t].state == s.threads[t].state
    ensures Ended(FailThread(s, e), t) && FailThread(s, e).threads[t].state == s.threads[t].state
    ensures Ended(CancelThread(s, e), t) && CancelThread(s, e).threads[t].state == s.threads[t].state
  {
  }

  lemma DeliverStillEnded(s: RunState, e: Event, reg: Registry, settled: Option<OutstandingEffect>, t: string)
    requires SelfNamed(s.threads) && Ended(s, t)
    ensures StillEnded(s, Deliver(s, e, reg, settled), t)
  {
    if Delivers(s, e, reg) {
      var u := DeliveryTarget(s, e).value;
      var enabled := EnabledBy(s, e, reg);
      var mine := OfThread(s.outstanding, u);
      MatchAccounts(u, e, enabled, 0, mine, settled);
      var matched := Match(u, e, enabled, 0, mine, settled);
      var d := Deliver(s, e, reg, settled);
      assert d.outstanding == OffThread(s.outstanding, u) + NotCompleted(matched, s.completed);
      forall item | item in d.outstanding && item.threadId == t ensures item in s.outstanding {
        if item in matched { assert Accounted(item, u, e, enabled, 0, mine); }
      }
      assert d.threads[t] == s.threads[t];
    }
  }

  lemma FoldEventStillEnded(s: RunState, e: Event, reg: Registry, t: string)
    requires SelfNamed(s.threads) && Ended(s, t) && StartsFresh(s, e)
    ensures StillEnded(s, FoldEvent(s, e, reg), t) && SelfNamed(FoldEvent(s, e, reg).threads)
  {
    if !e.ephemeral {
      var a := Admit(s, e);
      ProtocolStillEnded(a, e, reg, t);
      ProtocolThreads(a, e, reg);
      var p := Prepare(s, e, reg);
      DeliverStillEnded(p, e, reg, SettledWithoutOutcome(s, e), t);
      var d := Deliver(p, e, reg, SettledWithoutOutcome(s, e));
      DeliverRemembers(p, e, reg, SettledWithoutOutcome(s, e), Stable("", ""));
      FailShrinks(d, e, p.outstanding);
      FailStillEnded(d, e, p.outstanding, t);
    }
  }

  lemma FailStillEnded(s: RunState, e: Event, before: seq<OutstandingEffect>, t: string)
    requires SelfNamed(s.threads) && Ended(s, t)
    ensures Ended(FailUnhandled(s, e, before), t) && FailUnhandled(s, e, before).threads[t] == s.threads[t]
  {
  }

  /** A terminal thread stays terminal through any log that starts each thread once, and its local state never changes. */
  lemma {:induction false} TerminalThreadStays(s: RunState, events: seq<Event>, reg: Registry, t: string)
    requires SelfNamed(s.threads) && Ended(s, t) && StartsOnce(s, events, reg)
    ensures StillEnded(s, FoldFrom(s, events, reg), t)
    decreases |events|
  {
    if events != [] {
      FoldEventStillEnded(s, events[0], reg, t);
      TerminalThreadStays(FoldEvent(s, events[0], reg), events[1..], reg, t);
    }
  }

  /** A thread that may own outstanding effects: started, and neither failed nor cancelled. */
  ghost predicate MayOwn(threads: map<string, ThreadRecord>, t: string) {
    t in threads && !threads[t].status.Failed? && !threads[t].status.Cancelled?
  }

  ghost predicate DeadOwnNothing(s: RunState) {
    SelfNamed(s.threads) && forall item :: item in s.outstanding ==> MayOwn(s.threads, item.threadId)
  }

  /** Losing items while threads that keep some may still own them. */
  lemma FewerItems(s: RunState, n: RunState)
    requires DeadOwnNothing(s) && SelfNamed(n.threads)
    requires forall item :: item in n.outstanding ==> item in s.outstanding
    requires forall item :: item in n.outstanding && MayOwn(s.threads, item.threadId) ==> MayOwn(n.threads, item.threadId)
    ensures DeadOwnNothing(n)
  {
  }

  lemma DropDeadOwn(s: RunState, r: ThreadRecord)
    requires DeadOwnNothing(s)
    ensures DeadOwnNothing(DropThreadWork(PutThread(s, r), r.threadId))
  {
    FewerItems(s, DropThreadWork(PutThread(s, r), r.threadId));
  }

  lemma ProtocolDeadOwn(s: RunState, e: Event, reg: Registry)
    requires DeadOwnNothing(s) && StartsFresh(s, e) && !e.ephemeral
    ensures DeadOwnNothing(ApplyProtocol(s, e, reg))
  {
    var t := TargetThread(e);
    var known := NonEmpty(t) && t.value in s.threads;
    if e.etype.ThreadFailed? {
      if known { DropDeadOwn(s, s.threads[t.value].(status := Failed, error := Some(FaultOf(e.payload, ThreadFault)))); }
    } else if e.etype.ThreadCancelled? {
      if known {
        var r := s.threads[t.value];
        DropDeadOwn(s, r.(status := Cancelled, error := OrElse(OptFault(ReadString(e.payload, KReason)), r.error)));
      }
    } else {
      ProtocolShrinks(s, e, reg);
      ProtocolThreads(s, e, reg);
      forall u | MayOwn(s.threads, u) ensures MayOwn(ApplyProtocol(s, e, reg).threads, u) {
        StillMayOwn(s, e, reg, u);
      }
      FewerItems(s, ApplyProtocol(s, e, reg));
    }
  }

  lemma StartStillMayOwn(s: RunState, e: Event, reg: Registry, u: string)
    requires MayOwn(s.threads, u) && StartsFresh(s, e) && !e.ephemeral && e.etype.ThreadStarted?
    ensures MayOwn(StartThread(s, e, reg).threads, u)
  {
  }

  lemma CompleteStillMayOwn(s: RunState, e: Event, u: string)
    requires SelfNamed(s.threads) && MayOwn(s.threads, u)
    ensures MayOwn(CompleteThread(s, e).threads, u)
  {
  }

  lemma WaitStillMayOwn(s: RunState, e: Event, u: string)
    requires SelfNamed(s.threads) && MayOwn(s.threads, u)
    ensures MayOwn(RegisterWait(s, e).threads, u) && MayOwn(SatisfyWait(s, e).threads, u)
  {
  }

  lemma StillMayOwn(s: RunState, e: Event, reg: Registry, u: string)
    requires SelfNamed(s.threads) && MayOwn(s.threads, u) && StartsFresh(s, e) && !e.ephemeral
    requires !e.etype.ThreadFailed? && !e.etype.ThreadCancelled?
    ensures MayOwn(ApplyProtocol(s, e, reg).threads, u)
  {
    if e.etype.ThreadStarted? { StartStillMayOwn(s, e, reg, u); }
    else if e.etype.ThreadCompleted? { CompleteStillMayOwn(s, e, u); }
    else if e.etype.WaitRegistered? || e.etype.WaitSatisfied? { WaitStillMayOwn(s, e, u); }
  }

  lemma DeliverDeadOwn(s: RunState, e: Event, reg: Registry, settled: Option<OutstandingEffect>)
    requires DeadOwnNothing(s)
    ensures DeadOwnNothing(Deliver(s, e, reg, settled))
  {
    if Delivers(s, e, reg) {
      var u := DeliveryTarget(s, e).value;
      var enabled := EnabledBy(s, e, reg);
      var mine := OfThread(s.outstanding, u);
      MatchAccounts(u, e, enabled, 0, mine, settled);
      var matched := Match(u, e, enabled, 0, mine, settled);
      var d := Deliver(s, e, reg, settled);
      assert d.outstanding == OffThread(s.outstanding, u) + NotCompleted(matched, s.completed);
      assert d.threads == s.threads[u := s.threads[u].(state := d.threads[u].state)];
      forall item | item in d.outstanding ensures MayOwn(d.threads, item.threadId) {
        if item in matched { assert Accounted(item, u, e, enabled, 0, mine); }
      }
    }
  }

  lemma FoldEventDeadOwn(s: RunState, e: Event, reg: Registry)
    requires DeadOwnNothing(s) && StartsFresh(s, e)
    ensures DeadOwnNothing(FoldEvent(s, e, reg))
  {
    if !e.ephemeral {
      FewerItems(s, Admit(s, e));
      ProtocolDeadOwn(Admit(s, e), e, reg);
      var p := Prepare(s, e, reg);
      DeliverDeadOwn(p, e, reg, SettledWithoutOutcome(s, e));
      var d := Deliver(p, e, reg, SettledWithoutOutcome(s, e));
      if NonEmpty(e.threadId) && e.threadId.value in d.threads {
        DropDeadOwn(d, d.threads[e.threadId.value].(status := Failed, error := Some(FaultOf(e.payload, EffectFault))));
      }
    }
  }

  lemma {:induction false} FoldFromDeadOwn(s: RunState, events: seq<Event>, reg: Registry)
    requires DeadOwnNothing(s) && StartsOnce(s, events, reg)
    ensures DeadOwnNothing(FoldFrom(s, events, reg))
    decreases |events|
  {
    if events != [] {
      FoldEventDeadOwn(s, events[0], reg);
      FoldFromDeadOwn(FoldEvent(s, events[0], reg), events[1..], reg);
    }
  }

  lemma {:induction false} StartsOnceAppend(s: RunState, a: seq<Event>, b: seq<Event>, reg: Registry)
    requires StartsOnce(s, a + b, reg)
    ensures StartsOnce(s, a, reg) && StartsOnce(FoldFrom(s, a, reg), b, reg)
    decreases |a|
  {
    if a == [] {
      assert a + b == b;
    } else {
      assert (a + b)[1..] == a[1..] + b;
      StartsOnceAppend(FoldEvent(s, a[0], reg), a[1..], b, reg);
    }
  }

  /**
   * A thread found failed or cancelled anywhere in a log that starts each thread once owns no outstanding effect there,
   * and owns none anywhere later in the log.
   */
  lemma DeadThreadNeverOwnsAgain(before: seq<Event>, after: seq<Event>, reg: Registry, runId: string, t: string)
    requires StartsOnce(Empty(runId), before + after, reg)
    requires var s := FoldRun(before, reg, runId);
      t in s.threads && (s.threads[t].status.Failed? || s.threads[t].status.Cancelled?)
    ensures Idle(FoldRun(before, reg, runId), t)
    ensures Idle(FoldRun(before + after, reg, runId), t)
  {
    var s := FoldRun(before, reg, runId);
    StartsOnceAppend(Empty(runId), before, after, reg);
    FoldFromDeadOwn(Empty(runId), before, reg);
    FoldFromAppend(Empty(runId), before, after, reg);
    TerminalThreadStays(s, after, reg, t);
  }
}

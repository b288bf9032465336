/** What folding a cancellation does: the subtree ends, and nothing else moves. */
module CancellationFold {
  import opened Common
  import opened Events
  import opened Fold
  import opened FoldIdentity
  import opened FoldThreads
  import opened Cancellation
  import opened Waits

  // ---------------------------------------------------------------- the order of the events

  lemma {:induction false} WalkIsEarlier(s: RunState, t: string, target: string)
    requires ParentsFirst(s) && IsBelow(s, t, target) && target in s.threads
    ensures Position(s.started, target) < Position(s.started, t)
    decreases Position(s.started, t)
  {
    var p := s.threads[t].parentThreadId.value;
    ParentEarlier(s, t);
    if p != target { WalkIsEarlier(s, p, target); }
  }

  lemma ReversedOrder(xs: seq<string>, a: string, b: string)
    requires Before(xs, a, b)
    ensures Before(Reversed(xs), b, a)
  {
    var i, j :| 0 <= i < j < |xs| && xs[i] == a && xs[j] == b;
    var r := Reversed(xs);
    assert r[|xs| - 1 - j] == b && r[|xs| - 1 - i] == a;
  }

  /** Every thread's cancellation comes before its parent's. */
  lemma ChildrenEndBeforeParents(s: RunState, target: string, t: string, p: string)
    requires ParentsFirst(s) && IsParent(s, t, p)
    requires t in CancelOrder(s, target) && p in CancelOrder(s, target)
    ensures Before(CancelOrder(s, target), t, p)
  {
    var below := DescendantThreadIds(s, target);
    var all := Reversed(below) + [target];
    assert forall x :: x in Reversed(below) ==> x in below;
    if t == target {
      assert p in below || p == target;
      ParentEarlier(s, t);
      if p in s.threads { WalkIsEarlierOrSame(s, p, target); }
      assert false;
    }
    assert t in below;
    if p == target {
      var k :| 0 <= k < |below| && below[k] == t;
      assert all[|below| - 1 - k] == t && all[|below|] == p;
    } else {
      assert p in below;
      FilterInOrder(s.started, (x: string) => IsBelow(s, x, target), p, t);
      ReversedOrder(below, p, t);
      var i, j :| 0 <= i < j < |below| && Reversed(below)[i] == t && Reversed(below)[j] == p;
      assert all[i] == t && all[j] == p;
    }
    FilterInOrder(all, (x: string) => x != "", t, p);
  }

  /** The target is not started after a thread below it. */
  lemma WalkIsEarlierOrSame(s: RunState, p: string, target: string)
    requires ParentsFirst(s) && target in s.threads && p in s.threads && (p == target || IsBelow(s, p, target))
    ensures Position(s.started, target) <= Position(s.started, p)
  {
    if p != target { WalkIsEarlier(s, p, target); }
  }

  // ---------------------------------------------------------------- one event

  /** Facts every reached state has: records and items carry their own thread's id. */
  ghost predicate Sane(s: RunState) {
    && SelfNamed(s.threads)
    && forall item :: item in s.outstanding ==> item.effectId.thread == item.threadId
  }

  /** Nothing changed outside `sub`: threads, waits, and outstanding effects in order; and no wait is new. */
  ghost predicate Outside(s: RunState, n: RunState, sub: set<string>) {
    && n.threads.Keys == s.threads.Keys
    && (forall t :: t in s.threads && t !in sub ==> n.threads[t] == s.threads[t])
    && (forall w :: w in s.waits && s.waits[w].threadId !in sub ==> w in n.waits && n.waits[w] == s.waits[w])
    && (forall w :: w in n.waits ==> w in s.waits && n.waits[w] == s.waits[w])
    && (forall t :: t !in sub ==> OfThread(n.outstanding, t) == OfThread(s.outstanding, t))
  }

  ghost predicate SameStatus(s: RunState, n: RunState) {
    n.threads.Keys == s.threads.Keys && forall t :: t in s.threads ==> n.threads[t].status == s.threads[t].status
  }

  predicate Live(s: RunState, t: string) {
    t in s.threads && !IsTerminal(s.threads[t].status)
  }

  /** Cancelled, with no wait and no outstanding effect left. */
  ghost predicate Gone(s: RunState, t: string) {
    t in s.threads && s.threads[t].status.Cancelled? && !OwnsWait(s.waits, t) && OfThread(s.outstanding, t) == []
  }

  lemma OutsideTransitive(a: RunState, b: RunState, c: RunState, sub: set<string>)
    requires Outside(a, b, sub) && Outside(b, c, sub)
    ensures Outside(a, c, sub)
  {
  }

  lemma OutsideGrows(a: RunState, b: RunState, small: set<string>, sub: set<string>)
    requires Outside(a, b, small) && small <= sub
    ensures Outside(a, b, sub)
  {
  }

  lemma CompleteOutside(s: RunState, id: EffectId)
    requires Sane(s)
    ensures Sane(CompleteEffect(s, id)) && Outside(s, CompleteEffect(s, id), {id.thread}) && SameStatus(s, CompleteEffect(s, id))
    ensures CompleteEffect(s, id).waits == s.waits
  {
    forall t | t != id.thread ensures OfThread(CompleteEffect(s, id).outstanding, t) == OfThread(s.outstanding, t) {
      FilterWithin(s.outstanding, (item: OutstandingEffect) => item.effectId != id, (item: OutstandingEffect) => item.threadId == t);
    }
  }

  lemma DropOutside(s: RunState, r: ThreadRecord)
    requires Sane(s) && r.threadId in s.threads
    ensures var n := DropThreadWork(PutThread(s, r), r.threadId);
      Sane(n) && Outside(s, n, {r.threadId}) && !OwnsWait(n.waits, r.threadId) && OfThread(n.outstanding, r.threadId) == []
  {
    var u := r.threadId;
    forall t | t != u ensures OfThread(OffThread(s.outstanding, u), t) == OfThread(s.outstanding, t) {
      FilterWithin(s.outstanding, (item: OutstandingEffect) => item.threadId != u, (item: OutstandingEffect) => item.threadId == t);
    }
    FilterNone(OffThread(s.outstanding, u), (item: OutstandingEffect) => item.threadId == u);
  }

  /** Items for one thread: all are its own, under ids that carry its id. */
  lemma MappedAreOwn(t: string, e: Event, effects: seq<RuntimeEffect>, completed: seq<EffectId>,
                     existing: seq<OutstandingEffect>, settled: Option<OutstandingEffect>)
    requires forall item :: item in existing ==> item.threadId == t && item.effectId.thread == t
    ensures forall item :: item in MapEffects(t, e, effects, completed, existing, settled) ==>
      item.threadId == t && item.effectId.thread == t
  {
    MatchAccounts(t, e, effects, 0, existing, settled);
    forall item | item in Match(t, e, effects, 0, existing, settled) ensures item.threadId == t && item.effectId.thread == t {
      assert Accounted(item, t, e, effects, 0, existing);
    }
  }

  lemma DeliverQuiet(s: RunState, e: Event, reg: Registry, settled: Option<OutstandingEffect>, u: string)
    requires Sane(s) && e.threadId == Some(u)
    ensures Quiet(s, Deliver(s, e, reg, settled), u)
  {
    if Delivers(s, e, reg) {
      var enabled := EnabledBy(s, e, reg);
      var mine, others := OfThread(s.outstanding, u), OffThread(s.outstanding, u);
      var mapped := MapEffects(u, e, enabled, s.completed, mine, settled);
      MappedAreOwn(u, e, enabled, s.completed, mine, settled);
      var n := Deliver(s, e, reg, settled);
      assert n.outstanding == others + mapped;
      forall t | t != u ensures OfThread(n.outstanding, t) == OfThread(s.outstanding, t) {
        FilterAppend(others, mapped, (item: OutstandingEffect) => item.threadId == t);
        FilterNone(mapped, (item: OutstandingEffect) => item.threadId == t);
        FilterWithin(s.outstanding, (item: OutstandingEffect) => item.threadId != u, (item: OutstandingEffect) => item.threadId == t);
      }
    }
  }

  /** The effect events of a plan: about one thread's effect, delivered to that thread. */
  ghost predicate EffectEventOf(e: Event, u: string) {
    && !e.ephemeral && (e.etype.EffectCancelled? || e.etype.EffectCancelRequested?) && e.threadId == Some(u)
    && (e.effectId.Some? ==> e.effectId.value.thread == u) && (e.subject.Some? ==> e.subject.value.thread == u)
  }

  /** A step that keeps statuses and waits, and touches only `u`. */
  ghost predicate Quiet(s: RunState, n: RunState, u: string) {
    Sane(n) && Outside(s, n, {u}) && SameStatus(s, n) && n.waits == s.waits
  }

  lemma QuietTransitive(a: RunState, b: RunState, c: RunState, u: string)
    requires Quiet(a, b, u) && Quiet(b, c, u)
    ensures Quiet(a, c, u)
  {
    OutsideTransitive(a, b, c, {u});
  }

  lemma AdmitQuiet(s: RunState, e: Event, u: string)
    requires Sane(s) && (e.effectId.Some? ==> e.effectId.value.thread == u)
    ensures Quiet(s, Admit(s, e), u)
  {
    if e.effectId.Some? { CompleteOutside(s, e.effectId.value); }
  }

  lemma ProtocolQuiet(s: RunState, e: Event, u: string, reg: Registry)
    requires Sane(s) && EffectEventOf(e, u)
    ensures Quiet(s, ApplyProtocol(s, e, reg), u)
  {
    if e.etype.EffectCancelled? && e.subject.Some? { CompleteOutside(s, e.subject.value); }
  }

  lemma EffectEventIsLocal(s: RunState, e: Event, u: string, reg: Registry)
    requires Sane(s) && EffectEventOf(e, u)
    ensures Quiet(s, FoldEvent(s, e, reg), u)
  {
    hide Admit, ApplyProtocol, Deliver, Quiet, SettledWithoutOutcome;
    var a, p := Admit(s, e), Prepare(s, e, reg);
    AdmitQuiet(s, e, u);
    assert Sane(a) by { QuietIsSane(s, a, u); }
    ProtocolQuiet(a, e, u, reg);
    QuietTransitive(s, a, p, u);
    QuietIsSane(s, p, u);
    var d := Deliver(p, e, reg, SettledWithoutOutcome(s, e));
    DeliverQuiet(p, e, reg, SettledWithoutOutcome(s, e), u);
    QuietTransitive(s, p, d, u);
    assert FailUnhandled(d, e, p.outstanding) == d;
  }

  lemma QuietIsSane(s: RunState, n: RunState, u: string)
    requires Quiet(s, n, u)
    ensures Sane(n)
  {
  }

  ghost predicate CancelEventOf(e: Event, u: string) {
    !e.ephemeral && e.etype.ThreadCancelled? && e.threadId == Some(u) && u != "" && TargetThread(e) == Some(u) && e.effectId.None?
  }

  lemma CancelThreadIsLocal(s: RunState, e: Event, u: string)
    requires Sane(s) && TargetThread(e) == Some(u) && u != ""
    ensures var n := CancelThread(s, e);
      && Sane(n) && Outside(s, n, {u}) && !Live(n, u)
      && (Live(s, u) ==> Gone(n, u)) && (!Live(s, u) ==> n == s)
  {
    if Live(s, u) {
      DropOutside(s, s.threads[u].(status := Cancelled, error := OrElse(OptFault(ReadString(e.payload, KReason)), s.threads[u].error)));
    }
  }

  lemma CancelEventIsLocal(s: RunState, e: Event, u: string, reg: Registry)
    requires Sane(s) && CancelEventOf(e, u)
    ensures var n := FoldEvent(s, e, reg);
      && Sane(n) && Outside(s, n, {u})
      && (Live(s, u) ==> Gone(n, u))
      && (!Live(s, u) ==> n.threads == s.threads && n.waits == s.waits && n.outstanding == s.outstanding)
  {
    var a := Admit(s, e);
    assert a == s.(head := a.head);
    CancelThreadIsLocal(a, e, u);
    hide Admit, CancelThread;
    var p := Prepare(s, e, reg);
    assert p == CancelThread(a, e);
    assert !Delivers(p, e, reg);
    assert FoldEvent(s, e, reg) == p;
    SameAsHead(s, a, p, u);
  }

  /** States that differ only in the head look the same from outside. */
  lemma SameAsHead(s: RunState, a: RunState, p: RunState, u: string)
    requires a == s.(head := a.head) && Outside(a, p, {u})
    ensures Outside(s, p, {u})
  {
  }

  // ---------------------------------------------------------------- whole plans

  lemma {:induction false} EffectPhase(s: RunState, events: seq<Event>, sub: set<string>, reg: Registry)
    requires Sane(s) && forall e :: e in events ==> exists u :: u in sub && EffectEventOf(e, u)
    ensures var n := FoldFrom(s, events, reg); Sane(n) && Outside(s, n, sub) && SameStatus(s, n)
    decreases |events|
  {
    hide FoldEvent;
    if events != [] {
      var e := events[0];
      assert e in events;
      var u :| u in sub && EffectEventOf(e, u);
      var m := FoldEvent(s, e, reg);
      EffectEventIsLocal(s, e, u, reg);
      QuietIsSane(s, m, u);
      OutsideGrows(s, m, {u}, sub);
      assert forall x :: x in events[1..] ==> x in events;
      EffectPhase(m, events[1..], sub, reg);
      OutsideTransitive(s, m, FoldFrom(m, events[1..], reg), sub);
    }
  }

  lemma {:induction false} CancelPhase(s: RunState, events: seq<Event>, order: seq<string>, sub: set<string>, reg: Registry)
    requires Sane(s) && |events| == |order|
    requires forall i :: 0 <= i < |order| ==> order[i] in sub && CancelEventOf(events[i], order[i])
    ensures var n := FoldFrom(s, events, reg);
      && Sane(n) && Outside(s, n, sub)
      && (forall t :: Gone(s, t) ==> Gone(n, t))
      && (forall t :: t in order && Live(s, t) ==> Gone(n, t))
    decreases |events|
  {
    hide FoldEvent;
    if events != [] {
      var m := FoldEvent(s, events[0], reg);
      var u := order[0];
      CancelEventIsLocal(s, events[0], u, reg);
      OutsideGrows(s, m, {u}, sub);
      CancelPhase(m, events[1..], order[1..], sub, reg);
      var n := FoldFrom(m, events[1..], reg);
      OutsideTransitive(s, m, n, sub);
      forall t | Gone(s, t) ensures Gone(n, t) { StaysGone(s, m, t, u); }
      forall t | t in order && Live(s, t) ensures Gone(n, t) {
        if t != u { assert t in order[1..] && Live(m, t); }
      }
    }
  }

  lemma StaysGone(s: RunState, m: RunState, t: string, u: string)
    requires Gone(s, t) && Outside(s, m, {u})
    requires !Live(s, u) ==> m.threads == s.threads && m.waits == s.waits && m.outstanding == s.outstanding
    ensures Gone(m, t)
  {
    assert forall w :: w in m.waits && m.waits[w].threadId == t && t != u ==> OwnsWait(s.waits, t);
  }

  lemma {:induction false} PlannedEffectEvents(s: RunState, items: seq<OutstandingEffect>, threadIds: set<string>, runId: string,
                                               now: int, host: Host, key: string)
    requires forall item :: item in items ==> item.effectId.thread == item.threadId
    ensures forall e :: e in EffectEvents(s, items, threadIds, runId, now, host, key) ==>
      exists u :: u in threadIds && EffectEventOf(e, u)
  {
    if items != [] {
      assert forall x :: x in items[1..] ==> x in items;
      PlannedEffectEvents(s, items[1..], threadIds, runId, now, host, key);
      if AsksWorker(s, threadIds, items[0], host) {
        var e := EffectEvent(runId, now, items[0], s.executions[items[0].effectId], host.timeout(TypeOf(items[0].effect)), key);
        assert items[0] in items;
        assert EffectEventOf(e, items[0].threadId);
      }
    }
  }

  /** The order names only subtree threads, and all of them that have a name. */
  lemma OrderIsTheSubtree(s: RunState, target: string, t: string)
    requires ParentsFirst(s)
    ensures t in CancelOrder(s, target) ==> t in SubtreeOf(s, target) && t != ""
    ensures t in s.threads && t != "" && (t == target || Below(s, t, target)) ==> t in CancelOrder(s, target)
  {
    var below := DescendantThreadIds(s, target);
    assert forall x :: x in Reversed(below) ==> x in below;
    DescendantsAreExactlyTheSubtree(s, target, t);
    if t in below {
      var k :| 0 <= k < |below| && below[k] == t;
      assert Reversed(below)[|below| - 1 - k] == t;
    }
  }

  lemma PlannedThreadEvents(s: RunState, target: string, runId: string, now: int, seqNo: int, key: string)
    requires ParentsFirst(s)
    ensures var order := CancelOrder(s, target);
      var threads := ThreadEvents(order, target, runId, now, seqNo, key);
      |threads| == |order| && forall i :: 0 <= i < |order| ==> order[i] in SubtreeOf(s, target) && CancelEventOf(threads[i], order[i])
  {
    var order := CancelOrder(s, target);
    forall i | 0 <= i < |order|
      ensures order[i] in SubtreeOf(s, target) && CancelEventOf(ThreadEvent(runId, now, order[i], target, seqNo, key), order[i])
    {
      assert order[i] in order;
      OrderIsTheSubtree(s, target, order[i]);
    }
  }

  /** Folding the plan's own events, however numbered, ends the subtree and leaves every thread outside as it was. */
  lemma BatchEndsTheSubtree(s: RunState, runId: string, seqNo: int, target: string, host: Host, now: int, reg: Registry,
                            appended: seq<Event>, t: string)
    requires ParentsFirst(s) && Sane(s) && "" !in s.threads
    requires AllAppended(CancelBatch(s, runId, seqNo, target, host, now), appended)
    ensures var n := FoldFrom(s, appended, reg);
      && Sane(n) && Outside(s, n, SubtreeOf(s, target))
      && (Live(s, t) && (t == target || Below(s, t, target)) ==> Gone(n, t))
  {
    hide FoldEvent, CancelOrder, SubtreeOf, CancelKey, ThreadEvents, Outside, Gone, Below, FoldFrom, AllAppended;
    var key, sub := CancelKey(target), SubtreeOf(s, target);
    var effects := EffectEvents(s, s.outstanding, sub, runId, now, host, key);
    var order := CancelOrder(s, target);
    var threads := ThreadEvents(order, target, runId, now, seqNo, key);
    AppendedPart(effects + threads, appended, effects, threads);
    var first, second := appended[..|effects|], appended[|effects|..];
    PlannedEffectEvents(s, s.outstanding, sub, runId, now, host, key);
    AppendedEffects(effects, first, sub);
    EffectPhase(s, first, sub, reg);
    var m := FoldFrom(s, first, reg);
    PlannedThreadEvents(s, target, runId, now, seqNo, key);
    AppendedCancels(threads, second, order);
    AppendedLength(threads, second);
    CancelPhase(m, second, order, sub, reg);
    FoldFromAppend(s, first, second, reg);
    OutsideTransitive(s, m, FoldFrom(m, second, reg), sub);
    OrderIsTheSubtree(s, target, t);
  }

  lemma AppendedLength(planned: seq<Event>, appended: seq<Event>)
    requires AllAppended(planned, appended)
    ensures |planned| == |appended|
  {
  }

  // ---------------------------------------------------------------- the waits it satisfies

  /** Wait `w` of thread `u` is satisfied. */
  predicate SatisfiesFor(e: Event, w: string, u: string) {
    !e.ephemeral && e.etype.WaitSatisfied? && ReadString(e.payload, KWaitId) == Some(w) && e.threadId == Some(u) && e.effectId.None?
  }

  /** Wait `w` is one of the satisfied `ids`, or races with one of them. */
  predicate EndedBy(waits: map<string, WaitRecord>, w: string, ids: set<string>)
    requires w in waits
  {
    exists v :: v in ids && v != "" && v in waits && (w == v || (NonEmpty(RaceOf(waits[v])) && RaceOf(waits[w]) == RaceOf(waits[v])))
  }

  function StillOpen(waits: map<string, WaitRecord>, ids: set<string>): map<string, WaitRecord> {
    map w | w in waits && !EndedBy(waits, w, ids) :: waits[w]
  }

  /** Only threads in `woken` moved; of the waits, exactly those in `ids` and their races are over; who was gone stays gone. */
  ghost predicate Woke(s: RunState, n: RunState, ids: set<string>, woken: set<string>) {
    && n.threads.Keys == s.threads.Keys && n.waits == StillOpen(s.waits, ids)
    && (forall t :: t in s.threads && t !in woken ==> n.threads[t] == s.threads[t])
    && (forall t :: t !in woken ==> OfThread(n.outstanding, t) == OfThread(s.outstanding, t))
    && forall t :: Gone(s, t) ==> Gone(n, t)
  }

  lemma StillOpenTwice(waits: map<string, WaitRecord>, first: set<string>, second: set<string>)
    ensures StillOpen(StillOpen(waits, first), second) == StillOpen(waits, first + second)
  {
    hide RaceOf;
    var left := StillOpen(waits, first);
    forall w | w in waits ensures EndedBy(waits, w, first + second) <==> w !in left || EndedBy(left, w, second) {
      if w in left && EndedBy(waits, w, second) {
        var v :| v in second && v != "" && v in waits && (w == v || (NonEmpty(RaceOf(waits[v])) && RaceOf(waits[w]) == RaceOf(waits[v])));
        if v !in left {
          var u :| u in first && u != "" && u in waits && (v == u || (NonEmpty(RaceOf(waits[u])) && RaceOf(waits[v]) == RaceOf(waits[u])));
          assert false;
        }
      }
    }
  }

  lemma SatisfyEnds(waits: map<string, WaitRecord>, w: string)
    requires w != ""
    ensures RemainingWaits(waits, w) == StillOpen(waits, {w})
  {
    hide RaceOf;
    forall x | x in waits && x != w && !(w in waits && NonEmpty(RaceOf(waits[w])) && RaceOf(waits[x]) == RaceOf(waits[w]))
      ensures !EndedBy(waits, x, {w})
    {
    }
  }

  lemma NothingEnds(waits: map<string, WaitRecord>)
    ensures StillOpen(waits, {}) == waits && StillOpen(waits, {""}) == waits
  {
    assert forall w :: w in waits ==> !EndedBy(waits, w, {}) && !EndedBy(waits, w, {""});
  }

  lemma WokeTransitive(a: RunState, b: RunState, c: RunState, first: set<string>, second: set<string>, woken: set<string>)
    requires Woke(a, b, first, woken) && Woke(b, c, second, woken)
    ensures Woke(a, c, first + second, woken)
  {
    hide StillOpen, Gone;
    StillOpenTwice(a.waits, first, second);
  }

  lemma SatisfyWaitIsLocal(s: RunState, e: Event, w: string, u: string)
    requires Sane(s) && SatisfiesFor(e, w, u) && (w in s.waits ==> s.waits[w].threadId == u)
    ensures Sane(SatisfyWait(s, e)) && Woke(s, SatisfyWait(s, e), {w}, {u})
  {
    var n := SatisfyWait(s, e);
    hide StillOpen, RaceOf;
    if w == "" {
      NothingEnds(s.waits);
    } else {
      SatisfyEnds(s.waits, w);
    }
    forall t | Gone(s, t) ensures Gone(n, t) {
      assert OwnsWait(n.waits, t) ==> OwnsWait(s.waits, t);
    }
  }

  lemma DeliverIsLocal(s: RunState, e: Event, reg: Registry, u: string)
    requires Sane(s) && e.threadId == Some(u) && !e.etype.EffectCompleted?
    ensures Sane(Deliver(s, e, reg, None)) && Woke(s, Deliver(s, e, reg, None), {}, {u})
  {
    var n := Deliver(s, e, reg, None);
    DeliverQuiet(s, e, reg, None, u);
    NothingEnds(s.waits);
    hide StillOpen, OfThread, OwnsWait, RaceOf;
    forall t | Gone(s, t) ensures Gone(n, t) {
      if t == u {
        assert !Delivers(s, e, reg) && n == s;
      }
    }
    hide Deliver, Gone;
  }

  lemma SatisfiedEventIsLocal(s: RunState, e: Event, w: string, u: string, reg: Registry)
    requires Sane(s) && SatisfiesFor(e, w, u) && (w in s.waits ==> s.waits[w].threadId == u)
    ensures Sane(FoldEvent(s, e, reg)) && Woke(s, FoldEvent(s, e, reg), {w}, {u})
  {
    var a := Admit(s, e);
    assert a == s.(head := a.head);
    hide Admit, SatisfyWait, Deliver, FailUnhandled, Sane, Woke;
    assert Sane(a) by { SaneIgnoresHead(s, a); }
    SatisfyWaitIsLocal(a, e, w, u);
    var p := SatisfyWait(a, e);
    assert p == Prepare(s, e, reg);
    DeliverIsLocal(p, e, reg, u);
    var n := Deliver(p, e, reg, None);
    NothingFails(n, e, p.outstanding);
    assert FoldEvent(s, e, reg) == n;
    WokeTransitive(a, p, n, {w}, {}, {u});
    assert {w} + {} == {w};
    WokeIgnoresHead(s, a, n, {w}, {u});
  }

  lemma NothingFails(n: RunState, e: Event, before: seq<OutstandingEffect>)
    requires !e.etype.EffectFailed?
    ensures FailUnhandled(n, e, before) == n
  {
  }

  lemma SaneIgnoresHead(s: RunState, a: RunState)
    requires a == s.(head := a.head) && Sane(s)
    ensures Sane(a)
  {
  }

  lemma WokeIgnoresHead(s: RunState, a: RunState, n: RunState, ids: set<string>, woken: set<string>)
    requires a == s.(head := a.head) && Woke(a, n, ids, woken)
    ensures Woke(s, n, ids, woken)
  {
    hide StillOpen, OfThread;
    assert forall t :: Gone(s, t) ==> Gone(a, t);
  }

  lemma WokeGrows(s: RunState, n: RunState, ids: set<string>, small: set<string>, woken: set<string>)
    requires Woke(s, n, ids, small) && small <= woken
    ensures Woke(s, n, ids, woken)
  {
    hide StillOpen, OfThread, Gone;
  }

  lemma WokeNothing(s: RunState, woken: set<string>)
    ensures Woke(s, s, {}, woken)
  {
    NothingEnds(s.waits);
  }

  function IdsOf(answers: seq<Answer>): set<string> {
    set a | a in answers :: a.waitId
  }

  function OwnersOf(answers: seq<Answer>): set<string> {
    set a | a in answers :: a.wait.threadId
  }

  /** The wait-satisfied events of these answers, in order. */
  predicate Announce(events: seq<Event>, answers: seq<Answer>) {
    |events| == |answers| && forall i :: 0 <= i < |events| ==> SatisfiesFor(events[i], answers[i].waitId, answers[i].wait.threadId)
  }

  lemma {:induction false} AnswerPhase(s: RunState, events: seq<Event>, answers: seq<Answer>, woken: set<string>, reg: Registry)
    requires Sane(s) && Announce(events, answers) && OwnersOf(answers) <= woken
    requires forall a :: a in answers && a.waitId in s.waits ==> s.waits[a.waitId].threadId == a.wait.threadId
    ensures Woke(s, FoldFrom(s, events, reg), IdsOf(answers), woken)
    decreases |events|
  {
    hide FoldEvent, Woke, Sane, SatisfiesFor;
    if events == [] {
      assert IdsOf(answers) == {};
      WokeNothing(s, woken);
    } else {
      var a, rest := answers[0], answers[1..];
      var m := FoldEvent(s, events[0], reg);
      assert a in answers && a.wait.threadId in OwnersOf(answers) && forall b :: b in rest ==> b in answers;
      assert OwnersOf(rest) <= OwnersOf(answers);
      assert Announce(events[1..], rest);
      SatisfiedEventIsLocal(s, events[0], a.waitId, a.wait.threadId, reg);
      WokeGrows(s, m, {a.waitId}, {a.wait.threadId}, woken);
      WokeKeepsRecords(s, m, {a.waitId}, woken);
      AnswerPhase(m, events[1..], rest, woken, reg);
      IdsSplit(answers);
      WokeTransitive(s, m, FoldFrom(m, events[1..], reg), {a.waitId}, IdsOf(rest), woken);
    }
  }

  lemma WokeKeepsRecords(s: RunState, n: RunState, ids: set<string>, woken: set<string>)
    requires Woke(s, n, ids, woken)
    ensures forall w :: w in n.waits ==> w in s.waits && n.waits[w] == s.waits[w]
  {
  }

  lemma IdsSplit(answers: seq<Answer>)
    requires answers != []
    ensures IdsOf(answers) == {answers[0].waitId} + IdsOf(answers[1..])
  {
    assert forall a :: a in answers <==> a == answers[0] || a in answers[1..];
  }

  // ---------------------------------------------------------------- the plan as it is appended

  /** `f` is the planned `e` once it is appended: with the id, number and time it was given. */
  predicate Appended(e: Event, f: Event) {
    f == e.(id := f.id, seqNo := f.seqNo, ts := f.ts)
  }

  predicate AllAppended(planned: seq<Event>, appended: seq<Event>) {
    |planned| == |appended| && forall i :: 0 <= i < |planned| ==> Appended(planned[i], appended[i])
  }

  lemma AppendedPart(planned: seq<Event>, appended: seq<Event>, first: seq<Event>, second: seq<Event>)
    requires AllAppended(planned, appended) && planned == first + second
    ensures |appended| == |first| + |second|
    ensures AllAppended(first, appended[..|first|]) && AllAppended(second, appended[|first|..])
    ensures appended == appended[..|first|] + appended[|first|..]
  {
    hide Appended;
    forall i | 0 <= i < |first| ensures Appended(first[i], appended[..|first|][i]) {
      assert first[i] == planned[i] && appended[..|first|][i] == appended[i];
    }
    forall i | 0 <= i < |second| ensures Appended(second[i], appended[|first|..][i]) {
      assert second[i] == planned[|first| + i] && appended[|first|..][i] == appended[|first| + i];
    }
  }

  lemma AppendedEffects(planned: seq<Event>, appended: seq<Event>, sub: set<string>)
    requires AllAppended(planned, appended) && forall e :: e in planned ==> exists u :: u in sub && EffectEventOf(e, u)
    ensures forall f :: f in appended ==> exists u :: u in sub && EffectEventOf(f, u)
  {
    forall f | f in appended ensures exists u :: u in sub && EffectEventOf(f, u) {
      var i :| 0 <= i < |appended| && appended[i] == f;
      assert planned[i] in planned && Appended(planned[i], f);
      var u :| u in sub && EffectEventOf(planned[i], u);
      assert EffectEventOf(f, u);
    }
  }

  lemma AppendedCancels(planned: seq<Event>, appended: seq<Event>, order: seq<string>)
    requires AllAppended(planned, appended) && |order| == |planned|
    requires forall i :: 0 <= i < |order| ==> CancelEventOf(planned[i], order[i])
    ensures forall i :: 0 <= i < |order| ==> CancelEventOf(appended[i], order[i])
  {
    forall i | 0 <= i < |order| ensures CancelEventOf(appended[i], order[i]) {
      assert Appended(planned[i], appended[i]) && CancelEventOf(planned[i], order[i]);
    }
  }

  lemma AppendedAnswers(answers: seq<Answer>, appended: seq<Event>, runId: string, now: int, host: WaitHost)
    requires AllAppended(SatisfiedEvents(answers, runId, now, host), appended)
    ensures Announce(appended, answers)
  {
    forall i | 0 <= i < |answers| ensures SatisfiesFor(appended[i], answers[i].waitId, answers[i].wait.threadId) {
      assert Appended(SatisfiedEvents(answers, runId, now, host)[i], appended[i]);
    }
  }

  /** What the planner's own fold of the batch shows of each answered wait. */
  lemma AnswersAreRecords(s: RunState, m: RunState, n: RunState, sub: set<string>, batch: seq<Event>, order: seq<string>, host: WaitHost)
    requires Outside(s, m, sub) && Outside(s, n, sub)
    ensures forall a :: a in Answers(batch, order, m.waits, host) && a.waitId in n.waits ==> n.waits[a.waitId] == a.wait
  {
    forall a | a in Answers(batch, order, m.waits, host) && a.waitId in n.waits ensures n.waits[a.waitId] == a.wait {
      AnsweredByTheFirst(batch, order, m.waits, host, a);
    }
  }

  /**
   * Folding an appended cancellation, whatever ids, numbers and times its events were given, that was not
   * already processed. Every live thread of the subtree ends up cancelled with no waits and no
   * outstanding effects. Outside it a thread keeps its record and its effects unless the cancellation's
   * own events satisfy one of its waits; and of the waits owned outside, those go that some event of the
   * cancellation is for, and what races with them, and no other.
   */
  lemma CancellationEndsTheSubtree(s: RunState, runId: string, seqNo: int, threadId: Option<string>, host: Host, now: int,
                                   reg: Registry, order: seq<string>, appended: seq<Event>, t: string)
    requires ParentsFirst(s) && Sane(s) && "" !in s.threads
    requires CancelKey(TargetOf(s, threadId)) !in s.head.processedKeys
    requires AllAppended(PlannedEvents(s, runId, seqNo, threadId, host, now, reg, order), appended)
    ensures var target := TargetOf(s, threadId);
      var batch := CancelBatch(s, runId, seqNo, target, host, now);
      var answers := Answers(batch, order, FoldFrom(s, batch, reg).waits, host.waits);
      && |batch| <= |appended|
      && var m := FoldFrom(s, appended[..|batch|], reg);
         var n := FoldFrom(s, appended, reg);
         && (Live(s, t) && (t == target || Below(s, t, target)) ==> Gone(n, t))
         && Outside(s, m, SubtreeOf(s, target)) && Woke(m, n, IdsOf(answers), OwnersOf(answers))
  {
    hide FoldEvent, SubtreeOf, CancelKey, Outside, Gone, Below, Sane, CancelBatch, FoldFrom, SatisfiedEvents, Answers, AllAppended;
    var target := TargetOf(s, threadId);
    var batch := CancelBatch(s, runId, seqNo, target, host, now);
    var planned := FoldFrom(s, batch, reg);
    var answers := Answers(batch, order, planned.waits, host.waits);
    SameAppended(batch);
    AppendedPart(PlannedEvents(s, runId, seqNo, threadId, host, now, reg, order), appended, batch,
                 SatisfiedEvents(answers, runId, now, host.waits));
    var first, second := appended[..|batch|], appended[|batch|..];
    BatchEndsTheSubtree(s, runId, seqNo, target, host, now, reg, batch, t);
    BatchEndsTheSubtree(s, runId, seqNo, target, host, now, reg, first, t);
    var m := FoldFrom(s, first, reg);
    AnswersAreRecords(s, planned, m, SubtreeOf(s, target), batch, order, host.waits);
    AppendedAnswers(answers, second, runId, now, host.waits);
    AnswerPhase(m, second, answers, OwnersOf(answers), reg);
    FoldFromAppend(s, first, second, reg);
  }

  lemma SameAppended(events: seq<Event>)
    ensures AllAppended(events, events)
  {
  }

  // ---------------------------------------------------------------- reached states

  /** A start event names a new thread whose parent, if it has one, was started before it. */
  ghost predicate StartsNested(s: RunState, e: Event) {
    e.etype.ThreadStarted? && !e.ephemeral && NonEmpty(TargetThread(e)) ==>
      && TargetThread(e).value !in s.threads
      && (NonEmpty(ParentOf(e.payload)) ==> ParentOf(e.payload).value in s.threads)
  }

  ghost predicate Nested(s: RunState, events: seq<Event>, reg: Registry)
    decreases |events|
  {
    events == [] || (StartsNested(s, events[0]) && Nested(FoldEvent(s, events[0], reg), events[1..], reg))
  }

  ghost predicate ParentsKnown(s: RunState) {
    forall t :: t in s.threads && NonEmpty(s.threads[t].parentThreadId) ==> s.threads[t].parentThreadId.value in s.threads
  }

  /** What `CancellationEndsTheSubtree` asks of a state, and that every parent is known. */
  ghost predicate Sound(s: RunState) {
    ParentsFirst(s) && ParentsKnown(s) && Sane(s) && "" !in s.threads
  }

  lemma BeforeAppended(order: seq<string>, t: string, a: string, b: string)
    ensures Before(order, a, b) ==> Before(order + [t], a, b)
    ensures a in order ==> Before(order + [t], a, t)
  {
    var longer := order + [t];
    if Before(order, a, b) {
      var i, j :| 0 <= i < j < |order| && order[i] == a && order[j] == b;
      assert longer[i] == a && longer[j] == b;
    }
    if a in order {
      var i :| 0 <= i < |order| && order[i] == a;
      assert longer[i] == a && longer[|order|] == t;
    }
  }

  lemma ThreadAdded(s: RunState, n: RunState, t: string)
    requires ParentsFirst(s) && ParentsKnown(s) && SelfNamed(n.threads) && t !in s.threads
    requires n.started == s.started + [t] && n.threads.Keys == s.threads.Keys + {t}
    requires forall x :: x in s.threads ==> n.threads[x] == s.threads[x]
    requires NonEmpty(n.threads[t].parentThreadId) ==> n.threads[t].parentThreadId.value in s.threads
    ensures ParentsFirst(n) && ParentsKnown(n)
  {
    forall x | x in n.threads && NonEmpty(n.threads[x].parentThreadId) && n.threads[x].parentThreadId.value in n.threads
      ensures Before(n.started, n.threads[x].parentThreadId.value, x)
    {
      hide Before;
      var p := n.threads[x].parentThreadId.value;
      assert p in s.threads;
      BeforeAppended(s.started, t, p, x);
    }
    hide Before;
    assert ParentsKnown(n);
    assert forall i, j :: 0 <= i < j < |n.started| ==> n.started[i] != n.started[j];
  }

  lemma StartKeepsSound(s: RunState, e: Event, reg: Registry)
    requires Sound(s) && StartsNested(s, e) && e.etype.ThreadStarted? && !e.ephemeral
    ensures Sound(StartThread(s, e, reg))
  {
    var n := StartThread(s, e, reg);
    if n.threads != s.threads {
      var t := TargetThread(e).value;
      assert n.started == s.started + [t] && n.threads.Keys == s.threads.Keys + {t};
      assert n.threads[t].parentThreadId == ParentOf(e.payload);
      ThreadAdded(s, n, t);
    }
  }

  lemma CarriedKeepsSound(s: RunState, n: RunState)
    requires Sound(s) && Carried(s, n) && Sane(n)
    ensures Sound(n)
  {
  }

  lemma ProtocolKeepsSound(s: RunState, e: Event, reg: Registry)
    requires Sound(s) && StartsNested(s, e) && !e.ephemeral
    ensures Sound(ApplyProtocol(s, e, reg))
  {
    if e.etype.ThreadStarted? {
      StartKeepsSound(s, e, reg);
    } else {
      hide ApplyProtocol, ParentsFirst, ParentsKnown;
      ProtocolThreads(s, e, reg);
      ProtocolShrinks(s, e, reg);
      CarriedKeepsSound(s, ApplyProtocol(s, e, reg));
    }
  }

  lemma DeliverSane(s: RunState, e: Event, reg: Registry, settled: Option<OutstandingEffect>)
    requires Sane(s)
    ensures Sane(Deliver(s, e, reg, settled))
  {
    if Delivers(s, e, reg) {
      var u := DeliveryTarget(s, e).value;
      MappedAreOwn(u, e, EnabledBy(s, e, reg), s.completed, OfThread(s.outstanding, u), settled);
    }
  }

  lemma FoldEventKeepsSound(s: RunState, e: Event, reg: Registry)
    requires Sound(s) && StartsNested(s, e)
    ensures Sound(FoldEvent(s, e, reg))
  {
    if !e.ephemeral {
      hide Deliver, FailUnhandled, SettledWithoutOutcome, ApplyProtocol, ParentsFirst, ParentsKnown;
      var a, p := Admit(s, e), Prepare(s, e, reg);
      var settled := SettledWithoutOutcome(s, e);
      CarriedKeepsSound(s, a);
      ProtocolKeepsSound(a, e, reg);
      var d := Deliver(p, e, reg, settled);
      DeliverRemembers(p, e, reg, settled, Stable("", ""));
      DeliverSane(p, e, reg, settled);
      CarriedKeepsSound(p, d);
      FailShrinks(d, e, p.outstanding);
      CarriedKeepsSound(d, FailUnhandled(d, e, p.outstanding));
    }
  }

  /** Every state that a log of nested starts reaches can be cancelled as described above. */
  lemma {:induction false} NestedLogsAreSound(s: RunState, events: seq<Event>, reg: Registry)
    requires Sound(s) && Nested(s, events, reg)
    ensures Sound(FoldFrom(s, events, reg))
    decreases |events|
  {
    hide FoldEvent, Sound;
    if events != [] {
      FoldEventKeepsSound(s, events[0], reg);
      NestedLogsAreSound(FoldEvent(s, events[0], reg), events[1..], reg);
    }
  }
}

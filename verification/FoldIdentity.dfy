/** Effect identity across a run: no id is outstanding twice, and none comes back after it settled. */
module FoldIdentity {
  import opened Common
  import opened Events
  import opened Fold

  /** Which effect types name themselves, by thread kind. */
  type Naming = (string, EffectType) -> bool

  /** One `effects()` list: stable names are distinct, and a type names itself always or never. */
  ghost predicate WellNamed(effects: seq<RuntimeEffect>, kind: string, named: Naming) {
    && (forall i :: 0 <= i < |effects| ==> StableName(effects[i]).Some? == named(kind, TypeOf(effects[i])))
    && (forall i, j :: 0 <= i < j < |effects| && StableName(effects[i]).Some? ==>
          StableName(effects[i]) != StableName(effects[j]))
  }

  /** Every list a definition can return is well named. */
  ghost predicate Disciplined(reg: Registry, named: Naming) {
    forall kind, state, ctx :: kind in reg ==> WellNamed(reg[kind].effects(state, ctx), kind, named)
  }

  ghost predicate ItemOk(item: OutstandingEffect, threads: map<string, ThreadRecord>, named: Naming, last: int) {
    && item.threadId in threads
    && item.effectId.thread == item.threadId
    && item.effectId.Stable? == named(threads[item.threadId].kind, TypeOf(item.effect))
    && (item.effectId.Positional? ==> item.effectId.seqNo <= last)
  }

  ghost predicate Distinct(items: seq<OutstandingEffect>) {
    forall i, j :: 0 <= i < j < |items| ==> items[i].effectId != items[j].effectId
  }

  /** What every state after the events up to `last` satisfies. */
  ghost predicate Inv(s: RunState, named: Naming, last: int) {
    && (forall id :: id in s.threads ==> s.threads[id].threadId == id)
    && (forall item :: item in s.outstanding ==> ItemOk(item, s.threads, named, last))
    && Distinct(s.outstanding)
    && (forall item :: item in s.outstanding ==> item.effectId !in s.completed)
  }

  /** A start event names a thread id that has no thread yet, or has one of the same kind. */
  ghost predicate KindKept(s: RunState, e: Event) {
    e.etype.ThreadStarted? && !e.ephemeral && NonEmpty(TargetThread(e)) && TargetThread(e).value in s.threads ==>
      ReadString(e.payload, KKind) == Some(s.threads[TargetThread(e).value].kind)
  }

  ghost predicate KindsKept(s: RunState, events: seq<Event>, reg: Registry)
    decreases |events|
  {
    events == [] || (KindKept(s, events[0]) && KindsKept(FoldEvent(s, events[0], reg), events[1..], reg))
  }

  lemma {:induction false} FilterDistinct(items: seq<OutstandingEffect>, keep: OutstandingEffect -> bool)
    requires Distinct(items)
    ensures Distinct(Filter(items, keep))
  {
    if items != [] {
      FilterDistinct(items[1..], keep);
      var rest := Filter(items[1..], keep);
      forall j | 0 <= j < |rest| ensures rest[j].effectId != items[0].effectId {
        assert rest[j] in rest;
        var k :| 0 <= k < |items[1..]| && items[1..][k] == rest[j];
        assert items[k + 1] == rest[j];
      }
    }
  }

  /** Keeping some items while threads keep their kinds keeps the invariant. */
  lemma KeepSome(s: RunState, t: RunState, named: Naming, last: int, keep: OutstandingEffect -> bool)
    requires Inv(s, named, last)
    requires t.outstanding == Filter(s.outstanding, keep)
    requires forall id :: id in t.threads ==> t.threads[id].threadId == id
    requires forall id :: id in s.threads ==> id in t.threads && t.threads[id].kind == s.threads[id].kind
    requires forall item :: item in t.outstanding && item.effectId in t.completed ==> item.effectId in s.completed
    ensures Inv(t, named, last)
  {
    FilterDistinct(s.outstanding, keep);
  }

  lemma KeepAll(s: RunState, t: RunState, named: Naming, last: int)
    requires Inv(s, named, last)
    requires t.outstanding == s.outstanding && t.completed == s.completed
    requires forall id :: id in t.threads ==> t.threads[id].threadId == id
    requires forall id :: id in s.threads ==> id in t.threads && t.threads[id].kind == s.threads[id].kind
    ensures Inv(t, named, last)
  {
  }

  lemma CompleteKeeps(s: RunState, id: EffectId, named: Naming, last: int)
    requires Inv(s, named, last)
    ensures Inv(CompleteEffect(s, id), named, last)
    ensures !HasId(CompleteEffect(s, id).outstanding, id)
  {
    var keep := (item: OutstandingEffect) => item.effectId != id;
    KeepSome(s, CompleteEffect(s, id), named, last, keep);
  }

  lemma DropKeeps(s: RunState, r: ThreadRecord, named: Naming, last: int)
    requires Inv(s, named, last)
    requires r.threadId in s.threads && r.kind == s.threads[r.threadId].kind
    ensures Inv(DropThreadWork(PutThread(s, r), r.threadId), named, last)
  {
    KeepAll(s, PutThread(s, r), named, last);
    FilterDistinct(s.outstanding, (item: OutstandingEffect) => item.threadId != r.threadId);
  }

  /** Only three protocol events touch the effects; the rest leave both lists alone. */
  lemma ProtocolEffects(s: RunState, e: Event, reg: Registry)
    requires !e.etype.ThreadFailed? && !e.etype.ThreadCancelled? && !e.etype.EffectCancelled?
    ensures ApplyProtocol(s, e, reg).outstanding == s.outstanding
    ensures ApplyProtocol(s, e, reg).completed == s.completed
  {
  }

  ghost predicate SelfNamed(threads: map<string, ThreadRecord>) {
    forall id :: id in threads ==> threads[id].threadId == id
  }

  ghost predicate KindsExtend(before: map<string, ThreadRecord>, after: map<string, ThreadRecord>) {
    forall id :: id in before ==> id in after && after[id].kind == before[id].kind
  }

  /** No thread came or went, and each kept its kind and its parent. */
  ghost predicate Carried(s: RunState, n: RunState) {
    n.started == s.started && n.threads.Keys == s.threads.Keys &&
    forall id :: id in s.threads ==>
      n.threads[id].kind == s.threads[id].kind && n.threads[id].parentThreadId == s.threads[id].parentThreadId
  }

  lemma StartThreadKinds(s: RunState, e: Event, reg: Registry)
    requires SelfNamed(s.threads) && !e.ephemeral && e.etype.ThreadStarted?
    ensures SelfNamed(StartThread(s, e, reg).threads)
    ensures KindKept(s, e) ==> KindsExtend(s.threads, StartThread(s, e, reg).threads)
  {
  }

  lemma CompleteThreadKinds(s: RunState, e: Event)
    requires SelfNamed(s.threads)
    ensures SelfNamed(CompleteThread(s, e).threads) && Carried(s, CompleteThread(s, e))
  {
  }

  lemma FailThreadKinds(s: RunState, e: Event)
    requires SelfNamed(s.threads)
    ensures SelfNamed(FailThread(s, e).threads) && Carried(s, FailThread(s, e))
  {
  }

  lemma CancelThreadKinds(s: RunState, e: Event)
    requires SelfNamed(s.threads)
    ensures SelfNamed(CancelThread(s, e).threads) && Carried(s, CancelThread(s, e))
  {
  }

  lemma RegisterWaitKinds(s: RunState, e: Event)
    requires SelfNamed(s.threads)
    ensures SelfNamed(RegisterWait(s, e).threads) && Carried(s, RegisterWait(s, e))
  {
  }

  lemma SatisfyWaitKinds(s: RunState, e: Event)
    requires SelfNamed(s.threads)
    ensures SelfNamed(SatisfyWait(s, e).threads) && Carried(s, SatisfyWait(s, e))
  {
  }

  /** Every protocol event leaves each thread its id and its kind. */
  lemma ProtocolThreads(s: RunState, e: Event, reg: Registry)
    requires SelfNamed(s.threads) && !e.ephemeral
    ensures SelfNamed(ApplyProtocol(s, e, reg).threads)
    ensures KindKept(s, e) ==> KindsExtend(s.threads, ApplyProtocol(s, e, reg).threads)
    ensures !e.etype.ThreadStarted? ==> Carried(s, ApplyProtocol(s, e, reg))
  {
    if e.etype.ThreadStarted? { StartThreadKinds(s, e, reg); }
    else if e.etype.ThreadCompleted? { CompleteThreadKinds(s, e); }
    else if e.etype.ThreadFailed? { FailThreadKinds(s, e); }
    else if e.etype.ThreadCancelled? { CancelThreadKinds(s, e); }
    else if e.etype.WaitRegistered? { RegisterWaitKinds(s, e); }
    else if e.etype.WaitSatisfied? { SatisfyWaitKinds(s, e); }
  }

  lemma AdmitKeeps(s: RunState, e: Event, named: Naming, last: int)
    requires Inv(s, named, last)
    ensures Inv(Admit(s, e), named, last) && Admit(s, e).threads == s.threads
  {
    if e.effectId.Some? { CompleteKeeps(s, e.effectId.value, named, last); }
  }

  lemma ProtocolKeeps(s: RunState, e: Event, reg: Registry, named: Naming, last: int)
    requires Inv(s, named, last) && KindKept(s, e) && !e.ephemeral
    ensures Inv(ApplyProtocol(s, e, reg), named, last)
  {
    if e.etype.ThreadFailed? {
      var t := TargetThread(e);
      if NonEmpty(t) && t.value in s.threads {
        DropKeeps(s, s.threads[t.value].(status := Failed,
                                         error := Some(FaultOf(e.payload, ThreadFault))), named, last);
      }
    } else if e.etype.ThreadCancelled? {
      var t := TargetThread(e);
      if NonEmpty(t) && t.value in s.threads {
        var r := s.threads[t.value];
        DropKeeps(s, r.(status := Cancelled, error := OrElse(OptFault(ReadString(e.payload, KReason)), r.error)), named, last);
      }
    } else if e.etype.EffectCancelled? {
      if e.subject.Some? { CompleteKeeps(s, e.subject.value, named, last); }
    } else {
      ProtocolEffects(s, e, reg);
      ProtocolThreads(s, e, reg);
      KeepAll(s, ApplyProtocol(s, e, reg), named, last);
    }
  }

  lemma PrepareKeeps(s: RunState, e: Event, reg: Registry, named: Naming, last: int)
    requires Inv(s, named, last) && KindKept(s, e) && !e.ephemeral
    ensures Inv(Prepare(s, e, reg), named, last)
  {
    AdmitKeeps(s, e, named, last);
    ProtocolKeeps(Admit(s, e), e, reg, named, last);
  }

  // ---------------------------------------------------------------- reconciliation

  lemma {:induction false} FindMatchMeans(remaining: seq<OutstandingEffect>, sid: Option<EffectId>, etype: EffectType)
    ensures var m := FindMatch(remaining, sid, etype);
      && (m.Some? && sid.None? ==> TypeOf(remaining[m.value].effect) == etype)
      && (m.Some? && sid.Some? ==> remaining[m.value].effectId == sid.value)
      && (m.None? && sid.Some? ==> forall item :: item in remaining ==> item.effectId != sid.value)
  {
    if remaining != [] {
      FindMatchMeans(remaining[1..], sid, etype);
    }
  }

  /** `r` is an item of `remaining`, or the new item of an effect at or after `index`. */
  ghost predicate Accounted(r: OutstandingEffect, threadId: string, e: Event, effects: seq<RuntimeEffect>,
                            index: nat, remaining: seq<OutstandingEffect>)
  {
    r in remaining || exists j :: index <= j < |effects| && r == Fresh(threadId, e, effects, j)
  }

  lemma RemoveAtKeeps(items: seq<OutstandingEffect>, i: nat)
    requires i < |items|
    ensures forall x :: x in RemoveAt(items, i) ==> x in items
    ensures Distinct(items) ==> Distinct(RemoveAt(items, i))
    ensures Distinct(items) ==> forall x :: x in RemoveAt(items, i) ==> x.effectId != items[i].effectId
  {
    var r := RemoveAt(items, i);
    forall k | 0 <= k < |r| ensures r[k] in items {
      assert r[k] == if k < i then items[k] else items[k + 1];
    }
  }

  lemma {:induction false} MatchAccounts(threadId: string, e: Event, effects: seq<RuntimeEffect>, index: nat,
                      remaining: seq<OutstandingEffect>, settled: Option<OutstandingEffect>)
    requires index <= |effects|
    ensures forall r :: r in Match(threadId, e, effects, index, remaining, settled) ==>
      Accounted(r, threadId, e, effects, index, remaining)
    decreases |effects| - index
  {
    if index < |effects| {
      var m := FindMatch(remaining, StableId(threadId, effects[index]), TypeOf(effects[index]));
      if m.Some? { RemoveAtKeeps(remaining, m.value); }
      var rest := if m.Some? then RemoveAt(remaining, m.value) else remaining;
      MatchAccounts(threadId, e, effects, index + 1, rest, settled);
      forall r | r in Match(threadId, e, effects, index, remaining, settled)
        ensures Accounted(r, threadId, e, effects, index, remaining)
      {
        if r in Match(threadId, e, effects, index + 1, rest, settled) {
          assert Accounted(r, threadId, e, effects, index + 1, rest);
        } else {
          assert r in remaining || r == Fresh(threadId, e, effects, index);
        }
      }
    }
  }

  /** What reconciliation may assume of the items a thread already owns. */
  ghost predicate OwnItems(items: seq<OutstandingEffect>, threadId: string, kind: string, named: Naming, before: int) {
    && Distinct(items)
    && forall item :: item in items ==>
         && item.threadId == threadId && item.effectId.thread == threadId
         && item.effectId.Stable? == named(kind, TypeOf(item.effect))
         && (item.effectId.Positional? ==> item.effectId.seqNo < before)
  }

  /** The head of a match differs from everything matched after it. */
  lemma HeadDiffers(threadId: string, kind: string, named: Naming, e: Event, effects: seq<RuntimeEffect>, index: nat,
                    remaining: seq<OutstandingEffect>, r: OutstandingEffect)
    requires index < |effects| && WellNamed(effects, kind, named)
    requires OwnItems(remaining, threadId, kind, named, e.seqNo)
    requires var m := FindMatch(remaining, StableId(threadId, effects[index]), TypeOf(effects[index]));
      Accounted(r, threadId, e, effects, index + 1, if m.Some? then RemoveAt(remaining, m.value) else remaining)
    ensures var m := FindMatch(remaining, StableId(threadId, effects[index]), TypeOf(effects[index]));
      r.effectId != (if m.Some? then remaining[m.value] else Fresh(threadId, e, effects, index)).effectId
  {
    var sid := StableId(threadId, effects[index]);
    var m := FindMatch(remaining, sid, TypeOf(effects[index]));
    FindMatchMeans(remaining, sid, TypeOf(effects[index]));
    if m.Some? {
      RemoveAtKeeps(remaining, m.value);
      assert remaining[m.value] in remaining;
    }
    var rest := if m.Some? then RemoveAt(remaining, m.value) else remaining;
    if r !in rest {
      var j :| index + 1 <= j < |effects| && r == Fresh(threadId, e, effects, j);
    }
  }

  lemma {:induction false} MatchDistinct(threadId: string, kind: string, named: Naming, e: Event, effects: seq<RuntimeEffect>, index: nat,
                      remaining: seq<OutstandingEffect>, settled: Option<OutstandingEffect>)
    requires index <= |effects| && WellNamed(effects, kind, named)
    requires OwnItems(remaining, threadId, kind, named, e.seqNo)
    ensures Distinct(Match(threadId, e, effects, index, remaining, settled))
    decreases |effects| - index
  {
    if index < |effects| {
      var m := FindMatch(remaining, StableId(threadId, effects[index]), TypeOf(effects[index]));
      if m.Some? { RemoveAtKeeps(remaining, m.value); }
      var rest := if m.Some? then RemoveAt(remaining, m.value) else remaining;
      MatchDistinct(threadId, kind, named, e, effects, index + 1, rest, settled);
      MatchAccounts(threadId, e, effects, index + 1, rest, settled);
      var tail := Match(threadId, e, effects, index + 1, rest, settled);
      forall k | 0 <= k < |tail|
        ensures tail[k].effectId != (if m.Some? then remaining[m.value] else Fresh(threadId, e, effects, index)).effectId
      {
        assert tail[k] in tail;
        HeadDiffers(threadId, kind, named, e, effects, index, remaining, tail[k]);
      }
    }
  }

  lemma MappedItemsOk(threadId: string, kind: string, named: Naming, e: Event, effects: seq<RuntimeEffect>,
                      existing: seq<OutstandingEffect>, settled: Option<OutstandingEffect>)
    requires WellNamed(effects, kind, named) && OwnItems(existing, threadId, kind, named, e.seqNo)
    ensures OwnItems(Match(threadId, e, effects, 0, existing, settled), threadId, kind, named, e.seqNo + 1)
  {
    var matched := Match(threadId, e, effects, 0, existing, settled);
    MatchDistinct(threadId, kind, named, e, effects, 0, existing, settled);
    MatchAccounts(threadId, e, effects, 0, existing, settled);
    forall item | item in matched
      ensures item.threadId == threadId && item.effectId.thread == threadId
      ensures item.effectId.Stable? == named(kind, TypeOf(item.effect))
      ensures item.effectId.Positional? ==> item.effectId.seqNo < e.seqNo + 1
    {
      assert Accounted(item, threadId, e, effects, 0, existing);
    }
  }

  lemma DistinctAppend(a: seq<OutstandingEffect>, b: seq<OutstandingEffect>)
    requires Distinct(a) && Distinct(b)
    requires forall x, y :: x in a && y in b ==> x.effectId != y.effectId
    ensures Distinct(a + b)
  {
    forall i, j | 0 <= i < j < |a + b| ensures (a + b)[i].effectId != (a + b)[j].effectId {
      if i < |a| <= j { assert a[i] in a && b[j - |a|] in b; }
    }
  }

  /** The outstanding list a delivery leaves: other threads' items, then the thread's own. */
  lemma ReconciledOk(s: RunState, t: string, kind: string, e: Event, enabled: seq<RuntimeEffect>,
                     settled: Option<OutstandingEffect>, named: Naming, last: int)
    requires Inv(s, named, last) && last < e.seqNo && t in s.threads && s.threads[t].kind == kind
    requires WellNamed(enabled, kind, named)
    ensures var items := OffThread(s.outstanding, t) + MapEffects(t, e, enabled, s.completed, OfThread(s.outstanding, t), settled);
      && Distinct(items)
      && forall item :: item in items ==> ItemOk(item, s.threads, named, e.seqNo) && item.effectId !in s.completed
  {
    var mine := OfThread(s.outstanding, t);
    FilterDistinct(s.outstanding, (item: OutstandingEffect) => item.threadId == t);
    FilterDistinct(s.outstanding, (item: OutstandingEffect) => item.threadId != t);
    MappedItemsOk(t, kind, named, e, enabled, mine, settled);
    var matched := Match(t, e, enabled, 0, mine, settled);
    FilterDistinct(matched, (item: OutstandingEffect) => item.effectId !in s.completed);
    DistinctAppend(OffThread(s.outstanding, t), NotCompleted(matched, s.completed));
  }

  lemma DeliverKeeps(s: RunState, e: Event, reg: Registry, settled: Option<OutstandingEffect>, named: Naming, last: int)
    requires Inv(s, named, last) && Disciplined(reg, named) && last < e.seqNo
    ensures Inv(Deliver(s, e, reg, settled), named, e.seqNo)
  {
    hide MapEffects, OffThread, OfThread, StepOf, WellNamed;
    if Delivers(s, e, reg) {
      var t := DeliveryTarget(s, e).value;
      var enabled := EnabledBy(s, e, reg);
      assert WellNamed(enabled, s.threads[t].kind, named);
      ReconciledOk(s, t, s.threads[t].kind, e, enabled, settled, named, last);
      var d := Deliver(s, e, reg, settled);
      assert d.outstanding == OffThread(s.outstanding, t) + MapEffects(t, e, enabled, s.completed, OfThread(s.outstanding, t), settled);
      assert SelfNamed(d.threads) && KindsExtend(s.threads, d.threads);
      assert forall id :: id in d.completed ==> id in s.completed;
    }
  }

  lemma FailKeeps(s: RunState, e: Event, before: seq<OutstandingEffect>, named: Naming, last: int)
    requires Inv(s, named, last)
    ensures Inv(FailUnhandled(s, e, before), named, last)
  {
    var error := FaultOf(e.payload, EffectFault);
    if NonEmpty(e.threadId) && e.threadId.value in s.threads {
      DropKeeps(s, s.threads[e.threadId.value].(status := Failed, error := Some(error)), named, last);
    }
  }

  lemma FoldEventKeeps(s: RunState, e: Event, reg: Registry, named: Naming, last: int)
    requires Inv(s, named, last) && Disciplined(reg, named) && last < e.seqNo && KindKept(s, e)
    ensures Inv(FoldEvent(s, e, reg), named, e.seqNo)
  {
    if !e.ephemeral {
      var p := Prepare(s, e, reg);
      PrepareKeeps(s, e, reg, named, last);
      DeliverKeeps(p, e, reg, SettledWithoutOutcome(s, e), named, last);
      FailKeeps(Deliver(p, e, reg, SettledWithoutOutcome(s, e)), e, p.outstanding, named, e.seqNo);
    }
  }

  // ---------------------------------------------------------------- whole logs

  /** The events come after everything numbered up to `last`, in increasing order. */
  ghost predicate Follows(last: int, events: seq<Event>) {
    Increasing(events) && (events != [] ==> last < events[0].seqNo)
  }

  function LastSeq(last: int, events: seq<Event>): int {
    if events == [] then last else events[|events| - 1].seqNo
  }

  lemma FollowsTail(last: int, events: seq<Event>)
    requires Follows(last, events) && events != []
    ensures Follows(events[0].seqNo, events[1..])
    ensures LastSeq(events[0].seqNo, events[1..]) == LastSeq(last, events)
  {
    if |events| > 1 { assert events[0].seqNo < events[1].seqNo; }
  }

  lemma {:induction false} FoldFromKeeps(s: RunState, events: seq<Event>, reg: Registry, named: Naming, last: int)
    requires Inv(s, named, last) && Disciplined(reg, named)
    requires Follows(last, events) && KindsKept(s, events, reg)
    ensures Inv(FoldFrom(s, events, reg), named, LastSeq(last, events))
    decreases |events|
  {
    if events != [] {
      FoldEventKeeps(s, events[0], reg, named, last);
      FollowsTail(last, events);
      FoldFromKeeps(FoldEvent(s, events[0], reg), events[1..], reg, named, events[0].seqNo);
    }
  }

  /** In the state of any log, no id is outstanding twice and none is both outstanding and completed. */
  lemma OutstandingIdsUnique(events: seq<Event>, reg: Registry, runId: string, named: Naming)
    requires Disciplined(reg, named) && Increasing(events) && KindsKept(Empty(runId), events, reg)
    ensures var s := FoldRun(events, reg, runId);
      && Distinct(s.outstanding)
      && forall id :: id in s.completed ==> !HasId(s.outstanding, id)
  {
    var before := if events == [] then 0 else events[0].seqNo - 1;
    FoldFromKeeps(Empty(runId), events, reg, named, before);
  }

  /** The thread that owns `id` runs a kind whose completed ids are never forgotten. */
  ghost predicate Remembers(s: RunState, id: EffectId, reg: Registry) {
    id.thread in s.threads && (s.threads[id.thread].kind in reg ==> !reg[s.threads[id.thread].kind].forgetsCompletedEffects)
  }

  /** Before delivery an event only removes outstanding items and only adds completed ids. */
  lemma ProtocolShrinks(s: RunState, e: Event, reg: Registry)
    ensures forall item :: item in ApplyProtocol(s, e, reg).outstanding ==> item in s.outstanding
    ensures forall id :: id in s.completed ==> id in ApplyProtocol(s, e, reg).completed
  {
    if !e.etype.ThreadFailed? && !e.etype.ThreadCancelled? && !e.etype.EffectCancelled? {
      ProtocolEffects(s, e, reg);
    }
  }

  lemma PrepareShrinks(s: RunState, e: Event, reg: Registry)
    ensures forall item :: item in Prepare(s, e, reg).outstanding ==> item in s.outstanding
    ensures forall id :: id in s.completed ==> id in Prepare(s, e, reg).completed
  {
    ProtocolShrinks(Admit(s, e), e, reg);
  }

  lemma FailShrinks(s: RunState, e: Event, before: seq<OutstandingEffect>)
    ensures forall item :: item in FailUnhandled(s, e, before).outstanding ==> item in s.outstanding
    ensures FailUnhandled(s, e, before).completed == s.completed
    ensures SelfNamed(s.threads) ==> Carried(s, FailUnhandled(s, e, before))
    ensures SelfNamed(s.threads) ==> SelfNamed(FailUnhandled(s, e, before).threads)
  {
  }

  lemma CommitRemembers(s: RunState, e: Event, t: string, nextState: Json, enabled: seq<RuntimeEffect>, forgets: bool,
                        settled: Option<OutstandingEffect>)
    requires SelfNamed(s.threads) && t in s.threads
    ensures var n := CommitStep(s, e, t, nextState, enabled, forgets, settled);
      && Carried(s, n) && SelfNamed(n.threads)
      && forall id :: id in s.completed && (id.thread != t || !forgets) ==> id in n.completed
  {
    var n := CommitStep(s, e, t, nextState, enabled, forgets, settled);
    assert n.threads == s.threads[t := s.threads[t].(state := nextState)];
  }

  lemma DeliverRemembers(s: RunState, e: Event, reg: Registry, settled: Option<OutstandingEffect>, id: EffectId)
    requires SelfNamed(s.threads)
    ensures Carried(s, Deliver(s, e, reg, settled))
    ensures SelfNamed(Deliver(s, e, reg, settled).threads)
    ensures id in s.completed && Remembers(s, id, reg) ==> id in Deliver(s, e, reg, settled).completed
  {
    hide CommitStep, Carried;
    if Delivers(s, e, reg) {
      var t := DeliveryTarget(s, e).value;
      CommitRemembers(s, e, t, StepOf(s, e, reg), EnabledBy(s, e, reg), reg[s.threads[t].kind].forgetsCompletedEffects, settled);
    } else {
      CarriedSelf(s);
    }
  }

  lemma CarriedSelf(s: RunState)
    ensures Carried(s, s)
  {
  }

  lemma FoldEventSelfNamed(s: RunState, e: Event, reg: Registry)
    requires SelfNamed(s.threads)
    ensures SelfNamed(FoldEvent(s, e, reg).threads)
  {
    if !e.ephemeral {
      var p := Prepare(s, e, reg);
      assert SelfNamed(p.threads) by { ProtocolThreads(Admit(s, e), e, reg); }
      DeliverRemembers(p, e, reg, SettledWithoutOutcome(s, e), Stable("", ""));
      FailShrinks(Deliver(p, e, reg, SettledWithoutOutcome(s, e)), e, p.outstanding);
    }
  }

  lemma {:induction false} FoldFromSelfNamed(s: RunState, events: seq<Event>, reg: Registry)
    requires SelfNamed(s.threads)
    ensures SelfNamed(FoldFrom(s, events, reg).threads)
    decreases |events|
  {
    hide FoldEvent;
    if events != [] {
      FoldEventSelfNamed(s, events[0], reg);
      FoldFromSelfNamed(FoldEvent(s, events[0], reg), events[1..], reg);
    }
  }

  lemma CompletedGrows(s: RunState, e: Event, reg: Registry, id: EffectId)
    requires SelfNamed(s.threads) && KindKept(s, e) && id in s.completed && Remembers(s, id, reg)
    ensures id in FoldEvent(s, e, reg).completed && Remembers(FoldEvent(s, e, reg), id, reg)
  {
    if !e.ephemeral {
      var p := Prepare(s, e, reg);
      assert SelfNamed(p.threads) && KindsExtend(s.threads, p.threads) by { ProtocolThreads(Admit(s, e), e, reg); }
      PrepareShrinks(s, e, reg);
      DeliverRemembers(p, e, reg, SettledWithoutOutcome(s, e), id);
      FailShrinks(Deliver(p, e, reg, SettledWithoutOutcome(s, e)), e, p.outstanding);
    }
  }

  /** Once completed, an effect of a remembering kind is never outstanding again. */
  lemma {:induction false} CompletedStaysCompleted(
    s: RunState, events: seq<Event>, reg: Registry, named: Naming, last: int, id: EffectId)
    requires Inv(s, named, last) && Disciplined(reg, named)
    requires Follows(last, events) && KindsKept(s, events, reg)
    requires id in s.completed && Remembers(s, id, reg)
    ensures id in FoldFrom(s, events, reg).completed
    ensures !HasId(FoldFrom(s, events, reg).outstanding, id)
    decreases |events|
  {
    if events != [] {
      CompletedGrows(s, events[0], reg, id);
      FoldEventKeeps(s, events[0], reg, named, last);
      FollowsTail(last, events);
      CompletedStaysCompleted(FoldEvent(s, events[0], reg), events[1..], reg, named, events[0].seqNo, id);
    }
  }

  /** An event brings back no positional id issued before it, whatever kinds forget. */
  lemma StaleIdStaysAway(s: RunState, e: Event, reg: Registry, id: EffectId)
    requires id.Positional? && id.seqNo < e.seqNo && !HasId(s.outstanding, id)
    ensures !HasId(FoldEvent(s, e, reg).outstanding, id)
  {
    if !e.ephemeral {
      var p := Prepare(s, e, reg);
      PrepareShrinks(s, e, reg);
      var settled := SettledWithoutOutcome(s, e);
      var d := Deliver(p, e, reg, settled);
      FailShrinks(d, e, p.outstanding);
      forall item | item in d.outstanding ensures item.effectId != id {
        if item !in p.outstanding {
          DeliveredItems(p, e, reg, settled, item);
        }
      }
    }
  }

  /** An item that a delivery adds carries a stable id, or a positional id with the event's own seq. */
  lemma DeliveredItems(s: RunState, e: Event, reg: Registry, settled: Option<OutstandingEffect>, item: OutstandingEffect)
    requires item in Deliver(s, e, reg, settled).outstanding && item !in s.outstanding
    ensures item.effectId.Positional? ==> item.effectId.seqNo == e.seqNo
  {
    var t := DeliveryTarget(s, e).value;
    var enabled := EnabledBy(s, e, reg);
    var mine := OfThread(s.outstanding, t);
    MatchAccounts(t, e, enabled, 0, mine, settled);
    var matched := Match(t, e, enabled, 0, mine, settled);
    assert Deliver(s, e, reg, settled).outstanding == OffThread(s.outstanding, t) + NotCompleted(matched, s.completed);
    assert Accounted(item, t, e, enabled, 0, mine);
  }

  /** A positional id that has left the outstanding list never returns, in any kind. */
  lemma {:induction false} PositionalIdNeverReturns(s: RunState, events: seq<Event>, reg: Registry, last: int, id: EffectId)
    requires id.Positional? && id.seqNo <= last && !HasId(s.outstanding, id) && Follows(last, events)
    ensures !HasId(FoldFrom(s, events, reg).outstanding, id)
    decreases |events|
  {
    if events != [] {
      StaleIdStaysAway(s, events[0], reg, id);
      FollowsTail(last, events);
      PositionalIdNeverReturns(FoldEvent(s, events[0], reg), events[1..], reg, events[0].seqNo, id);
    }
  }

  /**
   * Why a type must not be both named and unnamed: an unnamed effect takes over the tagged item of
   * its type, and the tagged effect, finding none, is issued again under the id already in use.
   */
  lemma MixedNamingDuplicates(t: string, e: Event, tag: string, a: Json)
    ensures
      var held := OutstandingEffect(Stable(t, tag), t, 0, "", Emit(a, Some(tag)));
      var mapped := MapEffects(t, e, [Emit(a, None), Emit(a, Some(tag))], [], [held], None);
      |mapped| == 2 && mapped[0].effectId == mapped[1].effectId
  {
    var held := OutstandingEffect(Stable(t, tag), t, 0, "", Emit(a, Some(tag)));
    var effects := [Emit(a, None), Emit(a, Some(tag))];
    assert RemoveAt([held], 0) == [];
    assert Match(t, e, effects, 2, [], None) == [];
    assert Match(t, e, effects, 1, [], None) == [Fresh(t, e, effects, 1)];
    var matched := Match(t, e, effects, 0, [held], None);
    assert matched == [held, Fresh(t, e, effects, 1)];
    FilterAll(matched, (item: OutstandingEffect) => item.effectId !in []);
  }

  // ---------------------------------------------------------------- a thread restarted under another kind

  function Emitting(a: Json, tag: string): ThreadDefinition {
    ThreadDefinition(_ => Null, (state, _, _) => state, (_, _) => [Emit(a, Some(tag))], false)
  }

  function EmittingUnnamed(a: Json, tag: string): ThreadDefinition {
    ThreadDefinition(_ => Null, (state, _, _) => state, (_, _) => [Emit(a, None), Wait(tag, OnTimer(0), None)], false)
  }

  function StartedAs(runId: string, seqNo: int, t: string, kind: string): Event {
    Event("", runId, seqNo, 0, ThreadStarted, Obj(map[KThreadId := Str(t), KKind := Str(kind), KDefinitionName := Str(kind)]), None,
          Some(t), None, None, None, System, false, None)
  }

  /** The first kind names its emissions; the second does not. */
  function NamedBy(second: string): Naming {
    (kind: string, etype: EffectType) => !(kind == second && etype.TEmit?)
  }

  lemma BothDisciplined(first: string, second: string, a: Json, tag: string)
    requires first != second
    ensures Disciplined(map[first := Emitting(a, tag), second := EmittingUnnamed(a, tag)], NamedBy(second))
  {
  }

  function Emission(t: string, seqNo: int, a: Json, tag: string): OutstandingEffect {
    OutstandingEffect(Stable(t, tag), t, seqNo, "", Emit(a, Some(tag)))
  }

  function WaitItem(t: string, seqNo: int, tag: string): OutstandingEffect {
    OutstandingEffect(Stable(t, tag), t, seqNo, "", Wait(tag, OnTimer(0), None))
  }

  lemma FirstKindEmits(t: string, e: Event, a: Json, tag: string)
    requires e.id == ""
    ensures MapEffects(t, e, [Emit(a, Some(tag))], [], [], None) == [Emission(t, e.seqNo, a, tag)]
  {
    var effects := [Emit(a, Some(tag))];
    assert Match(t, e, effects, 1, [], None) == [];
    assert Match(t, e, effects, 0, [], None) == [Emission(t, e.seqNo, a, tag)];
  }

  lemma SecondKindDuplicates(t: string, e: Event, a: Json, tag: string, seqNo: int)
    requires e.id == ""
    ensures MapEffects(t, e, [Emit(a, None), Wait(tag, OnTimer(0), None)], [], [Emission(t, seqNo, a, tag)], None)
         == [Emission(t, seqNo, a, tag), WaitItem(t, e.seqNo, tag)]
  {
    var effects := [Emit(a, None), Wait(tag, OnTimer(0), None)];
    var held := Emission(t, seqNo, a, tag);
    assert RemoveAt([held], 0) == [];
    assert Match(t, e, effects, 2, [], None) == [];
    assert Match(t, e, effects, 1, [], None) == [WaitItem(t, e.seqNo, tag)];
    var matched := Match(t, e, effects, 0, [held], None);
    assert matched == [held, WaitItem(t, e.seqNo, tag)];
    FilterAll(matched, (item: OutstandingEffect) => item.effectId !in []);
  }

  /** The thread's state after it starts, in a kind that always asks for these effects. */
  lemma StartDelivers(s: RunState, runId: string, seqNo: int, t: string, kind: string, effects: seq<RuntimeEffect>, reg: Registry)
    requires t != "" && kind != "" && kind in reg && s.completed == [] && (forall item :: item in s.outstanding ==> item.threadId == t)
    requires !reg[kind].forgetsCompletedEffects && forall state, ctx :: reg[kind].effects(state, ctx) == effects
    ensures var e := StartedAs(runId, seqNo, t, kind);
            var n := FoldEvent(s, e, reg);
            && t in n.threads && n.threads[t].kind == kind && n.completed == []
            && n.outstanding == MapEffects(t, e, effects, [], s.outstanding, None)
  {
    hide MapEffects;
    var e := StartedAs(runId, seqNo, t, kind);
    assert ReadString(e.payload, KKind) == Some(kind) && ReadString(e.payload, KDefinitionName) == Some(kind);
    assert TargetThread(e) == Some(t);
    var p := Prepare(s, e, reg);
    assert t in p.threads && p.threads[t].kind == kind && p.threads[t].status == Running && p.outstanding == s.outstanding;
    assert Delivers(p, e, reg) && DeliveryTarget(p, e) == Some(t);
    FilterAll(s.outstanding, (item: OutstandingEffect) => item.threadId == t);
    FilterNone(s.outstanding, (item: OutstandingEffect) => item.threadId != t);
    var n := Deliver(p, e, reg, None);
    var mapped := MapEffects(t, e, effects, [], s.outstanding, None);
    assert EnabledBy(p, e, reg) == effects;
    assert n.outstanding == [] + mapped;
    assert [] + mapped == mapped;
    assert FoldEvent(s, e, reg) == n;
  }

  /**
   * Why a restarted thread must keep its kind: both kinds are disciplined, yet the second takes over the
   * first's emission as its own unnamed one, and names a wait by the id that this carries.
   */
  lemma RestartedKindDuplicates(runId: string, t: string, first: string, second: string, a: Json, tag: string)
    requires t != "" && first != "" && second != "" && first != second
    ensures var reg := map[first := Emitting(a, tag), second := EmittingUnnamed(a, tag)];
      var log := [StartedAs(runId, 1, t, first), StartedAs(runId, 2, t, second)];
      var s := FoldRun(log, reg, runId);
      && Disciplined(reg, NamedBy(second)) && Follows(0, log) && !KindsKept(Empty(runId), log, reg)
      && s.outstanding == [Emission(t, 1, a, tag), WaitItem(t, 2, tag)] && !Distinct(s.outstanding)
  {
    var reg := map[first := Emitting(a, tag), second := EmittingUnnamed(a, tag)];
    var e1, e2 := StartedAs(runId, 1, t, first), StartedAs(runId, 2, t, second);
    BothDisciplined(first, second, a, tag);
    hide FoldEvent, Disciplined, MapEffects, KindsKept, NamedBy;
    var s0 := Empty(runId);
    StartDelivers(s0, runId, 1, t, first, [Emit(a, Some(tag))], reg);
    FirstKindEmits(t, e1, a, tag);
    var s1 := FoldEvent(s0, e1, reg);
    StartDelivers(s1, runId, 2, t, second, [Emit(a, None), Wait(tag, OnTimer(0), None)], reg);
    SecondKindDuplicates(t, e2, a, tag, 1);
    hide FoldFrom, Emitting, EmittingUnnamed, Empty;
    FoldTwo(s0, e1, e2, reg);
    KindNotKept(s0, e1, runId, t, first, second, reg);
    var s2 := FoldEvent(s1, e2, reg);
    assert s2.outstanding[0].effectId == s2.outstanding[1].effectId;
  }

  lemma KindNotKept(s: RunState, e: Event, runId: string, t: string, first: string, second: string, reg: Registry)
    requires t != "" && first != second
    requires t in FoldEvent(s, e, reg).threads && FoldEvent(s, e, reg).threads[t].kind == first
    ensures !KindsKept(s, [e, StartedAs(runId, 2, t, second)], reg)
  {
    hide FoldEvent;
    var next := StartedAs(runId, 2, t, second);
    assert ReadString(next.payload, KKind) == Some(second) && TargetThread(next) == Some(t);
    assert [e, next][1..] == [next];
    assert !KindKept(FoldEvent(s, e, reg), next);
  }
}

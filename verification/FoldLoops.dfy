/** The loops of the fold, proved to compute the functions the fold's properties are about. */
module FoldLoops {
  import opened Common
  import opened Events
  import opened Fold

  /** `findIndex` over what is left of a thread's outstanding effects. */
  method FindIndex(remaining: seq<OutstandingEffect>, sid: Option<EffectId>, etype: EffectType) returns (m: Option<nat>)
    ensures m == FindMatch(remaining, sid, etype)
    ensures m.Some? ==> m.value < |remaining|
  {
    hide TypeOf, FindMatch;
    FindStep(remaining, sid, etype, |remaining|);
    for i := 0 to |remaining|
      invariant FindMatch(remaining, sid, etype) == Shifted(FindMatch(remaining[i..], sid, etype), i)
    {
      FindStep(remaining, sid, etype, i);
      var item := remaining[i];
      if if sid.None? then TypeOf(item.effect) == etype else item.effectId == sid.value {
        return Some(i);
      }
    }
    return None;
  }

  /** Looking from `i` on is looking at `i`, then from the next. */
  lemma FindStep(remaining: seq<OutstandingEffect>, sid: Option<EffectId>, etype: EffectType, i: nat)
    requires i <= |remaining|
    ensures remaining[0..] == remaining
    ensures FindMatch(remaining[i..], sid, etype) ==
            if i == |remaining| then None
            else if (if sid.None? then TypeOf(remaining[i].effect) == etype else remaining[i].effectId == sid.value) then Some(0)
            else Shifted(FindMatch(remaining[i + 1..], sid, etype), 1)
  {
    hide TypeOf;
    if i < |remaining| {
      assert remaining[i..][0] == remaining[i] && remaining[i..][1..] == remaining[i + 1..];
    }
  }

  function Shifted(m: Option<nat>, offset: nat): Option<nat> {
    if m.Some? then Some(m.value + offset) else None
  }

  lemma MatchStep(
    threadId: string, e: Event, effects: seq<RuntimeEffect>, index: nat, remaining: seq<OutstandingEffect>,
    settled: Option<OutstandingEffect>, mapped: seq<OutstandingEffect>)
    requires index < |effects|
    ensures var m := FindMatch(remaining, StableId(threadId, effects[index]), TypeOf(effects[index]));
            mapped + Match(threadId, e, effects, index, remaining, settled) ==
            if m.Some? then
              mapped + [remaining[m.value]] + Match(threadId, e, effects, index + 1, RemoveAt(remaining, m.value), settled)
            else if AlreadySettled(threadId, effects[index], settled) then
              mapped + Match(threadId, e, effects, index + 1, remaining, settled)
            else mapped + [Fresh(threadId, e, effects, index)] + Match(threadId, e, effects, index + 1, remaining, settled)
  {
    hide StableId, TypeOf, AlreadySettled, Fresh, FindMatch;
  }

  lemma MatchEnd(
    threadId: string, e: Event, effects: seq<RuntimeEffect>, remaining: seq<OutstandingEffect>,
    settled: Option<OutstandingEffect>, mapped: seq<OutstandingEffect>)
    ensures mapped + Match(threadId, e, effects, |effects|, remaining, settled) == mapped
  {
  }

  /** Each enabled effect takes its match out of a shrinking list, or becomes a new item. */
  method MapEffectsBySplicing(
    threadId: string, e: Event, effects: seq<RuntimeEffect>, completed: seq<EffectId>,
    existing: seq<OutstandingEffect>, settled: Option<OutstandingEffect>)
    returns (items: seq<OutstandingEffect>)
    ensures items == MapEffects(threadId, e, effects, completed, existing, settled)
  {
    hide StableId, TypeOf, AlreadySettled, Fresh, FindMatch, Match, NotCompleted;
    var remaining := existing;
    var mapped: seq<OutstandingEffect> := [];
    for index := 0 to |effects|
      invariant mapped + Match(threadId, e, effects, index, remaining, settled)
             == Match(threadId, e, effects, 0, existing, settled)
    {
      MatchStep(threadId, e, effects, index, remaining, settled, mapped);
      var m := FindIndex(remaining, StableId(threadId, effects[index]), TypeOf(effects[index]));
      if m.Some? {
        mapped := mapped + [remaining[m.value]];
        remaining := RemoveAt(remaining, m.value);
      } else if !AlreadySettled(threadId, effects[index], settled) {
        mapped := mapped + [Fresh(threadId, e, effects, index)];
      }
    }
    MatchEnd(threadId, e, effects, remaining, settled, mapped);
    items := NotCompleted(mapped, completed);
  }

  /** The waits that are not the thread's, copied one by one. */
  method KeepOtherWaits(waits: map<string, WaitRecord>, threadId: string) returns (kept: map<string, WaitRecord>)
    ensures kept == OtherWaits(waits, threadId)
  {
    kept := map[];
    var rest := waits.Keys;
    while rest != {}
      invariant rest <= waits.Keys
      invariant kept == map w | w in waits.Keys - rest && waits[w].threadId != threadId :: waits[w]
    {
      var w :| w in rest;
      rest := rest - {w};
      if waits[w].threadId != threadId {
        kept := kept[w := waits[w]];
      }
    }
  }

  /** Every wait record is kept under its own id. */
  predicate Named(waits: map<string, WaitRecord>) {
    forall w :: w in waits ==> waits[w].waitId == w
  }

  lemma EndKeepsNamed(s: RunState, e: Event)
    requires Named(s.waits)
    ensures Named(FailThread(s, e).waits) && Named(CancelThread(s, e).waits)
  {
    hide FaultOf, OptFault;
  }

  lemma WaitKeepsNamed(s: RunState, e: Event)
    requires Named(s.waits)
    ensures Named(RegisterWait(s, e).waits) && Named(SatisfyWait(s, e).waits)
  {
    hide DecodeWait, RaceOf, OwnsWait;
  }

  lemma ProtocolKeepsNamed(s: RunState, e: Event, reg: Registry)
    requires Named(s.waits)
    ensures Named(ApplyProtocol(s, e, reg).waits)
  {
    hide StartThread, CompleteThread, FailThread, CancelThread, RegisterWait, SatisfyWait, ApplyRunEvent;
    EndKeepsNamed(s, e);
    WaitKeepsNamed(s, e);
  }

  lemma DeliverKeepsWaitRecords(s: RunState, e: Event, reg: Registry, settled: Option<OutstandingEffect>)
    ensures Deliver(s, e, reg, settled).waits == s.waits
  {
    hide MapEffects, OffThread, OfThread, StillNamed, Delivers;
  }

  lemma EventKeepsNamed(s: RunState, e: Event, reg: Registry)
    requires Named(s.waits)
    ensures Named(FoldEvent(s, e, reg).waits)
  {
    hide ApplyProtocol, Deliver, FaultOf, IsWithdrawn, SettledWithoutOutcome, OffThread, WithoutEffect;
    ProtocolKeepsNamed(Admit(s, e), e, reg);
    DeliverKeepsWaitRecords(Prepare(s, e, reg), e, reg, SettledWithoutOutcome(s, e));
  }

  /** In every folded state the waits are kept under their own ids, as the race loop needs. */
  lemma {:induction false} FoldedWaitsAreNamed(s: RunState, events: seq<Event>, reg: Registry)
    requires Named(s.waits)
    ensures Named(FoldFrom(s, events, reg).waits)
    decreases |events|
  {
    if events != [] {
      hide FoldEvent;
      EventKeepsNamed(s, events[0], reg);
      FoldedWaitsAreNamed(FoldEvent(s, events[0], reg), events[1..], reg);
    }
  }

  /** The satisfied wait goes, then each sibling of its race. */
  method RemoveRace(waits: map<string, WaitRecord>, waitId: string) returns (left: map<string, WaitRecord>)
    requires Named(waits)
    ensures left == RemainingWaits(waits, waitId)
  {
    left := waits - {waitId};
    var race := if waitId in waits then RaceOf(waits[waitId]) else None;
    if NonEmpty(race) {
      var siblings := left.Keys;
      var before := left;
      while siblings != {}
        invariant siblings <= before.Keys && left.Keys <= before.Keys
        invariant left == map w | w in before && (w in siblings || RaceOf(before[w]) != race) :: before[w]
      {
        var w :| w in siblings;
        siblings := siblings - {w};
        var sibling := before[w];
        if RaceOf(sibling) == race {
          left := left - {sibling.waitId};
        }
      }
    }
  }

  /** `foldRun`'s reduction. */
  method FoldAll(events: seq<Event>, reg: Registry, runId: string) returns (s: RunState)
    ensures s == FoldRun(events, reg, runId)
  {
    hide FoldEvent;
    s := Empty(runId);
    for i := 0 to |events|
      invariant FoldFrom(s, events[i..], reg) == FoldRun(events, reg, runId)
    {
      assert events[i..][1..] == events[i + 1..];
      s := FoldEvent(s, events[i], reg);
    }
  }
}

/** Replaying a log step by step, and jumping to one step of it. */
module Replay {
  import opened Common
  import opened Events
  import opened Fold

  datatype ReplayStep = ReplayStep(seqNo: int, event: Event, before: RunState, after: RunState, effects: seq<RuntimeEffect>)

  function EffectsOf(items: seq<OutstandingEffect>): seq<RuntimeEffect> {
    seq(|items|, i requires 0 <= i < |items| => items[i].effect)
  }

  /** The step that one durable event makes: the states around it and the effects it enabled. */
  function StepAt(before: RunState, e: Event, reg: Registry): ReplayStep {
    var after := FoldEvent(before, e, reg);
    ReplayStep(e.seqNo, e, before, after,
      EffectsOf(Filter(after.outstanding, (item: OutstandingEffect) => !HasId(before.outstanding, item.effectId))))
  }

  predicate IsTarget(e: Event, seqNo: int) {
    e.seqNo == seqNo && !e.ephemeral
  }

  function FindTarget(events: seq<Event>, seqNo: int): Option<Event> {
    if events == [] then None
    else if IsTarget(events[0], seqNo) then Some(events[0]) else FindTarget(events[1..], seqNo)
  }

  function Before(events: seq<Event>, seqNo: int): seq<Event> {
    Filter(events, (e: Event) => e.seqNo < seqNo)
  }

  function ReplayTo(events: seq<Event>, reg: Registry, seqNo: int): Option<ReplayStep> {
    match FindTarget(events, seqNo)
    case None => None
    case Some(target) => Some(StepAt(FoldRun(Before(events, seqNo), reg, target.runId), target, reg))
  }

  /** The steps of the durable events, each starting from the state the previous one reached. */
  function Steps(s: RunState, events: seq<Event>, reg: Registry): seq<ReplayStep>
    decreases |events|
  {
    if events == [] then []
    else if events[0].ephemeral then Steps(s, events[1..], reg)
    else [StepAt(s, events[0], reg)] + Steps(FoldEvent(s, events[0], reg), events[1..], reg)
  }

  lemma StepsCons(s: RunState, e: Event, rest: seq<Event>, reg: Registry)
    ensures StepAt(s, e, reg).after == FoldEvent(s, e, reg)
    ensures Steps(s, [e] + rest, reg) ==
      if e.ephemeral then Steps(s, rest, reg) else [StepAt(s, e, reg)] + Steps(FoldEvent(s, e, reg), rest, reg)
  {
    hide FoldEvent;
    assert ([e] + rest)[1..] == rest;
  }

  method ReplayAll(events: seq<Event>, reg: Registry) returns (steps: seq<ReplayStep>)
    ensures steps == Steps(Empty(if events == [] then "unknown" else events[0].runId), events, reg)
  {
    hide FoldEvent, StepAt;
    steps := [];
    var state := Empty(if events == [] then "unknown" else events[0].runId);
    ghost var start := state;
    var i := 0;
    while i < |events|
      invariant 0 <= i <= |events|
      invariant Steps(start, events, reg) == steps + Steps(state, events[i..], reg)
    {
      var event := events[i];
      assert events[i..] == [event] + events[i + 1..];
      StepsCons(state, event, events[i + 1..], reg);
      if !event.ephemeral {
        var before := state;
        var step := StepAt(before, event, reg);
        steps := steps + [step];
        state := step.after;
      }
      i := i + 1;
    }
  }

  function FindStep(steps: seq<ReplayStep>, seqNo: int): Option<ReplayStep> {
    if steps == [] then None
    else if steps[0].seqNo == seqNo then Some(steps[0]) else FindStep(steps[1..], seqNo)
  }

  lemma {:induction false} LaterSteps(s: RunState, events: seq<Event>, reg: Registry, seqNo: int)
    requires forall e :: e in events ==> e.seqNo > seqNo
    ensures FindStep(Steps(s, events, reg), seqNo) == None && FindTarget(events, seqNo) == None
    decreases |events|
  {
    if events != [] {
      assert forall e :: e in events[1..] ==> e in events;
      LaterSteps(s, events[1..], reg, seqNo);
      LaterSteps(FoldEvent(s, events[0], reg), events[1..], reg, seqNo);
    }
  }

  lemma {:induction false} JumpFindsStep(s: RunState, events: seq<Event>, reg: Registry, seqNo: int)
    requires Increasing(events)
    ensures FindStep(Steps(s, events, reg), seqNo) ==
      match FindTarget(events, seqNo)
      case None => None
      case Some(target) => Some(StepAt(FoldFrom(s, Before(events, seqNo), reg), target, reg))
    decreases |events|
  {
    if events != [] {
      var e, rest := events[0], events[1..];
      assert forall x :: x in rest ==> x.seqNo > e.seqNo;
      if e.seqNo < seqNo {
        JumpFindsStep(FoldEvent(s, e, reg), rest, reg, seqNo);
      } else {
        LaterSteps(s, rest, reg, seqNo);
        LaterSteps(FoldEvent(s, e, reg), rest, reg, seqNo);
        FilterNone(events, (x: Event) => x.seqNo < seqNo);
      }
    }
  }

  /** Jumping to a seq gives the very step a full replay of the run's log records there, or nothing. */
  lemma ReplayToIsStepOfReplayAll(events: seq<Event>, reg: Registry, runId: string, seqNo: int)
    requires Increasing(events) && forall e :: e in events ==> e.runId == runId
    ensures ReplayTo(events, reg, seqNo) == FindStep(Steps(Empty(runId), events, reg), seqNo)
  {
    JumpFindsStep(Empty(runId), events, reg, seqNo);
    TargetIsEvent(events, seqNo);
  }

  lemma {:induction false} TargetIsEvent(events: seq<Event>, seqNo: int)
    ensures FindTarget(events, seqNo).Some? ==> FindTarget(events, seqNo).value in events
  {
    if events != [] { TargetIsEvent(events[1..], seqNo); }
  }
}

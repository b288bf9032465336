/** Cancelling a thread: finding its subtree, the events that end it, and what they fold to. */
module Cancellation {
  import opened Common
  import opened Events
  import opened Fold
  import opened FoldIdentity
  import opened FoldThreads
  import opened Waits

  // ---------------------------------------------------------------- the thread tree

  predicate Before(order: seq<string>, a: string, b: string) {
    exists i, j :: 0 <= i < j < |order| && order[i] == a && order[j] == b
  }

  /** Threads are listed once each, and a known parent is listed before its child. */
  ghost predicate ParentsFirst(s: RunState) {
    && SelfNamed(s.threads)
    && (forall i, j :: 0 <= i < j < |s.started| ==> s.started[i] != s.started[j])
    && (forall t :: t in s.threads <==> t in s.started)
    && (forall t :: t in s.threads && NonEmpty(s.threads[t].parentThreadId) && s.threads[t].parentThreadId.value in s.threads ==>
          Before(s.started, s.threads[t].parentThreadId.value, t))
  }

  function Position(order: seq<string>, t: string): (i: nat)
    ensures i <= |order| && (t in order ==> i < |order| && order[i] == t)
  {
    if order == [] then 0 else if order[0] == t then 0 else 1 + Position(order[1..], t)
  }

  lemma PositionIs(order: seq<string>, i: nat)
    requires i < |order| && forall j, k :: 0 <= j < k < |order| ==> order[j] != order[k]
    ensures Position(order, order[i]) == i
  {
  }

  lemma ParentEarlier(s: RunState, t: string)
    requires ParentsFirst(s) && t in s.threads
    ensures var p := s.threads[t].parentThreadId;
      NonEmpty(p) && p.value in s.threads ==> Position(s.started, p.value) < Position(s.started, t)
  {
    var p := s.threads[t].parentThreadId;
    if NonEmpty(p) && p.value in s.threads {
      var i, j :| 0 <= i < j < |s.started| && s.started[i] == p.value && s.started[j] == t;
      PositionIs(s.started, i);
      PositionIs(s.started, j);
    }
  }

  /** Whether the walk up from `parent` meets `target`. */
  predicate WalkMeets(s: RunState, parent: Option<string>, target: string)
    requires ParentsFirst(s)
    decreases if NonEmpty(parent) && parent.value in s.threads then Position(s.started, parent.value) + 1 else 0
  {
    NonEmpty(parent) &&
    (parent.value == target ||
     (parent.value in s.threads &&
      (ParentEarlier(s, parent.value);
       WalkMeets(s, s.threads[parent.value].parentThreadId, target))))
  }

  /** The walk the source makes for one thread. */
  method Descends(s: RunState, t: string, target: string) returns (below: bool)
    requires ParentsFirst(s) && t in s.threads
    ensures below == WalkMeets(s, s.threads[t].parentThreadId, target)
  {
    var parent := s.threads[t].parentThreadId;
    while NonEmpty(parent)
      invariant WalkMeets(s, parent, target) == WalkMeets(s, s.threads[t].parentThreadId, target)
      decreases NonEmpty(parent), if NonEmpty(parent) && parent.value in s.threads then Position(s.started, parent.value) + 1 else 0
    {
      if parent.value == target {
        return true;
      }
      if parent.value in s.threads {
        ParentEarlier(s, parent.value);
        parent := s.threads[parent.value].parentThreadId;
      } else {
        parent := None;
      }
    }
    return false;
  }

  predicate IsParent(s: RunState, t: string, p: string) {
    t in s.threads && p != "" && s.threads[t].parentThreadId == Some(p)
  }

  /** A path of parent links: each thread's parent is the next entry. */
  ghost predicate ParentPath(s: RunState, path: seq<string>) {
    forall i, j :: 0 <= i < |path| - 1 && j == i + 1 ==> IsParent(s, path[i], path[j])
  }

  ghost predicate PathTo(s: RunState, path: seq<string>, t: string, target: string) {
    |path| >= 2 && path[0] == t && path[|path| - 1] == target && ParentPath(s, path)
  }

  /** `t` lies below `target`: some path of parent links leads from one to the other. */
  ghost predicate Below(s: RunState, t: string, target: string) {
    exists path :: PathTo(s, path, t, target)
  }

  lemma LongerPath(s: RunState, path: seq<string>, t: string, p: string, target: string)
    requires PathTo(s, path, p, target) && IsParent(s, t, p)
    ensures PathTo(s, [t] + path, t, target)
  {
    var longer := [t] + path;
    assert longer[1..] == path && longer[|longer| - 1] == target;
    forall i, j | 0 <= i < |longer| - 1 && j == i + 1 ensures IsParent(s, longer[i], longer[j]) {
      if i > 0 { assert IsParent(s, path[i - 1], path[j - 1]); }
    }
  }

  lemma {:induction false} WalkFindsPath(s: RunState, t: string, target: string)
    requires ParentsFirst(s) && t in s.threads && WalkMeets(s, s.threads[t].parentThreadId, target)
    ensures Below(s, t, target)
    decreases Position(s.started, t)
  {
    var p := s.threads[t].parentThreadId.value;
    if p == target {
      assert PathTo(s, [t, target], t, target);
    } else {
      ParentEarlier(s, t);
      WalkFindsPath(s, p, target);
      var path :| PathTo(s, path, p, target);
      LongerPath(s, path, t, p, target);
    }
  }

  lemma {:induction false} PathIsWalked(s: RunState, path: seq<string>)
    requires ParentsFirst(s) && |path| >= 2 && ParentPath(s, path)
    ensures path[0] in s.threads && WalkMeets(s, s.threads[path[0]].parentThreadId, path[|path| - 1])
    decreases |path|
  {
    assert IsParent(s, path[0], path[1]);
    if |path| > 2 {
      assert ParentPath(s, path[1..]) by {
        forall i, j | 0 <= i < |path[1..]| - 1 && j == i + 1 ensures IsParent(s, path[1..][i], path[1..][j]) {
          assert IsParent(s, path[i + 1], path[j + 1]);
        }
      }
      PathIsWalked(s, path[1..]);
    }
  }

  predicate IsBelow(s: RunState, t: string, target: string)
    requires ParentsFirst(s)
  {
    t in s.threads && WalkMeets(s, s.threads[t].parentThreadId, target)
  }

  /** Every thread below `target`, in the order they were started. */
  function DescendantThreadIds(s: RunState, target: string): seq<string>
    requires ParentsFirst(s)
  {
    Filter(s.started, (t: string) => IsBelow(s, t, target))
  }

  /** The list is exactly the threads below the target. */
  lemma DescendantsAreExactlyTheSubtree(s: RunState, target: string, t: string)
    requires ParentsFirst(s)
    ensures t in DescendantThreadIds(s, target) <==> t in s.threads && Below(s, t, target)
  {
    if t in s.threads && Below(s, t, target) {
      var path :| PathTo(s, path, t, target);
      PathIsWalked(s, path);
    } else if t in DescendantThreadIds(s, target) {
      WalkFindsPath(s, t, target);
    }
  }

  lemma {:induction false} FilterInOrder(order: seq<string>, keep: string -> bool, a: string, b: string)
    requires Before(order, a, b) && keep(a) && keep(b)
    ensures Before(Filter(order, keep), a, b)
  {
    var i, j :| 0 <= i < j < |order| && order[i] == a && order[j] == b;
    var rest := order[1..];
    var list := Filter(order, keep);
    assert rest[j - 1] == b;
    if i == 0 {
      assert list[0] == a && b in list[1..];
      var k :| 0 <= k < |list[1..]| && list[1..][k] == b;
      assert list[k + 1] == b;
    } else {
      assert rest[i - 1] == a;
      FilterInOrder(rest, keep, a, b);
      var tail := Filter(rest, keep);
      var x, y :| 0 <= x < y < |tail| && tail[x] == a && tail[y] == b;
      if keep(order[0]) { assert list[x + 1] == a && list[y + 1] == b; }
    }
  }

  // ---------------------------------------------------------------- the plan

  function CancelKey(target: string): string {
    "cancel:" + target
  }

  function SystemEvent(runId: string, now: int, etype: EventType, payload: Json, subject: Option<EffectId>, t: string,
                       effectId: Option<EffectId>, origin: Origin, key: string): Event {
    Event("", runId, 0, now, etype, payload, subject, Some(t), None, None, effectId, origin, false, Some(key))
  }

  /** An attempt no worker was given is cancelled outright. */
  predicate NeverHandedOut(x: Execution) {
    x.status.RetryWait? || x.status.DispatchWait?
  }

  function EffectEvent(runId: string, now: int, item: OutstandingEffect, x: Execution, timeout: Option<int>, key: string): Event {
    if NeverHandedOut(x) then
      SystemEvent(runId, now, EffectCancelled, Obj(map[KAttempt := Num(x.attempt)]), Some(item.effectId), item.threadId,
                  Some(item.effectId), System, key)
    else
      SystemEvent(runId, now, EffectCancelRequested,
                  Obj(map[KAttempt := Num(x.attempt), KDeadlineAt := if timeout.Some? && timeout.value != 0 then Num(now + timeout.value) else Null]),
                  Some(item.effectId), item.threadId, None, System, key)
  }

  function ThreadEvent(runId: string, now: int, t: string, target: string, seqNo: int, key: string): Event {
    var payload := map[KThreadId := Str(t), KReason := Str("cancelled")];
    SystemEvent(runId, now, ThreadCancelled, Obj(if t == target then payload[KResumeSeq := Num(seqNo)] else payload),
                None, t, None, External, key)
  }

  /** What the plan needs of the host: which attempts a worker holds, how long each may take to stop, and the waits. */
  datatype Host = Host(
    isWorker: (OutstandingEffect, Execution) -> bool, timeout: EffectType -> Option<int>, waits: WaitHost)

  predicate AsksWorker(s: RunState, threadIds: set<string>, item: OutstandingEffect, host: Host) {
    item.effectId in s.executions && item.threadId in threadIds && host.isWorker(item, s.executions[item.effectId])
  }

  function EffectEvents(s: RunState, items: seq<OutstandingEffect>, threadIds: set<string>, runId: string, now: int,
                        host: Host, key: string): seq<Event>
  {
    if items == [] then []
    else if AsksWorker(s, threadIds, items[0], host) then
      [EffectEvent(runId, now, items[0], s.executions[items[0].effectId], host.timeout(TypeOf(items[0].effect)), key)] +
      EffectEvents(s, items[1..], threadIds, runId, now, host, key)
    else EffectEvents(s, items[1..], threadIds, runId, now, host, key)
  }

  function Reversed<T>(xs: seq<T>): (r: seq<T>)
    ensures |r| == |xs| && forall i :: 0 <= i < |xs| ==> r[i] == xs[|xs| - 1 - i]
  {
    seq(|xs|, i requires 0 <= i < |xs| => xs[|xs| - 1 - i])
  }

  /** The threads to cancel: last started first, the target itself last. */
  function CancelOrder(s: RunState, target: string): seq<string>
    requires ParentsFirst(s)
  {
    Filter(Reversed(DescendantThreadIds(s, target)) + [target], (t: string) => t != "")
  }

  function ThreadEvents(order: seq<string>, target: string, runId: string, now: int, seqNo: int, key: string): seq<Event> {
    seq(|order|, i requires 0 <= i < |order| => ThreadEvent(runId, now, order[i], target, seqNo, key))
  }

  function TargetOf(s: RunState, threadId: Option<string>): string {
    OrElse(threadId, s.head.rootThreadId).GetOr("")
  }

  function SubtreeOf(s: RunState, target: string): set<string>
    requires ParentsFirst(s)
  {
    (set t | t in DescendantThreadIds(s, target)) + {target}
  }

  /** The plan's own events: one for each effect to settle, then the threads' ends. */
  function CancelBatch(s: RunState, runId: string, seqNo: int, target: string, host: Host, now: int): seq<Event>
    requires ParentsFirst(s)
  {
    EffectEvents(s, s.outstanding, SubtreeOf(s, target), runId, now, host, CancelKey(target)) +
    ThreadEvents(CancelOrder(s, target), target, runId, now, seqNo, CancelKey(target))
  }

  // ---------------------------------------------------------------- the whole plan

  /** The waits that the batch satisfies are answered as of the state it leads to. */
  function PlannedEvents(
    s: RunState, runId: string, seqNo: int, threadId: Option<string>, host: Host, now: int, reg: Registry, order: seq<string>): seq<Event>
    requires ParentsFirst(s)
  {
    var target := TargetOf(s, threadId);
    if CancelKey(target) in s.head.processedKeys then [] else
    var batch := CancelBatch(s, runId, seqNo, target, host, now);
    batch + WaitSatisfiedEvents(FoldFrom(s, batch, reg).waits, order, batch, runId, now, host.waits)
  }

  /** The planning loop: it also collects the attempts whose workers must be told. */
  method PlanCancellation(
    s: RunState, runId: string, seqNo: int, threadId: Option<string>, host: Host, now: int, reg: Registry, order: seq<string>)
    returns (events: seq<Event>, workerCancellations: seq<OutstandingEffect>)
    requires ParentsFirst(s)
    ensures events == PlannedEvents(s, runId, seqNo, threadId, host, now, reg, order)
    ensures forall item :: item in workerCancellations <==>
      && CancelKey(TargetOf(s, threadId)) !in s.head.processedKeys
      && item in s.outstanding && AsksWorker(s, SubtreeOf(s, TargetOf(s, threadId)), item, host)
      && !NeverHandedOut(s.executions[item.effectId])
  {
    hide EffectEvent, NeverHandedOut, SubtreeOf, CancelOrder, ThreadEvents, WaitSatisfiedEvents, FoldFrom;
    var target := TargetOf(s, threadId);
    var key := CancelKey(target);
    events, workerCancellations := [], [];
    if key in s.head.processedKeys {
      return;
    }
    var threadIds := SubtreeOf(s, target);
    var i := 0;
    while i < |s.outstanding|
      invariant 0 <= i <= |s.outstanding|
      invariant events + EffectEvents(s, s.outstanding[i..], threadIds, runId, now, host, key) ==
        EffectEvents(s, s.outstanding, threadIds, runId, now, host, key)
      invariant forall item :: item in workerCancellations <==>
        item in s.outstanding[..i] && AsksWorker(s, threadIds, item, host) && !NeverHandedOut(s.executions[item.effectId])
    {
      var item := s.outstanding[i];
      assert s.outstanding[i..][0] == item && s.outstanding[i..][1..] == s.outstanding[i + 1..];
      assert s.outstanding[..i + 1] == s.outstanding[..i] + [item];
      if AsksWorker(s, threadIds, item, host) {
        var execution := s.executions[item.effectId];
        if !NeverHandedOut(execution) {
          workerCancellations := workerCancellations + [item];
        }
        events := events + [EffectEvent(runId, now, item, execution, host.timeout(TypeOf(item.effect)), key)];
      }
      i := i + 1;
    }
    assert s.outstanding[..|s.outstanding|] == s.outstanding;
    events := events + ThreadEvents(CancelOrder(s, target), target, runId, now, seqNo, key);
    assert events == CancelBatch(s, runId, seqNo, target, host, now);
    var satisfied := SatisfyWaits(FoldFrom(s, events, reg).waits, order, events, runId, now, host.waits);
    events := events + satisfied;
  }
}

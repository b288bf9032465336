/** The in-memory queue: leases, retries and dead letters. */
module MemoryQueue {
  import opened Common

  /** Leases are numbered; a message keeps the number it was sent with. */
  datatype Entry = Entry(id: nat, body: Json, deliveries: nat, visibleAt: int, lease: Option<nat>)

  datatype Message = Message(lease: nat, id: nat, body: Json, attempts: nat)

  datatype Retry = Retry(lease: nat, delaySeconds: int)

  /** `acked` and `deliveredTimes` are history: messages settled for good, and how often each was handed out. */
  datatype Queue = Queue(
    entries: seq<Entry>, dead: seq<Entry>, nextLease: nat, sent: nat, acked: set<nat>, deliveredTimes: map<nat, nat>)

  const EMPTY := Queue([], [], 0, 0, {}, map[])

  function Send(q: Queue, body: Json): Queue {
    q.(entries := q.entries + [Entry(q.sent, body, 0, 0, None)], sent := q.sent + 1, deliveredTimes := q.deliveredTimes[q.sent := 0])
  }

  function NotAcked(acks: seq<nat>): Entry -> bool {
    (e: Entry) => e.lease.None? || e.lease.value !in acks
  }

  function AckedIds(entries: seq<Entry>, acks: seq<nat>): set<nat> {
    set e | e in entries && !NotAcked(acks)(e) :: e.id
  }

  /** The first entry with this lease gives it up and becomes visible after the delay. */
  function GiveBack(entries: seq<Entry>, lease: nat, visibleAt: int): seq<Entry> {
    if entries == [] then []
    else if entries[0].lease == Some(lease) then [entries[0].(lease := None, visibleAt := visibleAt)] + entries[1..]
    else [entries[0]] + GiveBack(entries[1..], lease, visibleAt)
  }

  function GiveBackAll(entries: seq<Entry>, retries: seq<Retry>, now: int): seq<Entry> {
    if retries == [] then entries else
    var last := retries[|retries| - 1];
    GiveBack(GiveBackAll(entries, retries[..|retries| - 1], now), last.lease, now + last.delaySeconds * 1000)
  }

  function Settle(q: Queue, acks: seq<nat>, retries: seq<Retry>, now: int): Queue {
    q.(entries := GiveBackAll(Filter(q.entries, NotAcked(acks)), retries, now), acked := q.acked + AckedIds(q.entries, acks))
  }

  function Exhausted(now: int, maxRetries: nat): Entry -> bool {
    (e: Entry) => e.visibleAt <= now && e.deliveries > maxRetries
  }

  function Kept(now: int, maxRetries: nat): Entry -> bool {
    (e: Entry) => !Exhausted(now, maxRetries)(e)
  }

  /** The entry under its next lease. */
  function Leased(e: Entry, lease: nat, until: int): Entry {
    e.(deliveries := e.deliveries + 1, visibleAt := until, lease := Some(lease))
  }

  function MessageOf(e: Entry): Message
    requires e.lease.Some?
  {
    Message(e.lease.value, e.id, e.body, e.deliveries)
  }

  /** How many of the first entries a batch takes. */
  function TakenBefore(entries: seq<Entry>, i: nat, now: int, batchSize: nat): nat
    requires i <= |entries|
  {
    if i == 0 then 0 else
    var before := TakenBefore(entries, i - 1, now, batchSize);
    if entries[i - 1].visibleAt <= now && before < batchSize then before + 1 else before
  }

  predicate Takes(entries: seq<Entry>, i: nat, now: int, batchSize: nat)
    requires i < |entries|
  {
    entries[i].visibleAt <= now && TakenBefore(entries, i, now, batchSize) < batchSize
  }

  /** The entries after a pull: the visible ones, up to the batch size, each under a new lease. */
  function LeaseAll(entries: seq<Entry>, now: int, batchSize: nat, until: int, nextLease: nat): seq<Entry> {
    seq(|entries|, i requires 0 <= i < |entries| =>
      if Takes(entries, i, now, batchSize) then Leased(entries[i], nextLease + TakenBefore(entries, i, now, batchSize) + 1, until)
      else entries[i])
  }

  function MessagesOf(entries: seq<Entry>, i: nat, now: int, batchSize: nat, until: int, nextLease: nat): seq<Message>
    requires i <= |entries|
  {
    if i == 0 then [] else
    var before := MessagesOf(entries, i - 1, now, batchSize, until, nextLease);
    if Takes(entries, i - 1, now, batchSize)
    then before + [MessageOf(Leased(entries[i - 1], nextLease + TakenBefore(entries, i - 1, now, batchSize) + 1, until))]
    else before
  }

  function Count(delivered: map<nat, nat>, messages: seq<Message>): map<nat, nat> {
    if messages == [] then delivered else
    var before, last := Count(delivered, messages[..|messages| - 1]), messages[|messages| - 1].id;
    before[last := if last in before then before[last] + 1 else 1]
  }

  function Pull(q: Queue, batchSize: nat, timeout: int, now: int, maxRetries: nat): (Queue, seq<Message>) {
    var kept := Filter(q.entries, Kept(now, maxRetries));
    var messages := MessagesOf(kept, |kept|, now, batchSize, now + timeout, q.nextLease);
    (q.(entries := LeaseAll(kept, now, batchSize, now + timeout, q.nextLease),
        dead := q.dead + Filter(q.entries, Exhausted(now, maxRetries)),
        nextLease := q.nextLease + |messages|, deliveredTimes := Count(q.deliveredTimes, messages)), messages)
  }

  /** The queue as the source holds it: an entry list that is filtered and whose entries change in place. */
  class MemoryQueue {
    const maxRetries: nat
    var queue: Queue

    constructor (maxRetries: nat)
      ensures queue == EMPTY && this.maxRetries == maxRetries
    {
      this.maxRetries := maxRetries;
      queue := EMPTY;
    }

    method SendMessage(body: Json)
      modifies this
      ensures queue == Send(old(queue), body)
    {
      queue := queue.(entries := queue.entries + [Entry(queue.sent, body, 0, 0, None)], sent := queue.sent + 1,
                      deliveredTimes := queue.deliveredTimes[queue.sent := 0]);
    }

    method SettleAt(acks: seq<nat>, retries: seq<Retry>, now: int)
      modifies this
      ensures queue == Settle(old(queue), acks, retries, now)
    {
      hide GiveBack;
      var entries := Filter(queue.entries, NotAcked(acks));
      ghost var kept := entries;
      for i := 0 to |retries|
        invariant queue == old(queue) && entries == GiveBackAll(kept, retries[..i], now)
      {
        assert retries[..i + 1][..i] == retries[..i];
        entries := GiveBackFirst(entries, retries[i].lease, now + retries[i].delaySeconds * 1000);
      }
      assert retries[..|retries|] == retries;
      queue := queue.(entries := entries, acked := queue.acked + AckedIds(queue.entries, acks));
    }

    method PullBatch(batchSize: nat, timeout: int, now: int) returns (messages: seq<Message>)
      modifies this
      ensures (queue, messages) == Pull(old(queue), batchSize, timeout, now, maxRetries)
    {
      hide Filter, Count, LeaseAll, MessagesOf;
      var dead := queue.dead + Filter(queue.entries, Exhausted(now, maxRetries));
      var kept := Filter(queue.entries, Kept(now, maxRetries));
      var entries, leased := LeaseVisible(kept, now, batchSize, now + timeout, queue.nextLease);
      messages := leased;
      queue := queue.(entries := entries, dead := dead, nextLease := queue.nextLease + |messages|,
                      deliveredTimes := Count(queue.deliveredTimes, messages));
    }
  }

  /** Finding a retried entry by its lease, and giving the lease back. */
  method GiveBackFirst(entries: seq<Entry>, lease: nat, visibleAt: int) returns (after: seq<Entry>)
    ensures after == GiveBack(entries, lease, visibleAt)
  {
    hide GiveBack;
    var k := 0;
    GiveBackFrom(entries, 0, lease, visibleAt);
    assert [] + GiveBack(entries, lease, visibleAt) == GiveBack(entries, lease, visibleAt);
    while k < |entries| && entries[k].lease != Some(lease)
      invariant k <= |entries|
      invariant GiveBack(entries, lease, visibleAt) == entries[..k] + GiveBack(entries[k..], lease, visibleAt)
    {
      GiveBackFrom(entries, k, lease, visibleAt);
      Passed(entries, k, GiveBack(entries[k + 1..], lease, visibleAt));
      k := k + 1;
    }
    GiveBackFrom(entries, k, lease, visibleAt);
    if k < |entries| {
      after := entries[k := entries[k].(lease := None, visibleAt := visibleAt)];
      Replaced(entries, k, entries[k].(lease := None, visibleAt := visibleAt));
    } else {
      after := entries;
      assert entries[..k] + [] == entries;
    }
  }

  lemma Passed(entries: seq<Entry>, k: nat, rest: seq<Entry>)
    requires k < |entries|
    ensures entries[..k] + ([entries[k]] + rest) == entries[..k + 1] + rest
  {
  }

  lemma Replaced(entries: seq<Entry>, k: nat, e: Entry)
    requires k < |entries|
    ensures entries[k := e] == entries[..k] + ([e] + entries[k + 1..])
  {
  }

  /** Looking from `k` on: at the end, at an entry with the lease, or further. */
  lemma GiveBackFrom(entries: seq<Entry>, k: nat, lease: nat, visibleAt: int)
    requires k <= |entries|
    ensures entries[..0] == [] && entries[0..] == entries
    ensures GiveBack(entries[k..], lease, visibleAt) ==
            if k == |entries| then []
            else if entries[k].lease == Some(lease) then [entries[k].(lease := None, visibleAt := visibleAt)] + entries[k + 1..]
            else [entries[k]] + GiveBack(entries[k + 1..], lease, visibleAt)
  {
    if k < |entries| {
      assert entries[k..][0] == entries[k] && entries[k..][1..] == entries[k + 1..];
    }
  }

  /** The leasing loop of a pull. */
  method LeaseVisible(kept: seq<Entry>, now: int, batchSize: nat, until: int, first: nat)
    returns (entries: seq<Entry>, messages: seq<Message>)
    ensures entries == LeaseAll(kept, now, batchSize, until, first)
    ensures messages == MessagesOf(kept, |kept|, now, batchSize, until, first)
  {
    hide LeaseAll, TakenBefore, MessagesOf;
    LeaseAllAt(kept, now, batchSize, until, first);
    LeaseStep(kept, 0, now, batchSize, until, first);
    entries, messages := kept, [];
    var nextLease := first;
    for i := 0 to |kept|
      invariant |entries| == |kept| && forall k :: i <= k < |kept| ==> entries[k] == kept[k]
      invariant forall k :: 0 <= k < i ==> entries[k] == LeaseAll(kept, now, batchSize, until, first)[k]
      invariant messages == MessagesOf(kept, i, now, batchSize, until, first)
      invariant |messages| == TakenBefore(kept, i, now, batchSize) && nextLease == first + |messages|
    {
      LeaseStep(kept, i, now, batchSize, until, first);
      if kept[i].visibleAt <= now && |messages| < batchSize {
        nextLease := nextLease + 1;
        entries := entries[i := Leased(kept[i], nextLease, until)];
        messages := messages + [MessageOf(entries[i])];
      }
    }
  }

  /** What taking or passing over the entry at `i` does to the count and the messages. */
  lemma LeaseStep(kept: seq<Entry>, i: nat, now: int, batchSize: nat, until: int, first: nat)
    requires i <= |kept|
    ensures TakenBefore(kept, 0, now, batchSize) == 0 && MessagesOf(kept, 0, now, batchSize, until, first) == []
    ensures i < |kept| ==>
              && TakenBefore(kept, i + 1, now, batchSize)
              == TakenBefore(kept, i, now, batchSize) + (if Takes(kept, i, now, batchSize) then 1 else 0)
              && var before := MessagesOf(kept, i, now, batchSize, until, first);
                 MessagesOf(kept, i + 1, now, batchSize, until, first) ==
                 if Takes(kept, i, now, batchSize)
                 then before + [MessageOf(Leased(kept[i], first + TakenBefore(kept, i, now, batchSize) + 1, until))] else before
  {
  }

  // ---------------------------------------------------------------- conservation

  datatype Op = SendOp(body: Json) | SettleOp(acks: seq<nat>, retries: seq<Retry>, now: int) | PullOp(batchSize: nat, timeout: int, now: int)

  function Step(q: Queue, op: Op, maxRetries: nat): Queue {
    match op
    case SendOp(body) => Send(q, body)
    case SettleOp(acks, retries, now) => Settle(q, acks, retries, now)
    case PullOp(batchSize, timeout, now) => Pull(q, batchSize, timeout, now, maxRetries).0
  }

  function After(q: Queue, ops: seq<Op>, maxRetries: nat): Queue {
    if ops == [] then q else Step(After(q, ops[..|ops| - 1], maxRetries), ops[|ops| - 1], maxRetries)
  }

  predicate DistinctIds(es: seq<Entry>) {
    forall i, j :: 0 <= i < j < |es| ==> es[i].id != es[j].id
  }

  predicate DistinctLeases(es: seq<Entry>, nextLease: nat) {
    && (forall i :: 0 <= i < |es| && es[i].lease.Some? ==> es[i].lease.value <= nextLease)
    && (forall i, j :: 0 <= i < j < |es| && es[i].lease.Some? ==> es[i].lease != es[j].lease)
  }

  predicate Has(es: seq<Entry>, id: nat) {
    exists e :: e in es && e.id == id
  }

  function One(b: bool): nat {
    if b then 1 else 0
  }

  function Places(q: Queue, id: nat): nat {
    One(Has(q.entries, id)) + One(id in q.acked) + One(Has(q.dead, id))
  }

  ghost predicate Counted(q: Queue, maxRetries: nat) {
    && (forall id: nat :: id in q.deliveredTimes <==> id < q.sent)
    && (forall id :: id in q.deliveredTimes ==> q.deliveredTimes[id] <= maxRetries + 1)
    && (forall e :: e in q.entries ==> e.id < q.sent && e.deliveries == q.deliveredTimes[e.id])
    && (forall e :: e in q.dead ==> e.id < q.sent && q.deliveredTimes[e.id] == maxRetries + 1)
  }

  ghost predicate Conserved(q: Queue) {
    && DistinctIds(q.entries) && DistinctIds(q.dead)
    && forall id: nat :: Places(q, id) == One(id < q.sent)
  }

  ghost predicate Inv(q: Queue, maxRetries: nat) {
    Conserved(q) && DistinctLeases(q.entries, q.nextLease) && Counted(q, maxRetries)
  }

  // ---- giving leases back

  /** The same entries, some of which have lost their lease. */
  predicate SameButLease(a: seq<Entry>, b: seq<Entry>) {
    && |a| == |b|
    && forall i :: 0 <= i < |a| ==>
                     && b[i].id == a[i].id && b[i].body == a[i].body && b[i].deliveries == a[i].deliveries
                     && (b[i] == a[i] || b[i].lease.None?)
  }

  lemma {:induction false} GiveBackFacts(es: seq<Entry>, lease: nat, visibleAt: int)
    ensures SameButLease(es, GiveBack(es, lease, visibleAt))
    ensures forall i :: 0 <= i < |es| && es[i].lease != Some(lease) ==> GiveBack(es, lease, visibleAt)[i] == es[i]
  {
    if es != [] && es[0].lease != Some(lease) {
      GiveBackFacts(es[1..], lease, visibleAt);
      var r := GiveBack(es[1..], lease, visibleAt);
      assert forall i :: 1 <= i < |es| ==> GiveBack(es, lease, visibleAt)[i] == r[i - 1] && es[i] == es[1..][i - 1];
    }
  }

  predicate Retried(retries: seq<Retry>, lease: Option<nat>) {
    exists r :: r in retries && lease == Some(r.lease)
  }

  lemma {:induction false} GiveBackAllFacts(es: seq<Entry>, retries: seq<Retry>, now: int)
    ensures SameButLease(es, GiveBackAll(es, retries, now))
    ensures forall i :: 0 <= i < |es| && !Retried(retries, es[i].lease) ==> GiveBackAll(es, retries, now)[i] == es[i]
  {
    if retries != [] {
      var last, before := retries[|retries| - 1], retries[..|retries| - 1];
      GiveBackAllFacts(es, before, now);
      GiveBackFacts(GiveBackAll(es, before, now), last.lease, now + last.delaySeconds * 1000);
      assert last in retries && forall r :: r in before ==> r in retries;
    }
  }

  lemma HeadDiffers(es: seq<Entry>)
    requires es != []
    ensures DistinctIds(es) ==> DistinctIds(es[1..]) && forall e :: e in es[1..] ==> e.id != es[0].id
    ensures forall n :: DistinctLeases(es, n) ==>
                          DistinctLeases(es[1..], n) && forall e :: e in es[1..] && e.lease.Some? ==> e.lease != es[0].lease
  {
    assert forall i :: 0 <= i < |es[1..]| ==> es[1..][i] == es[i + 1];
  }

  lemma {:induction false} FilterKeepsIds(es: seq<Entry>, keep: Entry -> bool)
    requires DistinctIds(es)
    ensures DistinctIds(Filter(es, keep))
  {
    if es != [] {
      HeadDiffers(es);
      FilterKeepsIds(es[1..], keep);
    }
  }

  lemma {:induction false} FilterKeepsLeases(es: seq<Entry>, keep: Entry -> bool, nextLease: nat)
    requires DistinctLeases(es, nextLease)
    ensures DistinctLeases(Filter(es, keep), nextLease)
  {
    if es != [] {
      HeadDiffers(es);
      FilterKeepsLeases(es[1..], keep, nextLease);
      LeaseFirst(es[0], Filter(es[1..], keep), nextLease);
    }
  }

  lemma LeaseFirst(e: Entry, rest: seq<Entry>, nextLease: nat)
    requires DistinctLeases(rest, nextLease) && (e.lease.Some? ==> e.lease.value <= nextLease)
    requires forall x :: x in rest && x.lease.Some? ==> x.lease != e.lease
    ensures DistinctLeases([e] + rest, nextLease)
  {
  }

  lemma SameIds(a: seq<Entry>, b: seq<Entry>, id: nat)
    requires SameButLease(a, b)
    ensures Has(a, id) == Has(b, id)
  {
    if Has(a, id) {
      var e :| e in a && e.id == id;
      var i :| 0 <= i < |a| && a[i] == e;
      assert b[i] in b;
    }
    if Has(b, id) {
      var e :| e in b && e.id == id;
      var i :| 0 <= i < |b| && b[i] == e;
      assert a[i] in a;
    }
  }

  /** Acked messages leave the entries, and only they do. */
  lemma AckedLeave(es: seq<Entry>, acks: seq<nat>, id: nat)
    requires DistinctIds(es)
    ensures Has(es, id) <==> (Has(Filter(es, NotAcked(acks)), id) || id in AckedIds(es, acks))
    ensures !(Has(Filter(es, NotAcked(acks)), id) && id in AckedIds(es, acks))
  {
    if Has(es, id) {
      var e :| e in es && e.id == id;
      assert NotAcked(acks)(e) ==> e in Filter(es, NotAcked(acks));
    }
  }

  lemma SameButLeaseKeeps(a: seq<Entry>, b: seq<Entry>, nextLease: nat)
    requires SameButLease(a, b) && DistinctIds(a) && DistinctLeases(a, nextLease)
    ensures DistinctIds(b) && DistinctLeases(b, nextLease)
  {
  }

  lemma SettleKeeps(q: Queue, acks: seq<nat>, retries: seq<Retry>, now: int, maxRetries: nat)
    requires Inv(q, maxRetries)
    ensures Inv(Settle(q, acks, retries, now), maxRetries)
  {
    hide GiveBackAll, Filter, DistinctIds, DistinctLeases, Has, AckedIds;
    var kept := Filter(q.entries, NotAcked(acks));
    var t := Settle(q, acks, retries, now);
    FilterKeepsIds(q.entries, NotAcked(acks));
    FilterKeepsLeases(q.entries, NotAcked(acks), q.nextLease);
    GiveBackAllFacts(kept, retries, now);
    SameButLeaseKeeps(kept, t.entries, q.nextLease);
    forall id: nat ensures Places(t, id) == One(id < q.sent) {
      AckedLeave(q.entries, acks, id);
      SameIds(kept, t.entries, id);
      assert Places(q, id) == One(id < q.sent);
    }
    forall e | e in t.entries ensures e.id < q.sent && e.deliveries == q.deliveredTimes[e.id] {
      var i :| 0 <= i < |kept| && t.entries[i] == e;
      assert kept[i] in q.entries;
    }
  }

  lemma SendKeeps(q: Queue, body: Json, maxRetries: nat)
    requires Inv(q, maxRetries)
    ensures Inv(Send(q, body), maxRetries)
  {
    var t := Send(q, body);
    forall id: nat ensures Places(t, id) == One(id < t.sent) {
      assert Places(q, id) == One(id < q.sent);
      assert Has(t.entries, id) <==> Has(q.entries, id) || id == q.sent by {
        if Has(q.entries, id) {
          var e :| e in q.entries && e.id == id;
          assert e in t.entries;
        }
        assert t.entries[|q.entries|] in t.entries;
      }
    }
  }

  // ---- leasing

  lemma {:induction false} TakenGrows(es: seq<Entry>, i: nat, j: nat, now: int, batchSize: nat)
    requires i <= j <= |es|
    ensures TakenBefore(es, i, now, batchSize) <= TakenBefore(es, j, now, batchSize) <= batchSize
    ensures i < j && Takes(es, i, now, batchSize) ==> TakenBefore(es, i, now, batchSize) < TakenBefore(es, j, now, batchSize)
    decreases j
  {
    if i < j {
      TakenGrows(es, i, j - 1, now, batchSize);
    } else if i > 0 {
      TakenGrows(es, i - 1, i - 1, now, batchSize);
    }
  }

  lemma {:induction false} MessagesCount(es: seq<Entry>, i: nat, now: int, batchSize: nat, until: int, nextLease: nat)
    requires i <= |es|
    ensures |MessagesOf(es, i, now, batchSize, until, nextLease)| == TakenBefore(es, i, now, batchSize)
    ensures forall m :: m in MessagesOf(es, i, now, batchSize, until, nextLease) ==>
                          exists k :: 0 <= k < i && Takes(es, k, now, batchSize) && m.id == es[k].id
    decreases i
  {
    if i > 0 {
      MessagesCount(es, i - 1, now, batchSize, until, nextLease);
    }
  }

  /** A pull counts each leased entry once. */
  lemma {:induction false} CountLeased(
    es: seq<Entry>, i: nat, now: int, batchSize: nat, until: int, nextLease: nat, delivered: map<nat, nat>)
    requires i <= |es| && DistinctIds(es) && forall e :: e in es ==> e.id in delivered
    ensures var after := Count(delivered, MessagesOf(es, i, now, batchSize, until, nextLease));
            && after.Keys == delivered.Keys
            && (forall k :: 0 <= k < |es| ==> after[es[k].id] == delivered[es[k].id] + One(k < i && Takes(es, k, now, batchSize)))
            && (forall id :: id in delivered && !Has(es, id) ==> after[id] == delivered[id])
    decreases i
  {
    hide TakenBefore, MessagesOf, Count;
    LeaseStep(es, if i > 0 then i - 1 else 0, now, batchSize, until, nextLease);
    CountNone(delivered);
    if i > 0 {
      CountLeased(es, i - 1, now, batchSize, until, nextLease, delivered);
      if Takes(es, i - 1, now, batchSize) {
        var message := MessageOf(Leased(es[i - 1], nextLease + TakenBefore(es, i - 1, now, batchSize) + 1, until));
        CountOne(delivered, MessagesOf(es, i - 1, now, batchSize, until, nextLease), message);
        assert es[i - 1] in es;
      }
    }
  }

  lemma CountNone(delivered: map<nat, nat>)
    ensures Count(delivered, []) == delivered
  {
  }

  lemma CountOne(delivered: map<nat, nat>, before: seq<Message>, m: Message)
    ensures var was := Count(delivered, before);
            Count(delivered, before + [m]) == was[m.id := if m.id in was then was[m.id] + 1 else 1]
  {
    assert (before + [m])[..|before|] == before;
  }

  lemma LeaseAllAt(es: seq<Entry>, now: int, batchSize: nat, until: int, nextLease: nat)
    ensures var r := LeaseAll(es, now, batchSize, until, nextLease);
            && |r| == |es|
            && forall i :: 0 <= i < |es| ==>
                             && r[i].id == es[i].id && r[i].body == es[i].body
                             && (Takes(es, i, now, batchSize) ==>
                                   r[i] == Leased(es[i], nextLease + TakenBefore(es, i, now, batchSize) + 1, until))
                             && (!Takes(es, i, now, batchSize) ==> r[i] == es[i])
  {
    hide Takes, TakenBefore;
  }

  lemma LeaseKeepsLeases(es: seq<Entry>, now: int, batchSize: nat, until: int, nextLease: nat)
    requires DistinctLeases(es, nextLease)
    ensures DistinctLeases(LeaseAll(es, now, batchSize, until, nextLease), nextLease + TakenBefore(es, |es|, now, batchSize))
  {
    hide LeaseAll, Takes, TakenBefore;
    var r := LeaseAll(es, now, batchSize, until, nextLease);
    LeaseAllAt(es, now, batchSize, until, nextLease);
    forall i | 0 <= i < |es| && r[i].lease.Some? ensures r[i].lease.value <= nextLease + TakenBefore(es, |es|, now, batchSize) {
      TakenGrows(es, i, |es|, now, batchSize);
    }
    forall i, j | 0 <= i < j < |es| && r[i].lease.Some? ensures r[i].lease != r[j].lease {
      TakenGrows(es, i, j, now, batchSize);
    }
  }

  lemma SameIdsLeased(es: seq<Entry>, now: int, batchSize: nat, until: int, nextLease: nat, id: nat)
    ensures Has(LeaseAll(es, now, batchSize, until, nextLease), id) == Has(es, id)
  {
    hide LeaseAll, Takes, TakenBefore;
    var r := LeaseAll(es, now, batchSize, until, nextLease);
    LeaseAllAt(es, now, batchSize, until, nextLease);
    if Has(es, id) {
      var e :| e in es && e.id == id;
      var i :| 0 <= i < |es| && es[i] == e;
      assert r[i] in r;
    }
    if Has(r, id) {
      var e :| e in r && e.id == id;
      var i :| 0 <= i < |r| && r[i] == e;
      assert es[i] in es;
    }
  }

  /** A pull moves an exhausted entry to the dead letters and keeps every other. */
  lemma ExhaustedLeave(es: seq<Entry>, now: int, maxRetries: nat, id: nat)
    requires DistinctIds(es)
    ensures Has(es, id) <==> (Has(Filter(es, Kept(now, maxRetries)), id) || Has(Filter(es, Exhausted(now, maxRetries)), id))
    ensures !(Has(Filter(es, Kept(now, maxRetries)), id) && Has(Filter(es, Exhausted(now, maxRetries)), id))
  {
    if Has(es, id) {
      var e :| e in es && e.id == id;
      assert if Exhausted(now, maxRetries)(e) then e in Filter(es, Exhausted(now, maxRetries)) else e in Filter(es, Kept(now, maxRetries));
    }
  }

  lemma DeadDistinct(dead: seq<Entry>, more: seq<Entry>)
    requires DistinctIds(dead) && DistinctIds(more) && forall e :: e in more ==> !Has(dead, e.id)
    ensures DistinctIds(dead + more)
  {
    forall i, j | 0 <= i < j < |dead + more| ensures (dead + more)[i].id != (dead + more)[j].id {
      if i < |dead| <= j {
        assert dead[i] in dead && more[j - |dead|] in more;
      }
    }
  }

  lemma HasAppend(a: seq<Entry>, b: seq<Entry>, id: nat)
    ensures Has(a + b, id) <==> Has(a, id) || Has(b, id)
  {
    if Has(a, id) {
      var e :| e in a && e.id == id;
      assert e in a + b;
    }
    if Has(b, id) {
      var e :| e in b && e.id == id;
      assert e in a + b;
    }
  }

  lemma PullConserves(q: Queue, batchSize: nat, timeout: int, now: int, maxRetries: nat)
    requires Conserved(q)
    ensures Conserved(Pull(q, batchSize, timeout, now, maxRetries).0)
  {
    hide Filter, LeaseAll, MessagesOf, Count, DistinctIds, Has;
    var t := Pull(q, batchSize, timeout, now, maxRetries).0;
    var kept, gone := Filter(q.entries, Kept(now, maxRetries)), Filter(q.entries, Exhausted(now, maxRetries));
    FilterKeepsIds(q.entries, Kept(now, maxRetries));
    FilterKeepsIds(q.entries, Exhausted(now, maxRetries));
    LeaseKeepsIds(kept, now, batchSize, now + timeout, q.nextLease);
    forall e | e in gone ensures !Has(q.dead, e.id) {
      HasMember(q.entries, e);
      assert Places(q, e.id) == One(e.id < q.sent);
    }
    DeadDistinct(q.dead, gone);
    forall id: nat ensures Places(t, id) == One(id < q.sent) {
      assert Places(q, id) == One(id < q.sent);
      ExhaustedLeave(q.entries, now, maxRetries, id);
      SameIdsLeased(kept, now, batchSize, now + timeout, q.nextLease, id);
      HasAppend(q.dead, gone, id);
    }
  }

  lemma HasMember(es: seq<Entry>, e: Entry)
    requires e in es
    ensures Has(es, e.id)
  {
  }

  lemma LeaseKeepsIds(es: seq<Entry>, now: int, batchSize: nat, until: int, nextLease: nat)
    requires DistinctIds(es)
    ensures DistinctIds(LeaseAll(es, now, batchSize, until, nextLease))
  {
    hide LeaseAll, Takes, TakenBefore;
    LeaseAllAt(es, now, batchSize, until, nextLease);
  }

  /** What the count and the leased entries say about one kept entry after the pull. */
  lemma LeasedCountAt(
    kept: seq<Entry>, i: nat, now: int, batchSize: nat, until: int, nextLease: nat, delivered: map<nat, nat>, maxRetries: nat)
    requires i < |kept| && DistinctIds(kept) && forall e :: e in kept ==> e.id in delivered
    requires kept[i].deliveries == delivered[kept[i].id] <= maxRetries + 1 && Kept(now, maxRetries)(kept[i])
    ensures var after := Count(delivered, MessagesOf(kept, |kept|, now, batchSize, until, nextLease));
            && kept[i].id in after && after[kept[i].id] <= maxRetries + 1
            && i < |LeaseAll(kept, now, batchSize, until, nextLease)|
            && LeaseAll(kept, now, batchSize, until, nextLease)[i].deliveries == after[kept[i].id]
            && LeaseAll(kept, now, batchSize, until, nextLease)[i].id == kept[i].id
  {
    hide LeaseAll, TakenBefore, MessagesOf, Count;
    LeaseAllAt(kept, now, batchSize, until, nextLease);
    CountLeased(kept, |kept|, now, batchSize, until, nextLease, delivered);
    if Takes(kept, i, now, batchSize) {
      assert !Exhausted(now, maxRetries)(kept[i]);
      assert kept[i].deliveries <= maxRetries;
    }
  }

  /** Leased entries agree with the count after the pull, and stay within the limit. */
  lemma LeasedCounts(kept: seq<Entry>, now: int, batchSize: nat, until: int, nextLease: nat, delivered: map<nat, nat>, maxRetries: nat)
    requires DistinctIds(kept)
    requires forall e :: e in kept ==> e.id in delivered && e.deliveries == delivered[e.id] && Kept(now, maxRetries)(e)
    requires forall id :: id in delivered ==> delivered[id] <= maxRetries + 1
    ensures var after := Count(delivered, MessagesOf(kept, |kept|, now, batchSize, until, nextLease));
            && after.Keys == delivered.Keys
            && (forall e :: e in LeaseAll(kept, now, batchSize, until, nextLease) ==> e.id in after && e.deliveries == after[e.id])
            && (forall id :: id in after ==> after[id] <= maxRetries + 1)
            && (forall id :: id in after && !Has(kept, id) ==> after[id] == delivered[id])
  {
    hide LeaseAll, TakenBefore, MessagesOf, Count, DistinctIds, Takes;
    CountLeased(kept, |kept|, now, batchSize, until, nextLease, delivered);
    var r := LeaseAll(kept, now, batchSize, until, nextLease);
    var after := Count(delivered, MessagesOf(kept, |kept|, now, batchSize, until, nextLease));
    forall e | e in r ensures e.id in after && e.deliveries == after[e.id] {
      var i :| 0 <= i < |r| && r[i] == e;
      LeaseAllLength(kept, now, batchSize, until, nextLease);
      assert kept[i] in kept;
      LeasedCountAt(kept, i, now, batchSize, until, nextLease, delivered, maxRetries);
    }
    forall id | id in after ensures after[id] <= maxRetries + 1 {
      if Has(kept, id) {
        var e :| e in kept && e.id == id;
        var i :| 0 <= i < |kept| && kept[i] == e;
        LeasedCountAt(kept, i, now, batchSize, until, nextLease, delivered, maxRetries);
      }
    }
  }

  lemma LeaseAllLength(es: seq<Entry>, now: int, batchSize: nat, until: int, nextLease: nat)
    ensures |LeaseAll(es, now, batchSize, until, nextLease)| == |es|
  {
    hide Takes, TakenBefore;
  }

  lemma PullCounts(q: Queue, batchSize: nat, timeout: int, now: int, maxRetries: nat)
    requires Conserved(q) && Counted(q, maxRetries)
    ensures Counted(Pull(q, batchSize, timeout, now, maxRetries).0, maxRetries)
  {
    hide Filter, MessagesOf, Count, LeaseAll, Has, Conserved;
    var t := Pull(q, batchSize, timeout, now, maxRetries).0;
    var kept := Filter(q.entries, Kept(now, maxRetries));
    ConservedIds(q);
    FilterKeepsIds(q.entries, Kept(now, maxRetries));
    LeasedCounts(kept, now, batchSize, now + timeout, q.nextLease, q.deliveredTimes, maxRetries);
    forall e | e in t.dead ensures e.id < q.sent && t.deliveredTimes[e.id] == maxRetries + 1 {
      DeadNotKept(q, now, maxRetries, e);
    }
  }

  lemma DeadNotKept(q: Queue, now: int, maxRetries: nat, e: Entry)
    requires Conserved(q) && Counted(q, maxRetries)
    requires e in q.dead || e in Filter(q.entries, Exhausted(now, maxRetries))
    ensures !Has(Filter(q.entries, Kept(now, maxRetries)), e.id) && q.deliveredTimes[e.id] == maxRetries + 1
  {
    ExhaustedLeave(q.entries, now, maxRetries, e.id);
    assert Places(q, e.id) == One(e.id < q.sent);
    if e in q.dead {
      HasMember(q.dead, e);
    } else {
      HasMember(Filter(q.entries, Exhausted(now, maxRetries)), e);
      HasMember(q.entries, e);
    }
  }

  lemma PullKeeps(q: Queue, batchSize: nat, timeout: int, now: int, maxRetries: nat)
    requires Inv(q, maxRetries)
    ensures Inv(Pull(q, batchSize, timeout, now, maxRetries).0, maxRetries)
  {
    hide Filter, LeaseAll, MessagesOf, Count, Conserved, Counted;
    var kept := Filter(q.entries, Kept(now, maxRetries));
    assert DistinctIds(kept) by {
      assert DistinctIds(q.entries) by {
        ConservedIds(q);
      }
      FilterKeepsIds(q.entries, Kept(now, maxRetries));
    }
    FilterKeepsLeases(q.entries, Kept(now, maxRetries), q.nextLease);
    LeaseKeepsLeases(kept, now, batchSize, now + timeout, q.nextLease);
    MessagesCount(kept, |kept|, now, batchSize, now + timeout, q.nextLease);
    PullConserves(q, batchSize, timeout, now, maxRetries);
    PullCounts(q, batchSize, timeout, now, maxRetries);
  }

  lemma ConservedIds(q: Queue)
    requires Conserved(q)
    ensures DistinctIds(q.entries)
  {
  }

  lemma EmptyInv(maxRetries: nat)
    ensures Inv(EMPTY, maxRetries)
  {
  }

  lemma {:induction false} AfterKeeps(q: Queue, ops: seq<Op>, maxRetries: nat)
    requires Inv(q, maxRetries)
    ensures Inv(After(q, ops, maxRetries), maxRetries)
  {
    if ops != [] {
      var t, op := After(q, ops[..|ops| - 1], maxRetries), ops[|ops| - 1];
      AfterKeeps(q, ops[..|ops| - 1], maxRetries);
      hide Inv, Send, Settle, Pull;
      match op
      case SendOp(body) => SendKeeps(t, body, maxRetries);
      case SettleOp(acks, retries, now) => SettleKeeps(t, acks, retries, now, maxRetries);
      case PullOp(batchSize, timeout, now) => PullKeeps(t, batchSize, timeout, now, maxRetries);
    }
  }

  /**
   * After any sends, pulls and settles: every message sent is in exactly one of held, acked or dead,
   * nothing else is, no message is handed out more than `maxRetries + 1` times, and a dead one was
   * handed out exactly that often.
   */
  lemma MessagesConserved(ops: seq<Op>, maxRetries: nat)
    ensures var q := After(EMPTY, ops, maxRetries);
            && (forall id: nat :: Places(q, id) == if id < q.sent then 1 else 0)
            && (forall id :: id in q.deliveredTimes ==> q.deliveredTimes[id] <= maxRetries + 1)
            && (forall e :: e in q.dead ==> e.id in q.deliveredTimes && q.deliveredTimes[e.id] == maxRetries + 1)
            && DistinctIds(q.entries) && DistinctIds(q.dead)
  {
    hide Places;
    EmptyInv(maxRetries);
    AfterKeeps(EMPTY, ops, maxRetries);
  }

  // ---------------------------------------------------------------- leases

  predicate HoldsLease(es: seq<Entry>, lease: nat) {
    exists e :: e in es && e.lease == Some(lease)
  }

  /** The lease has been issued, and no entry holds it any more. */
  predicate Superseded(q: Queue, lease: nat) {
    lease <= q.nextLease && !HoldsLease(q.entries, lease)
  }

  lemma SupersededStays(q: Queue, op: Op, maxRetries: nat, lease: nat)
    requires Superseded(q, lease)
    ensures Superseded(Step(q, op, maxRetries), lease)
  {
    hide Filter, GiveBackAll, LeaseAll, MessagesOf, Count, TakenBefore, Takes;
    match op
    case SendOp(_) =>
    case SettleOp(acks, retries, now) =>
      var kept := Filter(q.entries, NotAcked(acks));
      GiveBackAllFacts(kept, retries, now);
      forall e | e in GiveBackAll(kept, retries, now) ensures e.lease != Some(lease) {
        var i :| 0 <= i < |kept| && GiveBackAll(kept, retries, now)[i] == e;
        assert kept[i] in q.entries;
      }
    case PullOp(batchSize, timeout, now) =>
      var kept := Filter(q.entries, Kept(now, maxRetries));
      LeaseAllAt(kept, now, batchSize, now + timeout, q.nextLease);
      forall e | e in LeaseAll(kept, now, batchSize, now + timeout, q.nextLease) ensures e.lease != Some(lease) {
        var i :| 0 <= i < |kept| && LeaseAll(kept, now, batchSize, now + timeout, q.nextLease)[i] == e;
        assert kept[i] in q.entries;
      }
  }

  lemma {:induction false} NothingGivenBack(es: seq<Entry>, lease: nat, visibleAt: int)
    requires !HoldsLease(es, lease)
    ensures GiveBack(es, lease, visibleAt) == es
  {
    GiveBackFacts(es, lease, visibleAt);
    assert forall i :: 0 <= i < |es| ==> es[i] in es;
  }

  function OtherLeases(acks: seq<nat>, lease: nat): seq<nat> {
    Filter(acks, (a: nat) => a != lease)
  }

  function OtherRetries(retries: seq<Retry>, lease: nat): seq<Retry> {
    Filter(retries, (r: Retry) => r.lease != lease)
  }

  lemma NoneHoldsInPart(es: seq<Entry>, keep: Entry -> bool, lease: nat)
    requires !HoldsLease(es, lease)
    ensures !HoldsLease(Filter(es, keep), lease)
  {
  }

  lemma {:induction false} NoneGained(es: seq<Entry>, retries: seq<Retry>, now: int, lease: nat)
    requires !HoldsLease(es, lease)
    ensures !HoldsLease(GiveBackAll(es, retries, now), lease)
  {
    GiveBackAllFacts(es, retries, now);
    LeaseOfSame(es, GiveBackAll(es, retries, now), lease);
  }

  lemma {:induction false} RetriesWithout(es: seq<Entry>, retries: seq<Retry>, now: int, lease: nat)
    requires !HoldsLease(es, lease)
    ensures GiveBackAll(es, retries, now) == GiveBackAll(es, OtherRetries(retries, lease), now)
  {
    if retries == [] {
      assert OtherRetries(retries, lease) == [];
    } else {
      hide *;
      var last, before := retries[|retries| - 1], retries[..|retries| - 1];
      assert retries == before + [last];
      RetriesWithout(es, before, now, lease);
      OtherRetriesLast(retries, lease);
      GiveBackLast(es, before, last, now);
      if last.lease == lease {
        NoneGained(es, before, now, lease);
        NothingGivenBack(GiveBackAll(es, before, now), lease, now + last.delaySeconds * 1000);
      } else {
        GiveBackLast(es, OtherRetries(before, lease), last, now);
      }
    }
  }

  lemma OtherRetriesLast(retries: seq<Retry>, lease: nat)
    requires retries != []
    ensures var last, fewer := retries[|retries| - 1], OtherRetries(retries[..|retries| - 1], lease);
            OtherRetries(retries, lease) == if last.lease == lease then fewer else fewer + [last]
  {
    var before, last := retries[..|retries| - 1], retries[|retries| - 1];
    assert retries == before + [last];
    FilterAppend(before, [last], (r: Retry) => r.lease != lease);
    assert OtherRetries(before, lease) + [] == OtherRetries(before, lease);
  }

  lemma GiveBackLast(es: seq<Entry>, retries: seq<Retry>, last: Retry, now: int)
    ensures GiveBackAll(es, retries + [last], now) == GiveBack(GiveBackAll(es, retries, now), last.lease, now + last.delaySeconds * 1000)
  {
    assert (retries + [last])[..|retries|] == retries;
  }

  lemma {:induction false} SameFilter(es: seq<Entry>, a: Entry -> bool, b: Entry -> bool)
    requires forall e :: e in es ==> a(e) == b(e)
    ensures Filter(es, a) == Filter(es, b)
  {
    if es != [] {
      SameFilter(es[1..], a, b);
    }
  }

  /** In a settle that carries other leases too, a superseded one changes nothing. */
  lemma SupersededIsIgnored(q: Queue, lease: nat, acks: seq<nat>, retries: seq<Retry>, now: int)
    requires Superseded(q, lease)
    ensures Settle(q, acks, retries, now) == Settle(q, OtherLeases(acks, lease), OtherRetries(retries, lease), now)
  {
    var fewer := OtherLeases(acks, lease);
    forall e | e in q.entries ensures NotAcked(acks)(e) == NotAcked(fewer)(e) {
      assert e.lease != Some(lease);
    }
    hide Filter, NotAcked, GiveBackAll;
    SameFilter(q.entries, NotAcked(acks), NotAcked(fewer));
    NoneHoldsInPart(q.entries, NotAcked(acks), lease);
    RetriesWithout(Filter(q.entries, NotAcked(acks)), retries, now, lease);
    assert AckedIds(q.entries, acks) == AckedIds(q.entries, fewer);
  }

  /**
   * A lease given back or replaced can neither ack nor retry, then or after any further operations, alone
   * or in a settle with others.
   */
  lemma SupersededLeaseIsInert(q: Queue, ops: seq<Op>, maxRetries: nat, lease: nat, acks: seq<nat>, retries: seq<Retry>, now: int)
    requires Superseded(q, lease)
    ensures var t := After(q, ops, maxRetries);
            && Settle(t, acks, retries, now) == Settle(t, OtherLeases(acks, lease), OtherRetries(retries, lease), now)
            && ((forall a :: a in acks ==> a == lease) && (forall r :: r in retries ==> r.lease == lease) ==>
                  Settle(t, acks, retries, now) == t)
  {
    hide Step, Settle, Filter;
    SupersededAfter(q, ops, maxRetries, lease);
    var t := After(q, ops, maxRetries);
    SupersededIsIgnored(t, lease, acks, retries, now);
    if (forall a :: a in acks ==> a == lease) && (forall r :: r in retries ==> r.lease == lease) {
      FilterNone(acks, (a: nat) => a != lease);
      FilterNone(retries, (r: Retry) => r.lease != lease);
      SettleNothing(t, now);
    }
  }

  lemma SettleNothing(q: Queue, now: int)
    ensures Settle(q, [], [], now) == q
  {
    FilterAll(q.entries, NotAcked([]));
    assert q.acked + AckedIds(q.entries, []) == q.acked;
  }

  // ---- how a lease comes to be superseded

  /** The operation acks the lease or gives it back, or finds its message expired and buries or re-leases it. */
  predicate EndsLease(q: Queue, op: Op, maxRetries: nat, e: Entry) {
    match op
    case SendOp(_) => false
    case SettleOp(acks, retries, _) => !NotAcked(acks)(e) || Retried(retries, e.lease)
    case PullOp(batchSize, timeout, now) =>
      Exhausted(now, maxRetries)(e) || exists m :: m in Pull(q, batchSize, timeout, now, maxRetries).1 && m.id == e.id
  }

  lemma OnlyHolder(es: seq<Entry>, n: nat, e: Entry, x: Entry)
    requires DistinctLeases(es, n) && e in es && x in es && e.lease.Some? && x.lease == e.lease
    ensures x == e && e.lease.value <= n
  {
  }

  lemma {:induction false} GivesBack(es: seq<Entry>, n: nat, lease: nat, visibleAt: int)
    requires DistinctLeases(es, n)
    ensures !HoldsLease(GiveBack(es, lease, visibleAt), lease)
  {
    if es != [] {
      HeadDiffers(es);
      GivesBack(es[1..], n, lease, visibleAt);
    }
  }

  lemma {:induction false} GivesAllBack(es: seq<Entry>, n: nat, retries: seq<Retry>, now: int, lease: nat)
    requires DistinctIds(es) && DistinctLeases(es, n) && Retried(retries, Some(lease))
    ensures !HoldsLease(GiveBackAll(es, retries, now), lease)
  {
    hide DistinctIds, DistinctLeases;
    var last, before := retries[|retries| - 1], retries[..|retries| - 1];
    var left := GiveBackAll(es, before, now);
    GiveBackAllFacts(es, before, now);
    SameButLeaseKeeps(es, left, n);
    if last.lease == lease {
      GivesBack(left, n, lease, now + last.delaySeconds * 1000);
    } else {
      var r :| r in retries && r.lease == lease;
      assert r in before;
      GivesAllBack(es, n, before, now, lease);
      GiveBackFacts(left, last.lease, now + last.delaySeconds * 1000);
      LeaseOfSame(left, GiveBackAll(es, retries, now), lease);
    }
  }

  lemma LeaseOfSame(a: seq<Entry>, b: seq<Entry>, lease: nat)
    requires SameButLease(a, b) && !HoldsLease(a, lease)
    ensures !HoldsLease(b, lease)
  {
    forall e | e in b ensures e.lease != Some(lease) {
      var k :| 0 <= k < |b| && b[k] == e;
      assert a[k] in a;
    }
  }

  lemma SettleEnds(q: Queue, acks: seq<nat>, retries: seq<Retry>, now: int, maxRetries: nat, e: Entry)
    requires Inv(q, maxRetries) && e in q.entries && e.lease.Some? && EndsLease(q, SettleOp(acks, retries, now), maxRetries, e)
    ensures Superseded(Settle(q, acks, retries, now), e.lease.value)
  {
    hide GiveBackAll, Filter, DistinctLeases, DistinctIds, NotAcked, Counted;
    var kept, lease := Filter(q.entries, NotAcked(acks)), e.lease.value;
    OnlyHolder(q.entries, q.nextLease, e, e);
    FilterKeepsIds(q.entries, NotAcked(acks));
    FilterKeepsLeases(q.entries, NotAcked(acks), q.nextLease);
    if NotAcked(acks)(e) {
      GivesAllBack(kept, q.nextLease, retries, now, lease);
    } else {
      forall x | x in kept ensures x.lease != Some(lease) {
        if x.lease == e.lease { OnlyHolder(q.entries, q.nextLease, e, x); }
      }
      GiveBackAllFacts(kept, retries, now);
      LeaseOfSame(kept, GiveBackAll(kept, retries, now), lease);
    }
  }

  lemma {:induction false} TakenIsHandedOut(es: seq<Entry>, i: nat, now: int, batchSize: nat, until: int, nextLease: nat, k: nat)
    requires k < i <= |es| && Takes(es, k, now, batchSize)
    ensures exists m :: m in MessagesOf(es, i, now, batchSize, until, nextLease) && m.id == es[k].id
    decreases i
  {
    if k < i - 1 {
      TakenIsHandedOut(es, i - 1, now, batchSize, until, nextLease, k);
      var m :| m in MessagesOf(es, i - 1, now, batchSize, until, nextLease) && m.id == es[k].id;
      assert m in MessagesOf(es, i, now, batchSize, until, nextLease);
    } else {
      var m := MessageOf(Leased(es[k], nextLease + TakenBefore(es, k, now, batchSize) + 1, until));
      assert m in MessagesOf(es, i, now, batchSize, until, nextLease);
    }
  }

  /** What a pull leaves under a lease issued before it, it left alone. */
  lemma OldLeaseAfterPull(q: Queue, batchSize: nat, timeout: int, now: int, maxRetries: nat, x: Entry, lease: nat) returns (k: nat)
    requires lease <= q.nextLease && x.lease == Some(lease) && x in Pull(q, batchSize, timeout, now, maxRetries).0.entries
    ensures var kept := Filter(q.entries, Kept(now, maxRetries)); k < |kept| && kept[k] == x && !Takes(kept, k, now, batchSize)
  {
    hide Filter, LeaseAll, MessagesOf, Count, Takes, TakenBefore;
    var kept := Filter(q.entries, Kept(now, maxRetries));
    LeaseAllAt(kept, now, batchSize, now + timeout, q.nextLease);
    k :| 0 <= k < |kept| && LeaseAll(kept, now, batchSize, now + timeout, q.nextLease)[k] == x;
  }

  lemma PullEndsIff(q: Queue, batchSize: nat, timeout: int, now: int, maxRetries: nat, e: Entry)
    requires Inv(q, maxRetries) && e in q.entries && e.lease.Some?
    ensures Superseded(Pull(q, batchSize, timeout, now, maxRetries).0, e.lease.value)
       <==> EndsLease(q, PullOp(batchSize, timeout, now), maxRetries, e)
  {
    hide Filter, LeaseAll, MessagesOf, Count, Takes, TakenBefore, DistinctIds, DistinctLeases, Counted;
    var kept := Filter(q.entries, Kept(now, maxRetries));
    var t := Pull(q, batchSize, timeout, now, maxRetries).0;
    OnlyHolder(q.entries, q.nextLease, e, e);
    FilterKeepsIds(q.entries, Kept(now, maxRetries));
    MessagesCount(kept, |kept|, now, batchSize, now + timeout, q.nextLease);
    if EndsLease(q, PullOp(batchSize, timeout, now), maxRetries, e) {
      forall x | x in t.entries ensures x.lease != e.lease {
        if x.lease == e.lease {
          var k := OldLeaseAfterPull(q, batchSize, timeout, now, maxRetries, x, e.lease.value);
          OnlyHolder(q.entries, q.nextLease, e, x);
          KeptAreDistinct(kept, e);
          assert false;
        }
      }
    } else {
      assert Kept(now, maxRetries)(e);
      assert e in kept;
      var k :| 0 <= k < |kept| && kept[k] == e;
      if Takes(kept, k, now, batchSize) {
        TakenIsHandedOut(kept, |kept|, now, batchSize, now + timeout, q.nextLease, k);
        assert false;
      }
      LeaseAllAt(kept, now, batchSize, now + timeout, q.nextLease);
      assert t.entries[k] == e && e in t.entries;
    }
  }

  lemma KeptAreDistinct(kept: seq<Entry>, e: Entry)
    requires DistinctIds(kept)
    ensures forall k, l :: 0 <= k < |kept| && 0 <= l < |kept| && kept[k] == e && kept[l].id == e.id ==> k == l
  {
  }

  /**
   * From a state that the queue can be in, an operation supersedes a lease that a message holds if and
   * only if it acks it, gives it back, or moves the message to the dead letters or under a new lease.
   */
  lemma LeaseEndsIff(q: Queue, op: Op, maxRetries: nat, e: Entry)
    requires Inv(q, maxRetries) && e in q.entries && e.lease.Some?
    ensures Superseded(Step(q, op, maxRetries), e.lease.value) <==> EndsLease(q, op, maxRetries, e)
  {
    hide Inv, Settle, Pull;
    match op
    case SendOp(_) => assert e in Step(q, op, maxRetries).entries;
    case SettleOp(acks, retries, now) =>
      if EndsLease(q, op, maxRetries, e) {
        SettleEnds(q, acks, retries, now, maxRetries, e);
      } else {
        assert Leaves(op, e.lease.value, e.visibleAt);
        LeaseStays(q, op, maxRetries, e);
      }
    case PullOp(batchSize, timeout, now) => PullEndsIff(q, batchSize, timeout, now, maxRetries, e);
  }

  lemma {:induction false} SupersededAfter(q: Queue, ops: seq<Op>, maxRetries: nat, lease: nat)
    requires Superseded(q, lease)
    ensures Superseded(After(q, ops, maxRetries), lease)
  {
    if ops != [] {
      hide Step;
      SupersededAfter(q, ops[..|ops| - 1], maxRetries, lease);
      SupersededStays(After(q, ops[..|ops| - 1], maxRetries), ops[|ops| - 1], maxRetries, lease);
    }
  }

  /** Whether an operation at or after `until`, or one that settles `lease`, may end the lease. */
  predicate Leaves(op: Op, lease: nat, until: int) {
    match op
    case SendOp(_) => true
    case SettleOp(acks, retries, _) => lease !in acks && forall r :: r in retries ==> r.lease != lease
    case PullOp(_, _, now) => now < until
  }

  lemma LeaseStays(q: Queue, op: Op, maxRetries: nat, e: Entry)
    requires e in q.entries && e.lease.Some? && Leaves(op, e.lease.value, e.visibleAt)
    ensures e in Step(q, op, maxRetries).entries
  {
    hide Filter, GiveBackAll, LeaseAll, MessagesOf, Count, TakenBefore;
    match op
    case SendOp(_) =>
    case SettleOp(acks, retries, now) =>
      var kept := Filter(q.entries, NotAcked(acks));
      assert NotAcked(acks)(e);
      assert e in kept;
      GiveBackAllFacts(kept, retries, now);
      var i :| 0 <= i < |kept| && kept[i] == e;
      assert !Retried(retries, e.lease);
      assert GiveBackAll(kept, retries, now)[i] == e;
    case PullOp(batchSize, timeout, now) =>
      var kept := Filter(q.entries, Kept(now, maxRetries));
      assert !Exhausted(now, maxRetries)(e);
      assert Kept(now, maxRetries)(e);
      assert e in kept;
      LeaseAllAt(kept, now, batchSize, now + timeout, q.nextLease);
      var i :| 0 <= i < |kept| && kept[i] == e;
      assert LeaseAll(kept, now, batchSize, now + timeout, q.nextLease)[i] == e;
  }

  /** A leased message nobody settles stays under its lease, and no pull before its expiry hands it out again. */
  lemma {:induction false} UnexpiredLeaseIsNotReissued(
    q: Queue, ops: seq<Op>, maxRetries: nat, e: Entry, batchSize: nat, timeout: int, now: int)
    requires e in q.entries && e.lease.Some? && now < e.visibleAt
    requires forall op :: op in ops ==> Leaves(op, e.lease.value, e.visibleAt)
    requires Inv(q, maxRetries)
    ensures var t := After(q, ops, maxRetries);
            e in t.entries && forall m :: m in Pull(t, batchSize, timeout, now, maxRetries).1 ==> m.id != e.id
  {
    hide Pull, Places, Has;
    LeaseStaysAfter(q, ops, maxRetries, e);
    AfterKeeps(q, ops, maxRetries);
    InvisibleIsNotPulled(After(q, ops, maxRetries), e, batchSize, timeout, now, maxRetries);
  }

  lemma InvisibleIsNotPulled(q: Queue, e: Entry, batchSize: nat, timeout: int, now: int, maxRetries: nat)
    requires e in q.entries && now < e.visibleAt && DistinctIds(q.entries)
    ensures forall m :: m in Pull(q, batchSize, timeout, now, maxRetries).1 ==> m.id != e.id
  {
    hide Filter, LeaseAll, MessagesOf, Count, TakenBefore;
    var kept := Filter(q.entries, Kept(now, maxRetries));
    FilterKeepsIds(q.entries, Kept(now, maxRetries));
    MessagesCount(kept, |kept|, now, batchSize, now + timeout, q.nextLease);
    assert !Exhausted(now, maxRetries)(e);
    assert Kept(now, maxRetries)(e);
    var i :| 0 <= i < |kept| && kept[i] == e;
    assert !Takes(kept, i, now, batchSize);
  }

  lemma {:induction false} LeaseStaysAfter(q: Queue, ops: seq<Op>, maxRetries: nat, e: Entry)
    requires e in q.entries && e.lease.Some?
    requires forall op :: op in ops ==> Leaves(op, e.lease.value, e.visibleAt)
    ensures e in After(q, ops, maxRetries).entries
  {
    if ops != [] {
      hide Step, Leaves;
      assert ops[|ops| - 1] in ops;
      LeaseStaysAfter(q, ops[..|ops| - 1], maxRetries, e);
      LeaseStays(After(q, ops[..|ops| - 1], maxRetries), ops[|ops| - 1], maxRetries, e);
    }
  }
}

/** Delivery of one run's log to its projectors: cursor rows, the delivery loop, and guarded trimming. */
module Delivery {
  import opened Common

  /** A projector's identity: its name and version. */
  datatype Projector = Projector(name: string, version: string)

  datatype State = Idle | Retrying | DeadLetter

  datatype Row = Row(
    cursor: int, state: State, attempts: nat, failedSeq: Option<int>, nextRetryAt: Option<int>,
    lastError: Option<string>, updatedAt: int)

  /** The rows of one run, by primary key. */
  type Table = map<Projector, Row>

  const NO_ROW := Row(0, Idle, 0, None, None, None, 0)

  function RowOf(t: Table, p: Projector): Row {
    if p in t then t[p] else NO_ROW
  }

  // Each statement inserts a row of column defaults and its values, or updates the one in conflict.

  function Advance(t: Table, p: Projector, cursor: int, now: int): Table {
    if p !in t then t[p := Row(cursor, Idle, 0, None, None, None, now)]
    else t[p := Row(Max(t[p].cursor, cursor), Idle, 0, None, None, None, now)]
  }

  function Rewind(t: Table, p: Projector, cursor: int, now: int): Table {
    t[p := Row(cursor, Idle, 0, None, None, None, now)]
  }

  /** A failure below the cursor is stale and changes nothing. */
  function Fail(t: Table, p: Projector, attempts: nat, failedSeq: int, nextRetryAt: Option<int>, error: string, now: int): Table {
    var state := if nextRetryAt.None? then DeadLetter else Retrying;
    if p in t && t[p].cursor >= failedSeq then t
    else t[p := Row(RowOf(t, p).cursor, state, attempts, Some(failedSeq), nextRetryAt, Some(error), now)]
  }

  function Requeue(t: Table, p: Projector, now: int): Table {
    if p !in t then t[p := NO_ROW.(state := Retrying, nextRetryAt := Some(now), updatedAt := now)]
    else t[p := t[p].(state := Retrying, attempts := 0, nextRetryAt := Some(now), lastError := None, updatedAt := now)]
  }

  // ---------------------------------------------------------------- retry policy

  datatype Policy = Policy(batchSize: nat, initialRetryMs: nat, maxRetryMs: nat, maxAttempts: nat)

  function Power2(n: nat): (r: nat)
    ensures r >= 1
  {
    if n == 0 then 1 else 2 * Power2(n - 1)
  }

  function RetryDelay(o: Policy, attempts: nat): int {
    Min(o.maxRetryMs, o.initialRetryMs * Power2(if attempts == 0 then 0 else attempts - 1))
  }

  /** Doubles from the initial delay until it reaches the cap, and never passes it. */
  lemma RetryDelayDoublesToCap(o: Policy, attempts: nat)
    requires attempts > 0
    ensures 0 <= RetryDelay(o, attempts) <= RetryDelay(o, attempts + 1) <= o.maxRetryMs
    ensures RetryDelay(o, attempts + 1) == Min(o.maxRetryMs, 2 * RetryDelay(o, attempts))
  {
    var p := Power2(attempts - 1);
    assert Power2(attempts) == 2 * p;
    assert o.initialRetryMs * (2 * p) == 2 * (o.initialRetryMs * p);
    assert o.initialRetryMs * p >= 0;
  }

  /** The failure recorded after a delivery that began at `status`. */
  function RecordFailure(t: Table, p: Projector, status: Row, failedSeq: int, error: string, o: Policy, now: int): Table {
    var attempts := status.attempts + 1;
    var nextRetryAt := if attempts >= o.maxAttempts then None else Some(now + RetryDelay(o, attempts));
    Fail(t, p, attempts, failedSeq, nextRetryAt, error, now)
  }

  function IdleStatus(status: Row, cursor: int): Row {
    status.(cursor := cursor, state := Idle, attempts := 0, failedSeq := None, nextRetryAt := None, lastError := None)
  }

  predicate Due(status: Row, force: bool, now: int) {
    status.state != DeadLetter && (force || status.nextRetryAt.None? || status.nextRetryAt.value <= now)
  }

  // ---------------------------------------------------------------- the source log

  function Take<T>(xs: seq<T>, n: nat): seq<T> {
    if n <= |xs| then xs[..n] else xs
  }

  /** The retained events from `from` on, at most `limit` of them. Events are their sequence numbers. */
  function Read(log: seq<int>, from: int, limit: nat): seq<int> {
    Take(Filter(log, AtLeast(from)), limit)
  }

  predicate Increasing(log: seq<int>) {
    forall i, j :: 0 <= i < j < |log| ==> log[i] < log[j]
  }

  lemma ConsIncreasing(x: int, rest: seq<int>)
    requires Increasing(rest) && forall y :: y in rest ==> y > x
    ensures Increasing([x] + rest)
  {
    assert forall i :: 0 <= i < |rest| ==> rest[i] in rest;
  }

  lemma TailIncreasing(log: seq<int>)
    requires Increasing(log) && log != []
    ensures Increasing(log[1..]) && forall x :: x in log[1..] ==> x > log[0]
  {
  }

  lemma {:induction false} FilterIncreasing(log: seq<int>, keep: int -> bool)
    requires Increasing(log)
    ensures Increasing(Filter(log, keep))
  {
    hide Increasing;
    if log == [] {
      assert Filter(log, keep) == log;
    } else {
      TailIncreasing(log);
      FilterIncreasing(log[1..], keep);
      ConsIncreasing(log[0], Filter(log[1..], keep));
    }
  }

  function Within(low: int, high: int): int -> bool {
    x => low < x <= high
  }

  function AtLeast(low: int): int -> bool {
    x => x >= low
  }

  /** The events above `low`, up to `high`. */
  function Range(log: seq<int>, low: int, high: int): seq<int> {
    Filter(log, Within(low, high))
  }

  /** Adjacent ranges of a log in order join. */
  lemma {:induction false} RangesJoin(log: seq<int>, low: int, middle: int, high: int)
    requires Increasing(log) && low <= middle <= high
    ensures Range(log, low, middle) + Range(log, middle, high) == Range(log, low, high)
  {
    if log != [] {
      RangesJoin(log[1..], low, middle, high);
      if log[0] > middle {
        assert forall x :: x in log[1..] ==> x > log[0];
        FilterNone(log, Within(low, middle));
        FilterNone(log[1..], Within(low, middle));
      }
    }
  }

  /** The first elements of an ordered sequence are those up to the last of them. */
  lemma PrefixIsRange(rest: seq<int>, k: nat, low: int)
    requires Increasing(rest) && 0 < k <= |rest| && rest[0] > low
    ensures Range(rest, low, rest[k - 1]) == rest[..k]
    ensures Filter(rest, AtLeast(rest[k - 1] + 1)) == rest[k..]
  {
    var a, b := rest[..k], rest[k..];
    assert rest == a + b;
    forall x | x in a ensures low < x <= rest[k - 1] {
    }
    forall x | x in b ensures x > rest[k - 1] {
    }
    FilterFirst(a, b, Within(low, rest[k - 1]));
    FilterSecond(a, b, AtLeast(rest[k - 1] + 1));
  }

  /** A batch read past the cursor is the next range of the log, and leaves less above it. */
  lemma ReadIsNextRange(log: seq<int>, cursor: int, limit: nat)
    requires Increasing(log) && Read(log, cursor + 1, limit) != []
    ensures var events := Read(log, cursor + 1, limit);
            var last := events[|events| - 1];
            && last >= events[0] > cursor && events[0] in log && last in log && events == Range(log, cursor, last)
            && |Filter(log, AtLeast(last + 1))| < |Filter(log, AtLeast(cursor + 1))|
            && forall x :: x in log && x < events[0] ==> x <= cursor
  {
    hide Filter, Increasing;
    var rest := Filter(log, AtLeast(cursor + 1));
    FilterIncreasing(log, AtLeast(cursor + 1));
    var k := |Read(log, cursor + 1, limit)|;
    var last := rest[k - 1];
    assert rest[0] in rest && last in rest;
    PrefixIsRange(rest, k, cursor);
    FirstIsLeast(rest);
    FilterWithin(log, AtLeast(cursor + 1), Within(cursor, last));
    FilterWithin(log, AtLeast(cursor + 1), AtLeast(last + 1));
  }

  lemma FirstIsLeast(rest: seq<int>)
    requires Increasing(rest) && rest != []
    ensures forall x :: x in rest ==> x >= rest[0]
  {
  }

  // ---------------------------------------------------------------- one delivery

  class CursorStore {
    var rows: Table

    constructor ()
      ensures rows == map[]
    {
      rows := map[];
    }

    method AdvanceRow(p: Projector, cursor: int, now: int)
      modifies this
      ensures rows == Advance(old(rows), p, cursor, now)
    {
      if p !in rows {
        rows := rows[p := Row(cursor, Idle, 0, None, None, None, now)];
      } else {
        rows := rows[p := Row(Max(rows[p].cursor, cursor), Idle, 0, None, None, None, now)];
      }
    }

    method RewindRow(p: Projector, cursor: int, now: int)
      modifies this
      ensures rows == Rewind(old(rows), p, cursor, now)
    {
      rows := rows[p := Row(cursor, Idle, 0, None, None, None, now)];
    }

    method FailRow(p: Projector, status: Row, failedSeq: int, error: string, o: Policy, now: int)
      modifies this
      ensures rows == RecordFailure(old(rows), p, status, failedSeq, error, o, now)
    {
      var attempts := status.attempts + 1;
      var nextRetryAt := if attempts >= o.maxAttempts then None else Some(now + RetryDelay(o, attempts));
      rows := Fail(rows, p, attempts, failedSeq, nextRetryAt, error, now);
    }
  }

  function Concat(batches: seq<seq<int>>): seq<int> {
    if batches == [] then [] else Concat(batches[..|batches| - 1]) + batches[|batches| - 1]
  }

  lemma ConcatSnoc(batches: seq<seq<int>>, b: seq<int>)
    ensures Concat(batches + [b]) == Concat(batches) + b
  {
    assert (batches + [b])[..|batches|] == batches;
  }

  /** The accepted batches are, in order and without a gap, the retained events between two cursors. */
  ghost predicate Delivered(log: seq<int>, from: int, to: int, accepted: seq<seq<int>>, projects: seq<int> -> bool) {
    from <= to && Concat(accepted) == Range(log, from, to) && forall b :: b in accepted ==> projects(b)
  }

  /** A recorded failure: one more attempt, dead-lettered exactly at the limit, retried within the cap. */
  predicate FailedAt(row: Row, seqNo: int, attempts: nat, o: Policy, now: int) {
    && row.failedSeq == Some(seqNo) && row.attempts == attempts
    && (row.state == DeadLetter <==> attempts >= o.maxAttempts)
    && (row.nextRetryAt.None? <==> attempts >= o.maxAttempts)
    && (row.nextRetryAt.Some? ==> now <= row.nextRetryAt.value <= now + o.maxRetryMs)
  }

  lemma RecordedFailure(t: Table, p: Projector, status: Row, seqNo: int, error: string, o: Policy, now: int)
    requires RowOf(t, p).cursor < seqNo
    ensures var u := RecordFailure(t, p, status, seqNo, error, o, now);
            && RowOf(u, p).cursor == RowOf(t, p).cursor && FailedAt(RowOf(u, p), seqNo, status.attempts + 1, o, now)
            && forall q :: q != p ==> RowOf(u, q) == RowOf(t, q)
  {
    RetryDelayDoublesToCap(o, status.attempts + 1);
  }

  /** The loop's state: the row follows the batches accepted so far. */
  ghost predicate Following(log: seq<int>, t: Table, u: Table, p: Projector, status: Row, accepted: seq<seq<int>>, projects: seq<int> -> bool) {
    var was := RowOf(t, p);
    && status.cursor == RowOf(u, p).cursor
    && status.attempts == (if accepted == [] then was.attempts else 0)
    && Delivered(log, was.cursor, status.cursor, accepted, projects)
    && forall q :: q != p ==> RowOf(u, q) == RowOf(t, q)
  }

  lemma AdvanceFollows(
    log: seq<int>, t: Table, u: Table, p: Projector, status: Row, accepted: seq<seq<int>>, projects: seq<int> -> bool,
    limit: nat, now: int)
    requires Increasing(log) && Following(log, t, u, p, status, accepted, projects)
    requires var events := Read(log, status.cursor + 1, limit); events != [] && projects(events)
    ensures var events := Read(log, status.cursor + 1, limit);
            var last := events[|events| - 1];
            Following(log, t, Advance(u, p, last, now), p, IdleStatus(status, last), accepted + [events], projects)
  {
    hide Filter, Increasing, Range, Concat, Read;
    var events := Read(log, status.cursor + 1, limit);
    ReadIsNextRange(log, status.cursor, limit);
    RangesJoin(log, RowOf(t, p).cursor, status.cursor, events[|events| - 1]);
    ConcatSnoc(accepted, events);
  }

  /** The table a due delivery that could start reads from: rewound to a position behind the cursor. */
  function Aligned(t: Table, p: Projector, position: Option<int>, now: int): Table {
    if position.Some? && position.value < RowOf(t, p).cursor then Rewind(t, p, position.value, now) else t
  }

  /**
   * A delivery over a log that does not change meanwhile. `starts` says whether the projector could be
   * initialized and its position read, `position` what was read, `projects` whether it accepts a batch.
   * Without a failure nothing is left above the cursor; with one, the row names the first event not
   * projected. What is accepted begins where the projector says it stands, if that is behind the row.
   */
  method DeliverProjector(
    store: CursorStore, log: seq<int>, p: Projector, force: bool, starts: bool, position: Option<int>,
    projects: seq<int> -> bool, o: Policy, now: int)
    returns (accepted: seq<seq<int>>, failed: bool)
    requires Increasing(log) && o.batchSize > 0
    modifies store
    ensures !Due(RowOf(old(store.rows), p), force, now) ==> store.rows == old(store.rows) && accepted == [] && !failed
    ensures Due(RowOf(old(store.rows), p), force, now) && !starts ==>
              var was, row := RowOf(old(store.rows), p), RowOf(store.rows, p);
              failed && accepted == [] && row.cursor == was.cursor && FailedAt(row, was.cursor + 1, was.attempts + 1, o, now)
    ensures Due(RowOf(old(store.rows), p), force, now) && starts ==>
              var was, row := RowOf(Aligned(old(store.rows), p, position, now), p), RowOf(store.rows, p);
              && Delivered(log, was.cursor, row.cursor, accepted, projects)
              && (!failed ==> forall x :: x in log ==> x <= row.cursor)
              && (failed ==> row.failedSeq.Some? && row.failedSeq.value in log
                             && FailedAt(row, row.failedSeq.value, (if accepted == [] then was.attempts else 0) + 1, o, now)
                             && forall x :: x in log ==> x <= row.cursor || row.failedSeq.value <= x)
    ensures forall q :: q != p ==> RowOf(store.rows, q) == RowOf(old(store.rows), q)
  {
    hide Filter, Increasing, Advance, RecordFailure, FailedAt, Delivered, Read;
    accepted, failed := [], false;
    var status := RowOf(store.rows, p);
    if !Due(status, force, now) {
      return;
    }
    if !starts {
      RecordedFailure(store.rows, p, status, status.cursor + 1, "init", o, now);
      store.FailRow(p, status, status.cursor + 1, "init", o, now);
      failed := true;
      return;
    }
    if position.Some? && position.value < status.cursor {
      store.RewindRow(p, position.value, now);
      status := IdleStatus(status, position.value);
    }
    ghost var table := store.rows;
    NothingDelivered(log, status.cursor, projects);
    while true
      invariant Following(log, table, store.rows, p, status, accepted, projects)
      decreases |Filter(log, AtLeast(status.cursor + 1))|
    {
      var events := Read(log, status.cursor + 1, o.batchSize);
      if events == [] {
        NothingAbove(log, status.cursor, o.batchSize);
        return;
      }
      ReadIsNextRange(log, status.cursor, o.batchSize);
      if !projects(events) {
        RecordedFailure(store.rows, p, status, events[0], "project", o, now);
        store.FailRow(p, status, events[0], "project", o, now);
        failed := true;
        return;
      }
      AdvanceFollows(log, table, store.rows, p, status, accepted, projects, o.batchSize, now);
      var last := events[|events| - 1];
      store.AdvanceRow(p, last, now);
      accepted := accepted + [events];
      status := IdleStatus(status, last);
    }
  }

  lemma NothingDelivered(log: seq<int>, cursor: int, projects: seq<int> -> bool)
    ensures Delivered(log, cursor, cursor, [], projects)
  {
    FilterNone(log, Within(cursor, cursor));
  }

  lemma NothingAbove(log: seq<int>, cursor: int, limit: nat)
    requires limit > 0 && Read(log, cursor + 1, limit) == []
    ensures forall x :: x in log ==> x <= cursor
  {
    assert Filter(log, AtLeast(cursor + 1)) == [];
  }
}

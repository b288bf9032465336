/** The event log of each run, kept in memory and in SQL tables. */
module EventStore {
  import opened Common

  type RunId = string

  /** An event as stored: its content and the sequence number it was given. */
  datatype Stored = Stored(seqNo: int, body: Json)

  datatype Idempotency = Idempotency(key: string, fingerprint: Option<string>)

  datatype Options = Options(
    expectedTail: Option<int>, idempotency: Option<Idempotency>, fence: Option<string>, fencingToken: Option<string>)

  const PLAIN := Options(None, None, None, None)

  datatype Command = Command(fingerprint: Option<string>, committedTail: int)

  datatype Outcome =
    | Appended(sequences: seq<int>, tail: int)
    | Deduplicated(tail: int)
    | Conflict(expected: int, actual: int)
    | Fenced(token: string)
    | Reused(key: string)

  function Numbers(first: int, n: nat): seq<int> {
    seq(n, i requires 0 <= i < n => first + i)
  }

  /** Events numbered from `first`. */
  function Numbered(first: int, bodies: seq<Json>): seq<Stored> {
    seq(|bodies|, i requires 0 <= i < |bodies| => Stored(first + i, bodies[i]))
  }

  /** What the idempotency key says about an append, when it was used before. */
  function Replayed(command: Option<Command>, o: Options, tail: int): Option<Outcome>
    requires o.idempotency.Some?
  {
    if command.None? then None
    else if o.idempotency.value.fingerprint.Some? && command.value.fingerprint.Some?
            && command.value.fingerprint != o.idempotency.value.fingerprint then Some(Reused(o.idempotency.value.key))
    else Some(Deduplicated(tail))
  }

  /** Why an append that is not a replay is refused. */
  function Refused(tail: int, fence: Option<string>, o: Options): Option<Outcome> {
    if o.expectedTail.Some? && tail != o.expectedTail.value then Some(Conflict(o.expectedTail.value, tail))
    else if o.fencingToken.Some? && fence != o.fencingToken then Some(Fenced(o.fencingToken.value))
    else None
  }

  /** Setting a fence takes one sequence number. */
  function FirstFree(tail: int, o: Options): int {
    tail + 1 + if o.fence.Some? then 1 else 0
  }

  function FenceAfter(fence: Option<string>, o: Options): Option<string> {
    if o.fence.None? then fence else if o.fence.value == "" then None else o.fence
  }

  // ---------------------------------------------------------------- in memory

  datatype Log = Log(events: seq<Stored>, head: int, tail: int, fence: Option<string>, commands: map<string, Command>)

  type Logs = map<RunId, Log>

  const NEW_LOG := Log([], 1, 0, None, map[])

  function LogOf(logs: Logs, run: RunId): Log {
    if run in logs then logs[run] else NEW_LOG
  }

  function FindCommand(log: Log, key: string): Option<Command> {
    if key in log.commands then Some(log.commands[key]) else None
  }

  function Committed(log: Log, bodies: seq<Json>, o: Options): Log {
    var tail := FirstFree(log.tail, o) + |bodies| - 1;
    Log(log.events + Numbered(FirstFree(log.tail, o), bodies), log.head, tail, FenceAfter(log.fence, o),
        if o.idempotency.Some?
        then log.commands[o.idempotency.value.key := Command(o.idempotency.value.fingerprint, tail)] else log.commands)
  }

  /** Nothing when the append goes ahead; otherwise its outcome, with nothing written. */
  function MemoryVerdict(log: Log, o: Options): Option<Outcome> {
    var replayed := if o.idempotency.Some? then Replayed(FindCommand(log, o.idempotency.value.key), o, log.tail) else None;
    if replayed.Some? then replayed else Refused(log.tail, log.fence, o)
  }

  function MemoryAppend(logs: Logs, run: RunId, bodies: seq<Json>, o: Options): (Logs, Outcome) {
    var log := LogOf(logs, run);
    var verdict := MemoryVerdict(log, o);
    if verdict.Some? then (logs, verdict.value)
    else (logs[run := Committed(log, bodies, o)],
          Appended(Numbers(FirstFree(log.tail, o), |bodies|), FirstFree(log.tail, o) + |bodies| - 1))
  }

  function Limited<T>(xs: seq<T>, limit: Option<nat>): seq<T> {
    if limit.Some? && limit.value < |xs| then xs[..limit.value] else xs
  }

  function From(low: int): Stored -> bool {
    (e: Stored) => e.seqNo >= low
  }

  function MemoryRead(logs: Logs, run: RunId, fromSeq: int, limit: Option<nat>): seq<Stored> {
    if run !in logs then [] else Limited(Filter(logs[run].events, From(Max(fromSeq, logs[run].head))), limit)
  }

  function MemoryTrim(logs: Logs, run: RunId, beforeSeq: int): Logs {
    if run !in logs then logs
    else logs[run := logs[run].(events := Filter(logs[run].events, From(beforeSeq)), head := Max(logs[run].head, beforeSeq))]
  }

  /** A log trimmed, or left alone: tail, fence and commands stay, and the head only advances. */
  predicate SameButTrimmed(was: Log, now: Log, trimmed: bool, beforeSeq: int) {
    && now.tail == was.tail && now.fence == was.fence && now.commands == was.commands
    && now.head == if trimmed then Max(was.head, beforeSeq) else was.head
  }

  /** Reading after a trim is reading before it from the later of the two numbers; other runs read the same. */
  lemma MemoryTrimReads(logs: Logs, run: RunId, beforeSeq: int, r: RunId, fromSeq: int, limit: Option<nat>)
    ensures MemoryRead(MemoryTrim(logs, run, beforeSeq), r, fromSeq, limit)
         == MemoryRead(logs, r, if r == run then Max(fromSeq, beforeSeq) else fromSeq, limit)
  {
    hide Filter;
    if r == run && run in logs {
      FilterWithin(logs[run].events, From(beforeSeq), From(Max(fromSeq, Max(logs[run].head, beforeSeq))));
    }
  }

  class MemoryStore {
    var logs: Logs

    constructor ()
      ensures logs == map[]
    {
      logs := map[];
    }

    method Append(run: RunId, bodies: seq<Json>, o: Options) returns (r: Outcome)
      modifies this
      ensures (logs, r) == MemoryAppend(old(logs), run, bodies, o)
    {
      var log := LogOf(logs, run);
      if o.idempotency.Some? && o.idempotency.value.key in log.commands {
        var command := log.commands[o.idempotency.value.key];
        if o.idempotency.value.fingerprint.Some? && command.fingerprint.Some?
           && command.fingerprint != o.idempotency.value.fingerprint {
          return Reused(o.idempotency.value.key);
        }
        return Deduplicated(log.tail);
      }
      if o.expectedTail.Some? && log.tail != o.expectedTail.value {
        return Conflict(o.expectedTail.value, log.tail);
      }
      if o.fencingToken.Some? && log.fence != o.fencingToken {
        return Fenced(o.fencingToken.value);
      }
      var nextTail, fence := log.tail, log.fence;
      if o.fence.Some? {
        nextTail := nextTail + 1;
        fence := if o.fence.value == "" then None else o.fence;
      }
      var appended: seq<Stored>, sequences: seq<int> := [], [];
      for i := 0 to |bodies|
        invariant appended == Numbered(nextTail + 1, bodies[..i]) && sequences == Numbers(nextTail + 1, i)
      {
        var seqNo := nextTail + |appended| + 1;
        appended := appended + [Stored(seqNo, bodies[i])];
        sequences := sequences + [seqNo];
      }
      assert bodies[..|bodies|] == bodies;
      nextTail := nextTail + |appended|;
      var commands := log.commands;
      if o.idempotency.Some? {
        commands := commands[o.idempotency.value.key := Command(o.idempotency.value.fingerprint, nextTail)];
      }
      logs := logs[run := Log(log.events + appended, log.head, nextTail, fence, commands)];
      return Appended(sequences, nextTail);
    }

    /** Readers of the run see what they saw from `beforeSeq` on; nothing else about any run changes, and no head goes back. */
    method Trim(run: RunId, beforeSeq: int)
      modifies this
      ensures logs == MemoryTrim(old(logs), run, beforeSeq)
      ensures forall r, fromSeq, limit ::
        MemoryRead(logs, r, fromSeq, limit) == MemoryRead(old(logs), r, if r == run then Max(fromSeq, beforeSeq) else fromSeq, limit)
      ensures logs.Keys == old(logs).Keys && forall r :: r in logs ==> SameButTrimmed(old(logs)[r], logs[r], r == run, beforeSeq)
    {
      ghost var was := logs;
      if run in logs {
        var log := logs[run];
        logs := logs[run := log.(events := Filter(log.events, From(beforeSeq)), head := Max(log.head, beforeSeq))];
      }
      forall r, fromSeq, limit
        ensures MemoryRead(logs, r, fromSeq, limit) == MemoryRead(was, r, if r == run then Max(fromSeq, beforeSeq) else fromSeq, limit)
      {
        MemoryTrimReads(was, run, beforeSeq, r, fromSeq, limit);
      }
      hide Filter, MemoryRead;
    }
  }

  // ---------------------------------------------------------------- in SQL tables

  datatype StreamRow = StreamRow(head: int, tail: int, fence: Option<string>)

  /** Each table by its primary key. */
  datatype Db = Db(
    streams: map<RunId, StreamRow>, events: map<(RunId, int), Json>, commands: map<(RunId, string), Command>)

  function StreamOf(db: Db, run: RunId): StreamRow {
    if run in db.streams then db.streams[run] else StreamRow(1, 0, None)
  }

  function FindCommandRow(db: Db, run: RunId, key: string): Option<Command> {
    if (run, key) in db.commands then Some(db.commands[(run, key)]) else None
  }

  function InsertEvents(events: map<(RunId, int), Json>, run: RunId, first: int, bodies: seq<Json>): map<(RunId, int), Json> {
    if bodies == [] then events
    else InsertEvents(events, run, first, bodies[..|bodies| - 1])[(run, first + |bodies| - 1) := bodies[|bodies| - 1]]
  }

  function SqlVerdict(db: Db, run: RunId, o: Options): Option<Outcome> {
    var row := StreamOf(db, run);
    var replayed := if o.idempotency.Some? then Replayed(FindCommandRow(db, run, o.idempotency.value.key), o, row.tail) else None;
    if replayed.Some? then replayed else Refused(row.tail, row.fence, o)
  }

  function SqlCommitted(db: Db, run: RunId, bodies: seq<Json>, o: Options): Db {
    var row := StreamOf(db, run);
    var tail := FirstFree(row.tail, o) + |bodies| - 1;
    Db(db.streams[run := StreamRow(row.head, tail, FenceAfter(row.fence, o))],
       InsertEvents(db.events, run, FirstFree(row.tail, o), bodies),
       if o.idempotency.Some?
       then db.commands[(run, o.idempotency.value.key) := Command(o.idempotency.value.fingerprint, tail)] else db.commands)
  }

  predicate Empty(bodies: seq<Json>, o: Options) {
    bodies == [] && o.fence.None? && o.idempotency.None?
  }

  /** A thrown error rolls the transaction back; a replay leaves the stream row it may have inserted. */
  function SqlAppend(db: Db, run: RunId, bodies: seq<Json>, o: Options): (Db, Outcome) {
    var row := StreamOf(db, run);
    if Empty(bodies, o) then (db, Appended([], row.tail)) else
    var verdict := SqlVerdict(db, run, o);
    if verdict.Some? then (if verdict.value.Deduplicated? then db.(streams := db.streams[run := row]) else db, verdict.value)
    else (SqlCommitted(db, run, bodies, o),
          Appended(Numbers(FirstFree(row.tail, o), |bodies|), FirstFree(row.tail, o) + |bodies| - 1))
  }

  /** The run's rows with `low <= seq < high`, in order of seq. */
  function Select(events: map<(RunId, int), Json>, run: RunId, low: int, high: int): seq<Stored>
    decreases high - low
  {
    if low >= high then [] else
    var last := if (run, high - 1) in events then [Stored(high - 1, events[(run, high - 1)])] else [];
    Select(events, run, low, high - 1) + last
  }

  /** A number above every seq in the table. */
  ghost function Ceiling(keys: set<(RunId, int)>): (r: int)
    ensures forall k :: k in keys ==> k.1 < r
  {
    if keys == {} then 0 else
    var k :| k in keys;
    var rest := Ceiling(keys - {k});
    assert forall x :: x in keys ==> x == k || x in keys - {k};
    Max(k.1 + 1, rest)
  }

  ghost function SqlRead(db: Db, run: RunId, fromSeq: int, limit: Option<nat>): seq<Stored> {
    Limited(Select(db.events, run, fromSeq, Ceiling(db.events.Keys)), limit)
  }

  function SqlTrim(db: Db, run: RunId, beforeSeq: int): Db {
    db.(events := map k | k in db.events && !(k.0 == run && k.1 < beforeSeq) :: db.events[k],
        streams := if run in db.streams
                   then db.streams[run := db.streams[run].(head := Max(db.streams[run].head, beforeSeq))] else db.streams)
  }

  class SqliteStore {
    var db: Db

    constructor ()
      ensures db == Db(map[], map[], map[])
    {
      db := Db(map[], map[], map[]);
    }

    method Append(run: RunId, bodies: seq<Json>, o: Options) returns (r: Outcome)
      modifies this
      ensures (db, r) == SqlAppend(old(db), run, bodies, o)
    {
      if bodies == [] && o.fence.None? && o.idempotency.None? {
        return Appended([], StreamOf(db, run).tail);
      }
      var before := db;
      if run !in db.streams {
        db := db.(streams := db.streams[run := StreamRow(1, 0, None)]);
      }
      var log := db.streams[run];
      if o.idempotency.Some? && (run, o.idempotency.value.key) in db.commands {
        var command := db.commands[(run, o.idempotency.value.key)];
        if o.idempotency.value.fingerprint.Some? && command.fingerprint.Some?
           && command.fingerprint != o.idempotency.value.fingerprint {
          db := before;
          return Reused(o.idempotency.value.key);
        }
        assert before.streams[run := log] == db.streams;
        return Deduplicated(log.tail);
      }
      if o.expectedTail.Some? && log.tail != o.expectedTail.value {
        db := before;
        return Conflict(o.expectedTail.value, log.tail);
      }
      if o.fencingToken.Some? && log.fence != o.fencingToken {
        db := before;
        return Fenced(o.fencingToken.value);
      }
      var nextTail, fence := log.tail, log.fence;
      if o.fence.Some? {
        nextTail := nextTail + 1;
        fence := if o.fence.value == "" then None else o.fence;
      }
      var sequences: seq<int> := [];
      for i := 0 to |bodies|
        invariant db.streams == before.streams[run := log] && db.commands == before.commands
        invariant db.events == InsertEvents(before.events, run, nextTail + 1, bodies[..i])
        invariant sequences == Numbers(nextTail + 1, i)
      {
        var seqNo := nextTail + i + 1;
        assert bodies[..i + 1][..i] == bodies[..i];
        sequences := sequences + [seqNo];
        db := db.(events := db.events[(run, seqNo) := bodies[i]]);
      }
      assert bodies[..|bodies|] == bodies;
      nextTail := nextTail + |bodies|;
      var row := StreamRow(log.head, nextTail, fence);
      assert before.streams[run := log][run := row] == before.streams[run := row];
      db := db.(streams := db.streams[run := row]);
      if o.idempotency.Some? {
        db := db.(commands := db.commands[(run, o.idempotency.value.key) := Command(o.idempotency.value.fingerprint, nextTail)]);
      }
      return Appended(sequences, nextTail);
    }

    /** As for the memory store: readers of the run see what they saw from `beforeSeq` on. */
    method Trim(run: RunId, beforeSeq: int)
      modifies this
      ensures db == SqlTrim(old(db), run, beforeSeq)
      ensures forall r, fromSeq, limit ::
        SqlRead(db, r, fromSeq, limit) == SqlRead(old(db), r, if r == run then Max(fromSeq, beforeSeq) else fromSeq, limit)
      ensures db.commands == old(db).commands && db.streams.Keys == old(db).streams.Keys
      ensures forall r :: r in db.streams ==>
        db.streams[r].tail == old(db).streams[r].tail && db.streams[r].fence == old(db).streams[r].fence
        && db.streams[r].head == if r == run then Max(old(db).streams[r].head, beforeSeq) else old(db).streams[r].head
    {
      ghost var was := db;
      db := db.(events := map k | k in db.events && !(k.0 == run && k.1 < beforeSeq) :: db.events[k]);
      if run in db.streams {
        var row := db.streams[run];
        db := db.(streams := db.streams[run := row.(head := Max(row.head, beforeSeq))]);
      }
      forall r, fromSeq, limit
        ensures SqlRead(db, r, fromSeq, limit) == SqlRead(was, r, if r == run then Max(fromSeq, beforeSeq) else fromSeq, limit)
      {
        SqlTrimReads(was, run, beforeSeq, r, fromSeq, limit);
      }
      hide SqlRead;
    }
  }

  lemma SqlTrimReads(db: Db, run: RunId, beforeSeq: int, r: RunId, fromSeq: int, limit: Option<nat>)
    ensures SqlRead(SqlTrim(db, run, beforeSeq), r, fromSeq, limit)
         == SqlRead(db, r, if r == run then Max(fromSeq, beforeSeq) else fromSeq, limit)
  {
    var t := SqlTrim(db, run, beforeSeq).events;
    var low := if r == run then Max(fromSeq, beforeSeq) else fromSeq;
    var end := Max(Ceiling(db.events.Keys), Ceiling(t.Keys));
    SelectAbove(t, r, fromSeq, Ceiling(t.Keys), end);
    SelectAbove(db.events, r, low, Ceiling(db.events.Keys), end);
    SelectSame(db.events, t, r, low, end);
    if fromSeq <= low <= end {
      SelectJoin(t, r, fromSeq, low, end);
      SelectEmpty(t, r, fromSeq, low);
    } else {
      SelectEmpty(t, r, fromSeq, end);
    }
  }

  // ---------------------------------------------------------------- both stores agree

  /** The events of one run in the tables are those of the log. */
  ghost predicate SameRun(log: Log, db: Db, run: RunId) {
    && run in db.streams && StreamRow(log.head, log.tail, log.fence) == db.streams[run]
    && log.events == Select(db.events, run, 1, log.tail + 1)
    && SameCommands(log, db, run)
  }

  ghost predicate SameCommands(log: Log, db: Db, run: RunId) {
    forall key :: FindCommand(log, key) == FindCommandRow(db, run, key)
  }

  /** Numbers in the tables lie within their streams. */
  predicate Bounded(db: Db) {
    && (forall k :: k in db.events ==> k.0 in db.streams && 1 <= k.1 <= db.streams[k.0].tail)
    && (forall k :: k in db.events ==> k.1 >= db.streams[k.0].head)
    && (forall k :: k in db.commands ==> k.0 in db.streams)
    && (forall run :: run in db.streams ==> 1 <= db.streams[run].head <= db.streams[run].tail + 1)
  }

  ghost predicate Agree(logs: Logs, db: Db) {
    && logs.Keys == db.streams.Keys && Bounded(db)
    && forall run :: run in logs ==> SameRun(logs[run], db, run)
  }

  lemma {:induction false} SelectEmpty(events: map<(RunId, int), Json>, run: RunId, low: int, high: int)
    requires forall k :: low <= k < high ==> (run, k) !in events
    ensures Select(events, run, low, high) == []
    decreases high - low
  {
    if low < high {
      SelectEmpty(events, run, low, high - 1);
    }
  }

  lemma {:induction false} SelectSame(a: map<(RunId, int), Json>, b: map<(RunId, int), Json>, run: RunId, low: int, high: int)
    requires forall k :: low <= k < high ==> ((run, k) in a <==> (run, k) in b)
    requires forall k :: low <= k < high && (run, k) in a ==> a[(run, k)] == b[(run, k)]
    ensures Select(a, run, low, high) == Select(b, run, low, high)
    decreases high - low
  {
    if low < high {
      SelectSame(a, b, run, low, high - 1);
    }
  }

  lemma {:induction false} SelectJoin(events: map<(RunId, int), Json>, run: RunId, low: int, middle: int, high: int)
    requires low <= middle <= high
    ensures Select(events, run, low, high) == Select(events, run, low, middle) + Select(events, run, middle, high)
    decreases high - middle
  {
    if middle < high {
      SelectJoin(events, run, low, middle, high - 1);
    }
  }

  /** A selection is in order, within its bounds, and holds exactly the matching rows. */
  lemma {:induction false} SelectSelects(events: map<(RunId, int), Json>, run: RunId, low: int, high: int)
    ensures forall i :: 0 <= i < |Select(events, run, low, high)| ==> low <= Select(events, run, low, high)[i].seqNo < high
    ensures Ordered(Select(events, run, low, high))
    ensures forall e :: e in Select(events, run, low, high) <==>
                        low <= e.seqNo < high && (run, e.seqNo) in events && events[(run, e.seqNo)] == e.body
    decreases high - low
  {
    if low < high {
      SelectSelects(events, run, low, high - 1);
    }
  }

  predicate Ordered(events: seq<Stored>) {
    forall i, j :: 0 <= i < j < |events| ==> events[i].seqNo < events[j].seqNo
  }

  /** Selecting from a higher number is filtering the selection. */
  lemma {:induction false} SelectFrom(events: map<(RunId, int), Json>, run: RunId, low: int, middle: int, high: int)
    requires low <= middle
    ensures Select(events, run, middle, high) == Filter(Select(events, run, low, high), From(middle))
    decreases high - low
  {
    if low < high {
      SelectFrom(events, run, low, middle, high - 1);
      var before, last := Select(events, run, low, high - 1), Select(events, run, high - 1, high);
      SelectJoin(events, run, low, high - 1, high);
      FilterAppend(before, last, From(middle));
      if middle < high {
        SelectJoin(events, run, middle, high - 1, high);
        assert Filter(last, From(middle)) == last;
      } else {
        assert Filter(last, From(middle)) == [];
      }
    }
  }

  lemma {:induction false} InsertedEvents(events: map<(RunId, int), Json>, run: RunId, first: int, bodies: seq<Json>)
    ensures var t := InsertEvents(events, run, first, bodies);
            && (forall k :: k in t <==> k in events || (k.0 == run && first <= k.1 < first + |bodies|))
            && (forall k :: k in t ==> t[k] == if k.0 == run && first <= k.1 < first + |bodies| then bodies[k.1 - first] else events[k])
  {
    if bodies != [] {
      InsertedEvents(events, run, first, bodies[..|bodies| - 1]);
    }
  }

  /** What an append inserts is what a selection past the old rows returns. */
  lemma {:induction false} SelectInserted(events: map<(RunId, int), Json>, run: RunId, first: int, bodies: seq<Json>)
    ensures Select(InsertEvents(events, run, first, bodies), run, first, first + |bodies|) == Numbered(first, bodies)
  {
    if bodies != [] {
      var n := |bodies| - 1;
      SelectInserted(events, run, first, bodies[..n]);
      SelectSame(InsertEvents(events, run, first, bodies[..n]), InsertEvents(events, run, first, bodies), run, first, first + n);
    }
  }

  lemma CommitEvents(events: map<(RunId, int), Json>, run: RunId, tail: int, first: int, bodies: seq<Json>)
    requires 0 <= tail < first && forall k :: k > tail ==> (run, k) !in events
    ensures Select(InsertEvents(events, run, first, bodies), run, 1, first + |bodies|)
         == Select(events, run, 1, tail + 1) + Numbered(first, bodies)
  {
    var t, high := InsertEvents(events, run, first, bodies), first + |bodies|;
    InsertedEvents(events, run, first, bodies);
    SelectInserted(events, run, first, bodies);
    hide Select, InsertEvents;
    SelectJoin(t, run, 1, tail + 1, high);
    SelectJoin(t, run, tail + 1, first, high);
    SelectEmpty(t, run, tail + 1, first);
    SelectSame(events, t, run, 1, tail + 1);
  }

  lemma CommitCommands(logs: Logs, db: Db, run: RunId, bodies: seq<Json>, o: Options)
    requires SameCommands(LogOf(logs, run), db, run) && StreamOf(db, run).tail == LogOf(logs, run).tail
    ensures SameCommands(Committed(LogOf(logs, run), bodies, o), SqlCommitted(db, run, bodies, o), run)
  {
    hide InsertEvents;
    var log, t := LogOf(logs, run), SqlCommitted(db, run, bodies, o);
    forall key ensures FindCommand(Committed(log, bodies, o), key) == FindCommandRow(t, run, key) {
      assert FindCommand(log, key) == FindCommandRow(db, run, key);
    }
  }

  lemma RunAgrees(logs: Logs, db: Db, run: RunId)
    requires Agree(logs, db)
    ensures SameCommands(LogOf(logs, run), db, run)
    ensures StreamOf(db, run) == StreamRow(LogOf(logs, run).head, LogOf(logs, run).tail, LogOf(logs, run).fence)
    ensures LogOf(logs, run).events == Select(db.events, run, 1, LogOf(logs, run).tail + 1)
    ensures StreamOf(db, run).tail >= 0 && forall k :: k > StreamOf(db, run).tail ==> (run, k) !in db.events
  {
    if run in logs {
      assert SameRun(logs[run], db, run);
    } else {
      SelectEmpty(db.events, run, 1, 1);
    }
  }

  lemma CommitAgrees(logs: Logs, db: Db, run: RunId, bodies: seq<Json>, o: Options)
    requires Agree(logs, db)
    ensures SameRun(Committed(LogOf(logs, run), bodies, o), SqlCommitted(db, run, bodies, o), run)
  {
    RunAgrees(logs, db, run);
    hide Agree, SameCommands, Select, InsertEvents;
    CommitEvents(db.events, run, StreamOf(db, run).tail, FirstFree(StreamOf(db, run).tail, o), bodies);
    CommitCommands(logs, db, run, bodies, o);
  }

  lemma CommitBounded(db: Db, run: RunId, bodies: seq<Json>, o: Options)
    requires Bounded(db)
    ensures Bounded(SqlCommitted(db, run, bodies, o))
  {
    var row := StreamOf(db, run);
    InsertedEvents(db.events, run, FirstFree(row.tail, o), bodies);
  }

  /** Writing to one run leaves the others alone. */
  lemma OtherRunAgrees(log: Log, db: Db, t: Db, run: RunId, other: RunId)
    requires SameRun(log, db, other) && other in t.streams && t.streams[other] == db.streams[other]
    requires forall k :: (other, k) in t.events <==> (other, k) in db.events
    requires forall k :: (other, k) in t.events ==> t.events[(other, k)] == db.events[(other, k)]
    requires forall key :: FindCommandRow(t, other, key) == FindCommandRow(db, other, key)
    ensures SameRun(log, t, other)
  {
    SelectSame(db.events, t.events, other, 1, log.tail + 1);
  }

  lemma SameVerdict(logs: Logs, db: Db, run: RunId, o: Options)
    requires Agree(logs, db)
    ensures MemoryVerdict(LogOf(logs, run), o) == SqlVerdict(db, run, o)
    ensures SqlVerdict(db, run, o).Some? && SqlVerdict(db, run, o).value.Deduplicated? ==> run in db.streams
  {
    RunAgrees(logs, db, run);
    hide Agree, Bounded, Select;
    assert o.idempotency.Some? ==>
        FindCommand(LogOf(logs, run), o.idempotency.value.key) == FindCommandRow(db, run, o.idempotency.value.key);
  }

  /** Committing to one run leaves the others alone. */
  lemma CommitSparesOthers(log: Log, db: Db, run: RunId, other: RunId, bodies: seq<Json>, o: Options)
    requires SameRun(log, db, other) && other != run
    ensures SameRun(log, SqlCommitted(db, run, bodies, o), other)
  {
    InsertedEvents(db.events, run, FirstFree(StreamOf(db, run).tail, o), bodies);
    hide InsertEvents, Select;
    var t := SqlCommitted(db, run, bodies, o);
    forall key ensures FindCommandRow(t, other, key) == FindCommandRow(db, other, key) {
    }
    OtherRunAgrees(log, db, t, run, other);
  }

  lemma AppendAgrees(logs: Logs, db: Db, run: RunId, bodies: seq<Json>, o: Options)
    requires Agree(logs, db) && !Empty(bodies, o)
    ensures MemoryAppend(logs, run, bodies, o).1 == SqlAppend(db, run, bodies, o).1
    ensures Agree(MemoryAppend(logs, run, bodies, o).0, SqlAppend(db, run, bodies, o).0)
  {
    hide SameRun, Bounded, Committed, MemoryVerdict, SqlVerdict, InsertEvents;
    SameVerdict(logs, db, run, o);
    RunAgrees(logs, db, run);
    if MemoryVerdict(LogOf(logs, run), o).Some? {
      if run in db.streams {
        assert db.streams[run := StreamOf(db, run)] == db.streams;
      }
    } else {
      CommitAgrees(logs, db, run, bodies, o);
      CommitBounded(db, run, bodies, o);
      forall other | other in logs && other != run ensures SameRun(logs[other], SqlCommitted(db, run, bodies, o), other) {
        CommitSparesOthers(logs[other], db, run, other, bodies, o);
      }
    }
  }

  lemma TrimmedEvents(events: map<(RunId, int), Json>, t: map<(RunId, int), Json>, run: RunId, beforeSeq: int, high: int)
    requires t == map k | k in events && !(k.0 == run && k.1 < beforeSeq) :: events[k]
    requires beforeSeq <= high && 1 <= high
    ensures Select(t, run, 1, high) == Filter(Select(events, run, 1, high), From(beforeSeq))
  {
    var low := Max(1, beforeSeq);
    SelectFrom(events, run, 1, low, high);
    SelectSame(events, t, run, low, high);
    SelectJoin(t, run, 1, low, high);
    SelectEmpty(t, run, 1, low);
    SelectSelects(events, run, 1, high);
    SameFilter(Select(events, run, 1, high), From(low), From(beforeSeq));
  }

  lemma TrimmedRun(log: Log, db: Db, run: RunId, beforeSeq: int)
    requires SameRun(log, db, run) && beforeSeq <= log.tail + 1 && log.tail >= 0
    ensures SameRun(log.(events := Filter(log.events, From(beforeSeq)), head := Max(log.head, beforeSeq)), SqlTrim(db, run, beforeSeq), run)
  {
    var t := SqlTrim(db, run, beforeSeq);
    hide Select, Filter;
    TrimmedEvents(db.events, t.events, run, beforeSeq, log.tail + 1);
    forall key ensures FindCommandRow(t, run, key) == FindCommandRow(db, run, key) {
    }
  }

  lemma TrimSparesOthers(log: Log, db: Db, run: RunId, other: RunId, beforeSeq: int)
    requires SameRun(log, db, other) && other != run
    ensures SameRun(log, SqlTrim(db, run, beforeSeq), other)
  {
    hide Select;
    OtherRunAgrees(log, db, SqlTrim(db, run, beforeSeq), run, other);
  }

  lemma TrimBounded(db: Db, run: RunId, beforeSeq: int)
    requires Bounded(db) && beforeSeq <= StreamOf(db, run).tail + 1
    ensures Bounded(SqlTrim(db, run, beforeSeq))
  {
  }

  lemma TrimAgrees(logs: Logs, db: Db, run: RunId, beforeSeq: int)
    requires Agree(logs, db) && beforeSeq <= StreamOf(db, run).tail + 1
    ensures Agree(MemoryTrim(logs, run, beforeSeq), SqlTrim(db, run, beforeSeq))
  {
    hide SameRun, Bounded, Select, Filter, SqlTrim, SameCommands;
    var t := SqlTrim(db, run, beforeSeq);
    RunAgrees(logs, db, run);
    TrimBounded(db, run, beforeSeq);
    if run in logs {
      TrimmedRun(logs[run], db, run, beforeSeq);
    }
    forall other | other in logs && other != run ensures SameRun(logs[other], t, other) {
      TrimSparesOthers(logs[other], db, run, other, beforeSeq);
    }
    TrimStreams(db, run, beforeSeq);
  }

  lemma TrimStreams(db: Db, run: RunId, beforeSeq: int)
    ensures SqlTrim(db, run, beforeSeq).streams.Keys == db.streams.Keys
  {
  }

  lemma {:induction false} SameFilter(xs: seq<Stored>, a: Stored -> bool, b: Stored -> bool)
    requires forall x :: x in xs ==> a(x) == b(x)
    ensures Filter(xs, a) == Filter(xs, b)
  {
    if xs != [] {
      assert xs[0] in xs && forall x :: x in xs[1..] ==> x in xs;
      SameFilter(xs[1..], a, b);
    }
  }

  /** Reading retained rows: the memory store's floor at the head is where the rows begin anyway. */
  lemma ReadAgrees(logs: Logs, db: Db, run: RunId, fromSeq: int, limit: Option<nat>)
    requires Agree(logs, db)
    ensures MemoryRead(logs, run, fromSeq, limit) == SqlRead(db, run, fromSeq, limit)
  {
    var top := Ceiling(db.events.Keys);
    if run !in logs {
      SelectEmpty(db.events, run, fromSeq, top);
    } else {
      assert SameRun(logs[run], db, run);
      ReadRun(logs[run], db, run, fromSeq, top);
    }
  }

  lemma ReadRun(log: Log, db: Db, run: RunId, fromSeq: int, top: int)
    requires SameRun(log, db, run) && Bounded(db) && forall k :: k in db.events ==> k.1 < top
    ensures Filter(log.events, From(Max(fromSeq, log.head))) == Select(db.events, run, fromSeq, top)
  {
    var high := log.tail + 1;
    SelectSelects(db.events, run, 1, high);
    SelectFrom(db.events, run, 1, Max(1, fromSeq), high);
    SelectToEnd(db.events, run, fromSeq, high, top);
    hide Select, Filter;
    SameFilter(log.events, From(Max(fromSeq, log.head)), From(Max(1, fromSeq)));
  }

  /** The bounds of a selection do not matter beyond the rows there are. */
  lemma SelectToEnd(events: map<(RunId, int), Json>, run: RunId, fromSeq: int, high: int, top: int)
    requires forall k :: (run, k) in events ==> 1 <= k < high && k < top
    ensures Select(events, run, fromSeq, top) == Select(events, run, Max(1, fromSeq), high)
  {
    var end := Max(high, top);
    SelectAbove(events, run, fromSeq, top, end);
    SelectAbove(events, run, Max(1, fromSeq), high, end);
    if fromSeq < 1 <= end {
      SelectJoin(events, run, fromSeq, 1, end);
      SelectEmpty(events, run, fromSeq, 1);
    } else if end < 1 {
      SelectEmpty(events, run, fromSeq, end);
      SelectEmpty(events, run, Max(1, fromSeq), end);
    }
  }

  lemma SelectAbove(events: map<(RunId, int), Json>, run: RunId, low: int, high: int, end: int)
    requires high <= end && forall k :: (run, k) in events ==> k < high
    ensures Select(events, run, low, high) == Select(events, run, low, end)
  {
    if low <= high {
      SelectJoin(events, run, low, high, end);
      SelectEmpty(events, run, high, end);
    } else {
      SelectEmpty(events, run, low, end);
    }
  }

  // ---------------------------------------------------------------- any sequence of operations

  datatype Op =
    | Append(run: RunId, bodies: seq<Json>, options: Options)
    | Read(run: RunId, fromSeq: Option<int>, limit: Option<nat>)
    | Bounds(run: RunId)
    | Trim(run: RunId, beforeSeq: int)

  datatype Answer = Result(outcome: Outcome) | Events(events: seq<Stored>) | Range(head: int, tail: int) | Done

  function MemoryStep(logs: Logs, op: Op): (Logs, Answer) {
    match op
    case Append(run, bodies, o) => var (next, r) := MemoryAppend(logs, run, bodies, o); (next, Result(r))
    case Read(run, fromSeq, limit) => (logs, Events(MemoryRead(logs, run, fromSeq.GetOr(1), limit)))
    case Bounds(run) => (logs, Range(LogOf(logs, run).head, LogOf(logs, run).tail))
    case Trim(run, beforeSeq) => (MemoryTrim(logs, run, beforeSeq), Done)
  }

  ghost function SqlStep(db: Db, op: Op): (Db, Answer) {
    match op
    case Append(run, bodies, o) => var (next, r) := SqlAppend(db, run, bodies, o); (next, Result(r))
    case Read(run, fromSeq, limit) => (db, Events(SqlRead(db, run, fromSeq.GetOr(1), limit)))
    case Bounds(run) => (db, Range(StreamOf(db, run).head, StreamOf(db, run).tail))
    case Trim(run, beforeSeq) => (SqlTrim(db, run, beforeSeq), Done)
  }

  /** Appends that carry something, and trims that do not reach past the end of the log. */
  predicate Proper(logs: Logs, op: Op) {
    match op
    case Append(_, bodies, o) => !Empty(bodies, o)
    case Trim(run, beforeSeq) => beforeSeq <= LogOf(logs, run).tail + 1
    case _ => true
  }

  function MemoryAfter(logs: Logs, ops: seq<Op>): Logs {
    if ops == [] then logs else MemoryStep(MemoryAfter(logs, ops[..|ops| - 1]), ops[|ops| - 1]).0
  }

  ghost function SqlAfter(db: Db, ops: seq<Op>): Db {
    if ops == [] then db else SqlStep(SqlAfter(db, ops[..|ops| - 1]), ops[|ops| - 1]).0
  }

  function MemoryAnswer(ops: seq<Op>, i: nat): Answer
    requires i < |ops|
  {
    MemoryStep(MemoryAfter(map[], ops[..i]), ops[i]).1
  }

  ghost function SqlAnswer(ops: seq<Op>, i: nat): Answer
    requires i < |ops|
  {
    SqlStep(SqlAfter(Db(map[], map[], map[]), ops[..i]), ops[i]).1
  }

  predicate AllProper(ops: seq<Op>) {
    forall i :: 0 <= i < |ops| ==> Proper(MemoryAfter(map[], ops[..i]), ops[i])
  }

  lemma StepAgrees(logs: Logs, db: Db, op: Op)
    requires Agree(logs, db) && Proper(logs, op)
    ensures Agree(MemoryStep(logs, op).0, SqlStep(db, op).0) && MemoryStep(logs, op).1 == SqlStep(db, op).1
  {
    RunAgrees(logs, db, op.run);
    hide Agree, MemoryAppend, SqlAppend, MemoryRead, SqlRead, MemoryTrim, SqlTrim;
    match op
    case Append(run, bodies, o) => AppendAgrees(logs, db, run, bodies, o);
    case Read(run, fromSeq, limit) => ReadAgrees(logs, db, run, fromSeq.GetOr(1), limit);
    case Bounds(run) =>
    case Trim(run, beforeSeq) => TrimAgrees(logs, db, run, beforeSeq);
  }

  lemma {:induction false} StatesAgree(ops: seq<Op>, n: nat)
    requires AllProper(ops) && n <= |ops|
    ensures Agree(MemoryAfter(map[], ops[..n]), SqlAfter(Db(map[], map[], map[]), ops[..n]))
  {
    if n > 0 {
      StatesAgree(ops, n - 1);
      assert ops[..n][..n - 1] == ops[..n - 1];
      StepAgrees(MemoryAfter(map[], ops[..n - 1]), SqlAfter(Db(map[], map[], map[]), ops[..n - 1]), ops[n - 1]);
    }
  }

  /** Both stores answer every operation of every proper sequence alike. */
  lemma StoresAgree(ops: seq<Op>, i: nat)
    requires AllProper(ops) && i < |ops|
    ensures MemoryAnswer(ops, i) == SqlAnswer(ops, i)
  {
    hide Agree, MemoryStep, SqlStep;
    StatesAgree(ops, i);
    StepAgrees(MemoryAfter(map[], ops[..i]), SqlAfter(Db(map[], map[], map[]), ops[..i]), ops[i]);
  }

  /** In both, the retained events are in strictly increasing order between head and tail. */
  lemma RetainedInOrder(ops: seq<Op>, run: RunId)
    requires AllProper(ops)
    ensures var log := LogOf(MemoryAfter(map[], ops), run);
            && Ordered(log.events) && 1 <= log.head <= log.tail + 1
            && forall e :: e in log.events ==> log.head <= e.seqNo <= log.tail
  {
    assert ops[..|ops|] == ops;
    StatesAgree(ops, |ops|);
    var logs, db := MemoryAfter(map[], ops), SqlAfter(Db(map[], map[], map[]), ops);
    RunAgrees(logs, db, run);
    SelectSelects(db.events, run, 1, LogOf(logs, run).tail + 1);
  }

  /** A trim past the end of a log is what the stores answer differently: the next append shows it. */
  lemma TrimAgreesIffWithinLog(logs: Logs, db: Db, run: RunId, beforeSeq: int, body: Json)
    requires Agree(logs, db) && run in logs
    ensures (MemoryRead(MemoryAppend(MemoryTrim(logs, run, beforeSeq), run, [body], PLAIN).0, run, 1, None)
             == SqlRead(SqlAppend(SqlTrim(db, run, beforeSeq), run, [body], PLAIN).0, run, 1, None))
       <==> beforeSeq <= logs[run].tail + 1
  {
    var o := PLAIN;
    RunAgrees(logs, db, run);
    if beforeSeq <= logs[run].tail + 1 {
      hide Agree, MemoryRead, SqlRead, MemoryAppend, SqlAppend, MemoryTrim, SqlTrim;
      TrimAgrees(logs, db, run, beforeSeq);
      AppendAgrees(MemoryTrim(logs, run, beforeSeq), SqlTrim(db, run, beforeSeq), run, [body], o);
      ReadAgrees(MemoryAppend(MemoryTrim(logs, run, beforeSeq), run, [body], o).0,
                 SqlAppend(SqlTrim(db, run, beforeSeq), run, [body], o).0, run, 1, None);
    } else {
      HiddenInMemory(logs, db, run, beforeSeq, body);
      VisibleInSql(db, run, beforeSeq, body);
    }
  }

  lemma HiddenInMemory(logs: Logs, db: Db, run: RunId, beforeSeq: int, body: Json)
    requires Agree(logs, db) && run in logs && beforeSeq > logs[run].tail + 1
    ensures MemoryRead(MemoryAppend(MemoryTrim(logs, run, beforeSeq), run, [body], PLAIN).0, run, 1, None) == []
  {
    var log := logs[run];
    RunAgrees(logs, db, run);
    SelectSelects(db.events, run, 1, log.tail + 1);
    FilterNone(log.events, From(beforeSeq));
    var after := MemoryAppend(MemoryTrim(logs, run, beforeSeq), run, [body], PLAIN).0[run];
    assert after.events == [Stored(log.tail + 1, body)];
    FilterNone(after.events, From(Max(1, after.head)));
  }

  lemma VisibleInSql(db: Db, run: RunId, beforeSeq: int, body: Json)
    requires StreamOf(db, run).tail >= 0
    ensures SqlRead(SqlAppend(SqlTrim(db, run, beforeSeq), run, [body], PLAIN).0, run, 1, None) != []
  {
    var t := SqlAppend(SqlTrim(db, run, beforeSeq), run, [body], PLAIN).0;
    var seqNo := StreamOf(db, run).tail + 1;
    assert [body][..0] == [];
    assert (run, seqNo) in t.events;
    SelectSelects(t.events, run, 1, Ceiling(t.events.Keys));
    assert Stored(seqNo, t.events[(run, seqNo)]) in Select(t.events, run, 1, Ceiling(t.events.Keys));
  }

  // ---------------------------------------------------------------- keys and expected tails

  predicate Commits(answer: Answer) {
    answer.Result? && answer.outcome.Appended?
  }

  lemma StepOnlyGrows(logs: Logs, op: Op, run: RunId)
    ensures var log, next := LogOf(logs, run), LogOf(MemoryStep(logs, op).0, run);
            next.tail >= log.tail && log.commands.Keys <= next.commands.Keys
  {
    hide Filter;
  }

  lemma {:induction false} OnlyGrows(ops: seq<Op>, i: nat, j: nat, run: RunId)
    requires i <= j <= |ops|
    ensures var log, next := LogOf(MemoryAfter(map[], ops[..i]), run), LogOf(MemoryAfter(map[], ops[..j]), run);
            next.tail >= log.tail && log.commands.Keys <= next.commands.Keys
  {
    if i < j {
      OnlyGrows(ops, i, j - 1, run);
      assert ops[..j][..j - 1] == ops[..j - 1];
      StepOnlyGrows(MemoryAfter(map[], ops[..j - 1]), ops[j - 1], run);
    }
  }

  /** An idempotency key commits at most one batch, whatever happens between two appends that carry it. */
  lemma KeyCommitsOnce(ops: seq<Op>, i: nat, j: nat)
    requires i < j < |ops| && ops[i].Append? && ops[j].Append? && ops[i].run == ops[j].run
    requires ops[i].options.idempotency.Some? && ops[j].options.idempotency.Some?
    requires ops[i].options.idempotency.value.key == ops[j].options.idempotency.value.key
    requires Commits(MemoryAnswer(ops, i))
    ensures !Commits(MemoryAnswer(ops, j))
    ensures LogOf(MemoryAfter(map[], ops[..j + 1]), ops[j].run) == LogOf(MemoryAfter(map[], ops[..j]), ops[j].run)
  {
    assert ops[..i + 1][..i] == ops[..i] && ops[..j + 1][..j] == ops[..j];
    OnlyGrows(ops, i + 1, j, ops[i].run);
  }

  /** Two appends that expect the same tail cannot both succeed, once the first has moved it. */
  lemma SameExpectedTailCommitsOnce(ops: seq<Op>, i: nat, j: nat)
    requires i < j < |ops| && ops[i].Append? && ops[j].Append? && ops[i].run == ops[j].run
    requires ops[i].options.expectedTail.Some? && ops[j].options.expectedTail == ops[i].options.expectedTail
    requires ops[i].bodies != [] || ops[i].options.fence.Some?
    requires Commits(MemoryAnswer(ops, i))
    ensures !Commits(MemoryAnswer(ops, j))
  {
    assert ops[..i + 1][..i] == ops[..i];
    OnlyGrows(ops, i + 1, j, ops[i].run);
  }
}

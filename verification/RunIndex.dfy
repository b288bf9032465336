/** The run index: summary operations folded one by one in memory, and as one SQL write for a batch. */
module RunIndex {
  import opened Common

  type RunId = string

  datatype Status = Running | Completed | Failed | Cancelled

  /** The columns that keep their first non-null value. */
  datatype Columns = Columns(
    kind: Option<string>, definitionName: Option<string>, definitionVersion: Option<string>,
    rootThreadId: Option<string>, parentRunId: Option<string>, launchedByEffectId: Option<string>,
    correlationId: Option<string>, tenant: Option<string>, project: Option<string>, org: Option<string>)

  const NO_COLUMNS := Columns(None, None, None, None, None, None, None, None, None, None)

  type Attributes = map<string, string>

  datatype Row = Row(
    status: Status, columns: Columns, attributes: Attributes,
    startedAt: Option<nat>, updatedAt: nat, completedAt: Option<nat>)

  type Table = map<RunId, Row>

  datatype Op =
    | Insert
    | Start(run: RunId, columns: Columns, attributes: Attributes, at: nat)
    | Finish(run: RunId, status: FinalStatus, at: nat)
    | Touch(run: RunId, at: nat)

  predicate Terminal(s: Status) {
    s == Completed || s == Failed || s == Cancelled
  }

  type FinalStatus = s: Status | Terminal(s) witness Completed

  /** Column by column, `??` or COALESCE. */
  function Fill(a: Columns, b: Columns): Columns {
    Columns(OrElse(a.kind, b.kind), OrElse(a.definitionName, b.definitionName), OrElse(a.definitionVersion, b.definitionVersion),
            OrElse(a.rootThreadId, b.rootThreadId), OrElse(a.parentRunId, b.parentRunId),
            OrElse(a.launchedByEffectId, b.launchedByEffectId), OrElse(a.correlationId, b.correlationId),
            OrElse(a.tenant, b.tenant), OrElse(a.project, b.project), OrElse(a.org, b.org))
  }

  function FillAttributes(a: Attributes, b: Attributes): Attributes {
    if a != map[] then a else b
  }

  // ---------------------------------------------------------------- one operation at a time

  function MergeStart(existing: Option<Row>, op: Op): Row
    requires op.Start?
  {
    match existing
    case None => Row(Running, op.columns, op.attributes, Some(op.at), op.at, None)
    case Some(r) =>
      Row(if Terminal(r.status) then r.status else Running, Fill(r.columns, op.columns), FillAttributes(r.attributes, op.attributes),
          OrElse(r.startedAt, Some(op.at)), Max(r.updatedAt, op.at), r.completedAt)
  }

  function MergeFinish(existing: Option<Row>, op: Op): Row
    requires op.Finish?
  {
    match existing
    case None => Row(op.status, NO_COLUMNS, map[], None, op.at, Some(op.at))
    case Some(r) => r.(status := op.status, updatedAt := Max(r.updatedAt, op.at), completedAt := OrElse(r.completedAt, Some(op.at)))
  }

  /** An operation on the row of its own run. */
  function ApplyOp(existing: Option<Row>, op: Op): Option<Row> {
    match op
    case Insert => existing
    case Start(_, _, _, _) => Some(MergeStart(existing, op))
    case Finish(_, _, _) => Some(MergeFinish(existing, op))
    case Touch(_, at) =>
      if existing.None? || existing.value.updatedAt >= at then existing else Some(existing.value.(updatedAt := at))
  }

  function Find(t: Table, r: RunId): Option<Row> {
    if r in t then Some(t[r]) else None
  }

  function ApplyMemoryOp(t: Table, op: Op): Table {
    if op.Insert? then t else
    var row := ApplyOp(Find(t, op.run), op);
    if row.Some? then t[op.run := row.value] else t
  }

  function ApplyMemory(t: Table, ops: seq<Op>): Table {
    if ops == [] then t else ApplyMemoryOp(ApplyMemory(t, ops[..|ops| - 1]), ops[|ops| - 1])
  }

  // ---------------------------------------------------------------- a batch at once

  datatype Patch = Patch(start: Option<Op>, finish: Option<Op>, completedAt: Option<nat>, updatedAt: nat)

  function Patched(p: Option<Patch>, op: Op): Patch
    requires !op.Insert?
  {
    var patch := if p.Some? then p.value else Patch(None, None, None, op.at);
    var later := patch.(updatedAt := Max(patch.updatedAt, op.at));
    match op
    case Start(_, _, _, _) => later.(start := OrElse(patch.start, Some(op)))
    case Finish(_, _, at) => later.(finish := Some(op), completedAt := OrElse(patch.completedAt, Some(at)))
    case Touch(_, _) => later
  }

  /** Patches hold the operations they name. */
  predicate PatchOk(p: Patch) {
    (p.start.Some? ==> p.start.value.Start?) && (p.finish.Some? ==> p.finish.value.Finish?)
    && (p.finish.Some? <==> p.completedAt.Some?)
  }

  function PatchOf(ops: seq<Op>, r: RunId): (p: Option<Patch>)
    ensures p.Some? ==> PatchOk(p.value)
  {
    if ops == [] then None else
    var op, before := ops[|ops| - 1], PatchOf(ops[..|ops| - 1], r);
    if op.Insert? || op.run != r then before else Some(Patched(before, op))
  }

  /** The patches, built by one pass over the batch. */
  method RunIndexPatches(ops: seq<Op>) returns (patches: map<RunId, Patch>)
    ensures forall r :: (if r in patches then Some(patches[r]) else None) == PatchOf(ops, r)
  {
    patches := map[];
    for i := 0 to |ops|
      invariant forall r :: (if r in patches then Some(patches[r]) else None) == PatchOf(ops[..i], r)
    {
      var op := ops[i];
      assert ops[..i + 1][..i] == ops[..i];
      if op.Insert? {
        continue;
      }
      var patch := if op.run in patches then patches[op.run] else Patch(None, None, None, op.at);
      patch := patch.(updatedAt := Max(patch.updatedAt, op.at));
      if op.Start? {
        patch := patch.(start := OrElse(patch.start, Some(op)));
      }
      if op.Finish? {
        patch := patch.(finish := Some(op), completedAt := OrElse(patch.completedAt, Some(op.at)));
      }
      patches := patches[op.run := patch];
    }
    assert ops[..|ops|] == ops;
  }

  predicate Upserts(p: Patch) {
    p.start.Some? || p.finish.Some?
  }

  /** The values the upsert proposes. */
  function Excluded(p: Patch): Row
    requires PatchOk(p)
  {
    Row(if p.finish.Some? then p.finish.value.status else Running,
        if p.start.Some? then p.start.value.columns else NO_COLUMNS,
        if p.start.Some? then p.start.value.attributes else map[],
        if p.start.Some? then Some(p.start.value.at) else None, p.updatedAt, p.completedAt)
  }

  /** `INSERT ... ON CONFLICT DO UPDATE`, clause by clause. */
  function Upsert(existing: Option<Row>, excluded: Row): Row {
    match existing
    case None => excluded
    case Some(r) =>
      Row(if excluded.completedAt.Some? then excluded.status else if Terminal(r.status) then r.status else excluded.status,
          Fill(r.columns, excluded.columns),
          if r.attributes == map[] then excluded.attributes else r.attributes,
          OrElse(r.startedAt, excluded.startedAt), Max(r.updatedAt, excluded.updatedAt), OrElse(r.completedAt, excluded.completedAt))
  }

  /** A patch with a start or a finish upserts the row; one with touches only updates a row that is there. */
  function ApplyPatch(existing: Option<Row>, p: Option<Patch>): Option<Row>
    requires p.Some? ==> PatchOk(p.value)
  {
    if p.None? then existing
    else if Upserts(p.value) then Some(Upsert(existing, Excluded(p.value)))
    else if existing.Some? then Some(existing.value.(updatedAt := Max(existing.value.updatedAt, p.value.updatedAt)))
    else None
  }

  function RunsOf(ops: seq<Op>): set<RunId> {
    set op | op in ops && !op.Insert? :: op.run
  }

  /** The table after the batch's two statements, which write disjoint runs. */
  function ApplySql(t: Table, ops: seq<Op>): Table {
    map r | r in t.Keys + RunsOf(ops) && SqlRow(t, ops, r).Some? :: SqlRow(t, ops, r).value
  }

  function SqlRow(t: Table, ops: seq<Op>, r: RunId): Option<Row> {
    ApplyPatch(Find(t, r), PatchOf(ops, r))
  }

  // ---------------------------------------------------------------- the batch equals the fold

  function FoldOps(existing: Option<Row>, ops: seq<Op>, r: RunId): Option<Row> {
    if ops == [] then existing else
    var op, before := ops[|ops| - 1], FoldOps(existing, ops[..|ops| - 1], r);
    if op.Insert? || op.run != r then before else ApplyOp(before, op)
  }

  /** Each run's row depends on its own operations alone. */
  lemma {:induction false} MemoryRow(t: Table, ops: seq<Op>, r: RunId)
    ensures Find(ApplyMemory(t, ops), r) == FoldOps(Find(t, r), ops, r)
  {
    if ops != [] {
      MemoryRow(t, ops[..|ops| - 1], r);
    }
  }

  lemma {:induction false} PatchIffMentioned(ops: seq<Op>, r: RunId)
    ensures PatchOf(ops, r).Some? <==> r in RunsOf(ops)
  {
    if ops != [] {
      var op := ops[|ops| - 1];
      PatchIffMentioned(ops[..|ops| - 1], r);
      assert ops == ops[..|ops| - 1] + [op];
      assert r in RunsOf(ops) <==> r in RunsOf(ops[..|ops| - 1]) || (!op.Insert? && op.run == r);
    }
  }

  lemma SqlRowIs(t: Table, ops: seq<Op>, r: RunId)
    ensures Find(ApplySql(t, ops), r) == SqlRow(t, ops, r)
  {
    PatchIffMentioned(ops, r);
  }

  function Starts(ops: seq<Op>, r: RunId): nat {
    if ops == [] then 0 else
    var op := ops[|ops| - 1];
    Starts(ops[..|ops| - 1], r) + if op.Start? && op.run == r then 1 else 0
  }

  /** The run's operations that raise its row, starting from the first that creates one. */
  function Latest(ops: seq<Op>, r: RunId, created: bool): Option<nat> {
    if ops == [] then None else
    var op, before := ops[|ops| - 1], Latest(ops[..|ops| - 1], r, created);
    if op.Insert? || op.run != r then before
    else if before.Some? then Some(Max(before.value, op.at))
    else if created || !op.Touch? then Some(op.at)
    else None
  }

  predicate SameButTime(a: Option<Row>, b: Option<Row>) {
    (a.Some? <==> b.Some?) && (a.Some? ==> a.value.(updatedAt := 0) == b.value.(updatedAt := 0))
  }

  lemma {:induction false} PatchFacts(ops: seq<Op>, r: RunId)
    ensures PatchOf(ops, r).Some? ==> (PatchOf(ops, r).value.start.Some? <==> Starts(ops, r) > 0)
    ensures PatchOf(ops, r).None? ==> Starts(ops, r) == 0
    ensures Latest(ops, r, true) == if PatchOf(ops, r).Some? then Some(PatchOf(ops, r).value.updatedAt) else None
  {
    if ops != [] {
      PatchFacts(ops[..|ops| - 1], r);
    }
  }

  lemma FillNothing(a: Columns, b: Columns)
    ensures Fill(NO_COLUMNS, b) == b && Fill(a, NO_COLUMNS) == a
  {
  }

  // ---------------------------------------------------------------- more than one start

  /** The run's first start in the batch: the one its patch keeps. */
  function FirstStart(ops: seq<Op>, r: RunId): Option<Op> {
    if ops == [] then None else
    var op, before := ops[|ops| - 1], FirstStart(ops[..|ops| - 1], r);
    if before.Some? then before else if op.Start? && op.run == r then Some(op) else None
  }

  function ColumnsOf(existing: Option<Row>): Columns {
    if existing.Some? then existing.value.columns else NO_COLUMNS
  }

  function AttributesOf(existing: Option<Row>): Attributes {
    if existing.Some? then existing.value.attributes else map[]
  }

  /** Every column `b` has, `a` has. */
  predicate Covers(a: Columns, b: Columns) {
    Fill(a, b) == a
  }

  predicate CoversAttributes(a: Attributes, b: Attributes) {
    a != map[] || b == map[]
  }

  /** The start supplies no column and no attribute that the row and the first start leave empty. */
  predicate AddsNothing(existing: Option<Row>, first: Op, op: Op)
    requires first.Start? && op.Start?
  {
    && Covers(Fill(ColumnsOf(existing), first.columns), op.columns)
    && CoversAttributes(FillAttributes(AttributesOf(existing), first.attributes), op.attributes)
  }

  lemma {:induction false} FirstStartFacts(ops: seq<Op>, r: RunId)
    ensures FirstStart(ops, r).Some? ==> FirstStart(ops, r).value.Start?
    ensures FirstStart(ops, r) == if PatchOf(ops, r).Some? then PatchOf(ops, r).value.start else None
    ensures forall i :: 0 <= i < |ops| && ops[i].Start? && ops[i].run == r ==> FirstStart(ops, r).Some?
  {
    if ops != [] {
      FirstStartFacts(ops[..|ops| - 1], r);
      assert forall i :: 0 <= i < |ops| - 1 ==> ops[i] == ops[..|ops| - 1][i];
    }
  }

  /** No later start of the run adds anything. */
  predicate StartsAgree(existing: Option<Row>, ops: seq<Op>, r: RunId) {
    FirstStart(ops, r).None? ||
    (FirstStart(ops, r).value.Start? &&
     forall i :: 0 <= i < |ops| && ops[i].Start? && ops[i].run == r ==> AddsNothing(existing, FirstStart(ops, r).value, ops[i]))
  }

  lemma EarlierStartsAgree(existing: Option<Row>, ops: seq<Op>, r: RunId)
    requires ops != [] && StartsAgree(existing, ops, r)
    ensures StartsAgree(existing, ops[..|ops| - 1], r)
  {
    var before := ops[..|ops| - 1];
    FirstStartFacts(before, r);
    assert forall i :: 0 <= i < |before| ==> ops[i] == before[i];
  }

  /** One more operation, on a row that is there. */
  lemma PresentStep(e: Row, p: Option<Patch>, op: Op)
    requires p.Some? ==> PatchOk(p.value)
    requires !op.Insert? && (op.Start? && p.Some? && p.value.start.Some? ==> AddsNothing(Some(e), p.value.start.value, op))
    ensures PatchOk(Patched(p, op)) && ApplyPatch(Some(e), Some(Patched(p, op))) == ApplyOp(ApplyPatch(Some(e), p), op)
  {
    FillNothing(e.columns, NO_COLUMNS);
    if op.Start? {
      FillNothing(e.columns, op.columns);
    }
  }

  /** One more operation, on a row that was absent: equal but for when it was last updated. */
  lemma AbsentStep(row: Option<Row>, p: Option<Patch>, op: Op)
    requires p.Some? ==> PatchOk(p.value)
    requires !op.Insert? && (op.Start? && p.Some? && p.value.start.Some? ==> AddsNothing(None, p.value.start.value, op))
    requires SameButTime(row, ApplyPatch(None, p))
    ensures PatchOk(Patched(p, op)) && SameButTime(ApplyOp(row, op), ApplyPatch(None, Some(Patched(p, op))))
  {
    FillNothing(NO_COLUMNS, NO_COLUMNS);
    if op.Start? {
      FillNothing(op.columns, op.columns);
      if p.Some? && p.value.start.Some? {
        FillNothing(p.value.start.value.columns, p.value.start.value.columns);
      }
    }
  }

  lemma {:induction false} PresentBatch(e: Row, ops: seq<Op>, r: RunId)
    requires StartsAgree(Some(e), ops, r)
    ensures FoldOps(Some(e), ops, r) == ApplyPatch(Some(e), PatchOf(ops, r))
  {
    if ops != [] {
      var op, before := ops[|ops| - 1], ops[..|ops| - 1];
      EarlierStartsAgree(Some(e), ops, r);
      PresentBatch(e, before, r);
      FirstStartFacts(before, r);
      if !op.Insert? && op.run == r {
        PresentStep(e, PatchOf(before, r), op);
      }
    }
  }

  lemma {:induction false} AbsentBatch(ops: seq<Op>, r: RunId)
    requires StartsAgree(None, ops, r)
    ensures SameButTime(FoldOps(None, ops, r), ApplyPatch(None, PatchOf(ops, r)))
    ensures FoldOps(None, ops, r).Some? <==> Latest(ops, r, false).Some?
    ensures FoldOps(None, ops, r).Some? ==> FoldOps(None, ops, r).value.updatedAt == Latest(ops, r, false).value
  {
    if ops != [] {
      var op, before := ops[|ops| - 1], ops[..|ops| - 1];
      EarlierStartsAgree(None, ops, r);
      AbsentBatch(before, r);
      FirstStartFacts(before, r);
      if !op.Insert? && op.run == r {
        AbsentStep(FoldOps(None, before, r), PatchOf(before, r), op);
      }
    }
  }

  lemma CoversGrows(a: Columns, b: Columns, x: Columns)
    requires Covers(a, b)
    ensures Covers(Fill(a, x), b)
  {
  }

  /** The row has everything that any start of the run supplied. */
  predicate Supplied(row: Option<Row>, op: Op) {
    op.Start? ==> row.Some? && Covers(row.value.columns, op.columns) && CoversAttributes(row.value.attributes, op.attributes)
  }

  lemma SuppliedStays(row: Option<Row>, op: Op, next: Op)
    requires Supplied(row, op)
    ensures Supplied(ApplyOp(row, next), op)
  {
    if op.Start? && next.Start? {
      CoversGrows(row.value.columns, op.columns, next.columns);
    }
  }

  lemma StartSupplies(row: Option<Row>, op: Op)
    requires op.Start?
    ensures Supplied(ApplyOp(row, op), op)
  {
    FillTwice(ColumnsOf(row), op.columns);
  }

  lemma {:induction false} FoldSupplies(existing: Option<Row>, ops: seq<Op>, r: RunId, i: nat)
    requires i < |ops| && ops[i].Start? && ops[i].run == r
    ensures Supplied(FoldOps(existing, ops, r), ops[i])
  {
    var op, before := ops[|ops| - 1], ops[..|ops| - 1];
    if i == |ops| - 1 {
      StartSupplies(FoldOps(existing, before, r), op);
    } else {
      FoldSupplies(existing, before, r, i);
      if !op.Insert? && op.run == r {
        SuppliedStays(FoldOps(existing, before, r), ops[i], op);
      }
    }
  }

  /** What the batched write fills in comes from the row and the first start alone. */
  lemma SqlFillsFromFirst(existing: Option<Row>, p: Patch)
    requires PatchOk(p) && p.start.Some?
    ensures var row := ApplyPatch(existing, Some(p)).value;
            && row.columns == Fill(ColumnsOf(existing), p.start.value.columns)
            && row.attributes == FillAttributes(AttributesOf(existing), p.start.value.attributes)
  {
    FillNothing(p.start.value.columns, p.start.value.columns);
  }

  /** When the two agree on the row, no later start added anything. */
  lemma SameRowMeansStartsAgree(existing: Option<Row>, ops: seq<Op>, r: RunId)
    requires FoldOps(existing, ops, r) == ApplyPatch(existing, PatchOf(ops, r))
    ensures StartsAgree(existing, ops, r)
  {
    FirstStartFacts(ops, r);
    if FirstStart(ops, r).Some? {
      SqlFillsFromFirst(existing, PatchOf(ops, r).value);
      forall i | 0 <= i < |ops| && ops[i].Start? && ops[i].run == r ensures AddsNothing(existing, FirstStart(ops, r).value, ops[i]) {
        FoldSupplies(existing, ops, r, i);
      }
    }
  }

  /** What a run's row in the table and its operations in the batch must satisfy. */
  predicate Timely(existing: Option<Row>, ops: seq<Op>, r: RunId) {
    existing.Some? || Latest(ops, r, false).None? || Latest(ops, r, false) == Latest(ops, r, true)
  }

  lemma AbsentTime(ops: seq<Op>, r: RunId)
    ensures ApplyPatch(None, PatchOf(ops, r)).Some? ==>
              Latest(ops, r, true) == Some(ApplyPatch(None, PatchOf(ops, r)).value.updatedAt)
  {
    PatchFacts(ops, r);
  }

  /**
   * The batched write equals the operations one by one, run by run, exactly when no start after the first
   * supplies a column or an attribute that the row and the first leave empty, and the run is in the
   * table, or no operation of the batch creates it, or no touch before the one that creates it is later
   * than everything after.
   */
  lemma BatchEqualsFoldIff(t: Table, ops: seq<Op>, r: RunId)
    ensures Find(ApplySql(t, ops), r) == Find(ApplyMemory(t, ops), r)
       <==> StartsAgree(Find(t, r), ops, r) && Timely(Find(t, r), ops, r)
  {
    MemoryRow(t, ops, r);
    SqlRowIs(t, ops, r);
    if FoldOps(Find(t, r), ops, r) == ApplyPatch(Find(t, r), PatchOf(ops, r)) {
      SameRowMeansStartsAgree(Find(t, r), ops, r);
    }
    if StartsAgree(Find(t, r), ops, r) {
      if Find(t, r).Some? {
        PresentBatch(t[r], ops, r);
      } else {
        AbsentBatch(ops, r);
        AbsentTime(ops, r);
      }
    }
  }

  /** The whole table, for batches whose starts agree and which are timely. */
  lemma BatchEqualsFold(t: Table, ops: seq<Op>)
    requires forall r :: StartsAgree(Find(t, r), ops, r) && Timely(Find(t, r), ops, r)
    ensures ApplySql(t, ops) == ApplyMemory(t, ops)
  {
    var a, b := ApplySql(t, ops), ApplyMemory(t, ops);
    forall r ensures Find(a, r) == Find(b, r) {
      BatchEqualsFoldIff(t, ops, r);
    }
    forall r ensures (r in a <==> r in b) && (r in a ==> a[r] == b[r]) {
      assert Find(a, r) == Find(b, r);
    }
  }

  /** One start agrees with itself. */
  lemma {:induction false} OneStartAgrees(existing: Option<Row>, ops: seq<Op>, r: RunId)
    requires Starts(ops, r) <= 1
    ensures StartsAgree(existing, ops, r)
  {
    FirstStartFacts(ops, r);
    if FirstStart(ops, r).Some? {
      forall i | 0 <= i < |ops| && ops[i].Start? && ops[i].run == r ensures AddsNothing(existing, FirstStart(ops, r).value, ops[i]) {
        OnlyStart(ops, r, i);
        FillTwice(ColumnsOf(existing), ops[i].columns);
      }
    }
  }

  lemma {:induction false} OnlyStart(ops: seq<Op>, r: RunId, i: nat)
    requires Starts(ops, r) <= 1 && i < |ops| && ops[i].Start? && ops[i].run == r
    ensures FirstStart(ops, r) == Some(ops[i])
  {
    var before := ops[..|ops| - 1];
    if i < |before| {
      OnlyStart(before, r, i);
    } else {
      NoStart(before, r);
    }
  }

  lemma {:induction false} NoStart(ops: seq<Op>, r: RunId)
    requires Starts(ops, r) == 0
    ensures FirstStart(ops, r) == None
  {
    if ops != [] {
      NoStart(ops[..|ops| - 1], r);
    }
  }

  /** An operation of the run that is not a touch comes before any touch of it. */
  predicate OpensWithUpsert(ops: seq<Op>, r: RunId) {
    forall j :: 0 <= j < |ops| && ops[j].Touch? && ops[j].run == r ==>
                  exists i :: 0 <= i < j && Creates(ops[i], r)
  }

  predicate Creates(op: Op, r: RunId) {
    (op.Start? || op.Finish?) && op.run == r
  }

  /** A batch whose first operation on an absent run starts or finishes it is timely. */
  lemma {:induction false} OpeningIsTimely(existing: Option<Row>, ops: seq<Op>, r: RunId)
    requires OpensWithUpsert(ops, r)
    ensures Timely(existing, ops, r) && Latest(ops, r, false) == Latest(ops, r, true)
    ensures (exists i :: 0 <= i < |ops| && Creates(ops[i], r)) ==> Latest(ops, r, false).Some?
  {
    if ops != [] {
      var before := ops[..|ops| - 1];
      forall j | 0 <= j < |before| && before[j].Touch? && before[j].run == r
        ensures exists i :: 0 <= i < j && Creates(before[i], r)
      {
        assert ops[j] == before[j];
        var i :| 0 <= i < j && Creates(ops[i], r);
        assert Creates(before[i], r);
      }
      OpeningIsTimely(existing, before, r);
      var op := ops[|ops| - 1];
      if op.Touch? && op.run == r {
        var i :| 0 <= i < |ops| - 1 && Creates(ops[i], r);
        assert Creates(before[i], r);
      }
      if exists i :: 0 <= i < |ops| && Creates(ops[i], r) {
        var i :| 0 <= i < |ops| && Creates(ops[i], r);
        assert i < |before| ==> Creates(before[i], r);
      }
    }
  }

  lemma FillTwice(a: Columns, b: Columns)
    ensures Fill(Fill(a, b), b) == Fill(a, b) && Fill(b, b) == b
  {
  }

  /** Writing a batch again changes nothing, whatever the batch. */
  lemma ReapplyingChangesNothing(t: Table, ops: seq<Op>)
    ensures ApplySql(ApplySql(t, ops), ops) == ApplySql(t, ops)
  {
    var once, twice := ApplySql(t, ops), ApplySql(ApplySql(t, ops), ops);
    forall r ensures Find(twice, r) == Find(once, r) {
      SqlRowIs(t, ops, r);
      SqlRowIs(once, ops, r);
      RowTwice(Find(t, r), PatchOf(ops, r));
    }
    forall r ensures (r in twice <==> r in once) && (r in twice ==> twice[r] == once[r]) {
      assert Find(twice, r) == Find(once, r);
    }
  }

  lemma RowTwice(existing: Option<Row>, p: Option<Patch>)
    requires p.Some? ==> PatchOk(p.value)
    ensures ApplyPatch(ApplyPatch(existing, p), p) == ApplyPatch(existing, p)
  {
    if p.Some? && Upserts(p.value) {
      var e := Excluded(p.value);
      FillTwice(if existing.Some? then existing.value.columns else NO_COLUMNS, e.columns);
    }
  }

  // ---------------------------------------------------------------- the log in batches

  function Flat(batches: seq<seq<Op>>): seq<Op> {
    if batches == [] then [] else Flat(batches[..|batches| - 1]) + batches[|batches| - 1]
  }

  function ApplyBatches(t: Table, batches: seq<seq<Op>>): Table {
    if batches == [] then t else ApplySql(ApplyBatches(t, batches[..|batches| - 1]), batches[|batches| - 1])
  }

  lemma {:induction false} MemoryAppend(t: Table, a: seq<Op>, b: seq<Op>)
    ensures ApplyMemory(t, a + b) == ApplyMemory(ApplyMemory(t, a), b)
  {
    if b == [] {
      assert a + b == a;
    } else {
      assert (a + b)[..|a + b| - 1] == a + b[..|b| - 1];
      MemoryAppend(t, a, b[..|b| - 1]);
    }
  }

  lemma {:induction false} StartsAppend(a: seq<Op>, b: seq<Op>, r: RunId)
    ensures Starts(a + b, r) == Starts(a, r) + Starts(b, r)
  {
    if b == [] {
      assert a + b == a;
    } else {
      assert (a + b)[..|a + b| - 1] == a + b[..|b| - 1];
      StartsAppend(a, b[..|b| - 1], r);
    }
  }

  /** A log of operations in which a run starts once and is not touched before it starts or finishes. */
  ghost predicate WellOrdered(ops: seq<Op>) {
    forall r :: Starts(ops, r) <= 1 && OpensWithUpsert(ops, r)
  }

  lemma PrefixWellOrdered(a: seq<Op>, b: seq<Op>)
    requires WellOrdered(a + b)
    ensures WellOrdered(a)
  {
    forall r ensures Starts(a, r) <= 1 && OpensWithUpsert(a, r) {
      StartsAppend(a, b, r);
      assert OpensWithUpsert(a + b, r);
      forall j | 0 <= j < |a| && a[j].Touch? && a[j].run == r ensures exists i :: 0 <= i < j && Creates(a[i], r) {
        assert (a + b)[j] == a[j];
        var i :| 0 <= i < j && Creates((a + b)[i], r);
        assert Creates(a[i], r);
      }
    }
  }

  lemma CreatorIsLater(a: seq<Op>, b: seq<Op>, r: RunId, i: nat)
    requires forall k :: 0 <= k < |a| ==> !Creates(a[k], r)
    requires i < |a + b| && Creates((a + b)[i], r)
    ensures i >= |a| && Creates(b[i - |a|], r)
  {
  }

  /** The next batch of a well-ordered log is timely for the table so far. */
  lemma NextBatchTimely(t: Table, a: seq<Op>, b: seq<Op>, r: RunId)
    requires WellOrdered(a + b)
    ensures Starts(b, r) <= 1 && Timely(Find(ApplyMemory(t, a), r), b, r)
  {
    StartsAppend(a, b, r);
    MemoryRow(t, a, r);
    if Find(ApplyMemory(t, a), r).None? {
      PrefixWellOrdered(a, b);
      AbsentRowHasNoCreator(Find(t, r), a, r);
      assert OpensWithUpsert(a + b, r);
      forall j | 0 <= j < |b| && b[j].Touch? && b[j].run == r ensures exists i :: 0 <= i < j && Creates(b[i], r) {
        assert (a + b)[|a| + j] == b[j];
        var i :| 0 <= i < |a| + j && Creates((a + b)[i], r);
        CreatorIsLater(a, b, r, i);
      }
      OpeningIsTimely(None, b, r);
    }
  }

  lemma {:induction false} AbsentRowHasNoCreator(existing: Option<Row>, ops: seq<Op>, r: RunId)
    requires FoldOps(existing, ops, r).None?
    ensures forall i :: 0 <= i < |ops| ==> !Creates(ops[i], r)
  {
    if ops != [] {
      AbsentRowHasNoCreator(existing, ops[..|ops| - 1], r);
      assert forall i :: 0 <= i < |ops| - 1 ==> ops[i] == ops[..|ops| - 1][i];
    }
  }

  /** However the log is cut into batches, the index ends as the operations one by one leave it. */
  lemma {:induction false} BatchingDoesNotMatter(t: Table, batches: seq<seq<Op>>)
    requires WellOrdered(Flat(batches))
    ensures ApplyBatches(t, batches) == ApplyMemory(t, Flat(batches))
  {
    if batches != [] {
      var before, last := batches[..|batches| - 1], batches[|batches| - 1];
      PrefixWellOrdered(Flat(before), last);
      BatchingDoesNotMatter(t, before);
      MemoryAppend(t, Flat(before), last);
      forall r
        ensures StartsAgree(Find(ApplyMemory(t, Flat(before)), r), last, r) && Timely(Find(ApplyMemory(t, Flat(before)), r), last, r)
      {
        NextBatchTimely(t, Flat(before), last, r);
        OneStartAgrees(Find(ApplyMemory(t, Flat(before)), r), last, r);
      }
      BatchEqualsFold(ApplyMemory(t, Flat(before)), last);
    }
  }

  /** Rebuilding from the whole log, in batches of any size, changes nothing in an index that is up to date. */
  lemma RebuildChangesNothing(t: Table, delivered: seq<seq<Op>>, rebuilt: seq<seq<Op>>)
    requires WellOrdered(Flat(delivered)) && Flat(rebuilt) == Flat(delivered)
    ensures ApplyBatches(ApplyBatches(t, delivered), rebuilt) == ApplyBatches(t, delivered)
  {
    var ops := Flat(delivered);
    BatchingDoesNotMatter(t, delivered);
    BatchingDoesNotMatter(ApplyBatches(t, delivered), rebuilt);
    AsOneBatch(t, ops);
    AsOneBatch(ApplyMemory(t, ops), ops);
    ReapplyingChangesNothing(t, ops);
  }

  lemma AsOneBatch(t: Table, ops: seq<Op>)
    requires WellOrdered(ops)
    ensures ApplySql(t, ops) == ApplyMemory(t, ops)
  {
    forall r ensures StartsAgree(Find(t, r), ops, r) && Timely(Find(t, r), ops, r) {
      OpeningIsTimely(Find(t, r), ops, r);
      OneStartAgrees(Find(t, r), ops, r);
    }
    BatchEqualsFold(t, ops);
  }

  /** Two starts in one batch: the two ways differ exactly when the second supplies what the row and the first lack. */
  lemma SecondStartIsLostIffItAdds(t: Table, first: Op, second: Op)
    requires first.Start? && second.Start? && second.run == first.run
    ensures Find(ApplySql(t, [first, second]), first.run) == Find(ApplyMemory(t, [first, second]), first.run)
       <==> AddsNothing(Find(t, first.run), first, second)
  {
    BatchEqualsFoldIff(t, [first, second], first.run);
    TwoStarts(Find(t, first.run), first, second);
    TwoStartsAgree(Find(t, first.run), first, second);
  }

  lemma TwoStarts(existing: Option<Row>, first: Op, second: Op)
    requires first.Start? && second.Start? && second.run == first.run
    ensures FirstStart([first, second], first.run) == Some(first) && Timely(existing, [first, second], first.run)
  {
    var ops, one, r := [first, second], [first], first.run;
    assert ops[..1] == one && one[..0] == [] && ops[1] == second && one[0] == first;
    assert FirstStart([], r) == None && Latest([], r, false) == None && Latest([], r, true) == None;
    assert FirstStart(one, r) == Some(first);
    assert Latest(one, r, false) == Some(first.at) && Latest(one, r, true) == Some(first.at);
  }

  lemma TwoStartsAgree(existing: Option<Row>, first: Op, second: Op)
    requires first.Start? && second.Start? && second.run == first.run
    requires FirstStart([first, second], first.run) == Some(first)
    ensures StartsAgree(existing, [first, second], first.run) <==> AddsNothing(existing, first, second)
  {
    hide Covers, FillAttributes;
    var ops := [first, second];
    assert ops[0] == first && ops[1] == second;
    FirstAddsNothing(existing, first);
  }

  lemma FirstAddsNothing(existing: Option<Row>, first: Op)
    requires first.Start?
    ensures AddsNothing(existing, first, first)
  {
    FillTwice(ColumnsOf(existing), first.columns);
  }
}

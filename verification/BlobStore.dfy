/**
 * Content-addressed blobs shared by many runs. Each byte operation is one step; any number of run
 * writers and collectors interleave.
 */
module BlobStore {
  import opened Common

  type Digest = string
  type Body = seq<int>
  type RunId = string

  /** Where a run's single writer is inside `put`, `retain` or `replaceRefs`. */
  datatype Writer =
    | Idle
    | PutLooking(digest: Digest, body: Body)
    | PutStoring(digest: Digest, body: Body)
    | RetainReading(digests: set<Digest>)
    | RetainMarking(digests: set<Digest>, todo: set<Digest>, added: set<Digest>, current: set<Digest>)
    | RetainListing(digests: set<Digest>, added: set<Digest>, current: set<Digest>)
    | RetainChecking(digests: set<Digest>, todo: set<Digest>, added: set<Digest>, missing: set<Digest>)
    | ReplaceReading(keep: set<Digest>)
    | ReplaceDropping(todo: set<Digest>, kept: set<Digest>)

  /** Where a collector is: look for references, read, delete, look again, put back. */
  datatype Stage = Looking | Reading | Deleting(copy: Body) | Relooking(copy: Body) | Restoring(copy: Body)

  datatype Collector = Collector(digest: Digest, owner: RunId, stage: Stage)

  /**
   * The bytes (`objects`, `refs`, `lists`) and the processes, with two history variables that no
   * step reads. `found` holds (run, digest) when the run put or got the digest, and has neither
   * dropped it nor had a retain of it fail since. `secured` holds (run, digest) when the run met
   * the body with its reference already down, and has not dropped it since.
   */
  datatype Store = Store(
    objects: map<Digest, Body>, refs: set<(RunId, Digest)>, lists: map<RunId, set<Digest>>,
    writers: map<RunId, Writer>, collectors: map<nat, Collector>,
    found: set<(RunId, Digest)>, secured: set<(RunId, Digest)>)

  datatype Action =
    | BeginPut(run: RunId, digest: Digest, body: Body)
    | Get(run: RunId, digest: Digest)
    | BeginRetain(run: RunId, digests: set<Digest>)
    | BeginReplace(run: RunId, keep: set<Digest>)
    | Advance(run: RunId, digest: Digest, id: nat)
    | Fail(run: RunId)
    | Collect(id: nat)

  function WriterOf(s: Store, r: RunId): Writer {
    if r in s.writers then s.writers[r] else Idle
  }

  function ListOf(s: Store, r: RunId): set<Digest> {
    if r in s.lists then s.lists[r] else {}
  }

  function Go(s: Store, r: RunId, w: Writer): Store {
    s.(writers := s.writers[r := w])
  }

  /** The run met the body of `d`. */
  function Meet(s: Store, r: RunId, d: Digest): Store {
    if (r, d) in s.refs then s.(secured := s.secured + {(r, d)}) else s
  }

  function Find(s: Store, r: RunId, d: Digest): Store {
    Meet(s, r, d).(found := s.found + {(r, d)})
  }

  /** A retain of `digests` failed: what was found before it no longer counts. */
  function Forget(s: Store, r: RunId, digests: set<Digest>): Store {
    s.(found := set p | p in s.found && !(p.0 == r && p.1 in digests))
  }

  predicate Referenced(s: Store, d: Digest) {
    exists ref :: ref in s.refs && ref.1 == d
  }

  predicate Collecting(s: Store, r: RunId) {
    exists c :: c in s.collectors && s.collectors[c].owner == r
  }

  function AdvancePut(s: Store, r: RunId, hash: Body -> Digest): Store
    requires WriterOf(s, r).PutLooking? || WriterOf(s, r).PutStoring?
  {
    match WriterOf(s, r)
    case PutLooking(d, body) =>
      if d in s.objects && hash(s.objects[d]) == d then Find(Go(s, r, Idle), r, d) else Go(s, r, PutStoring(d, body))
    case PutStoring(d, body) => Find(Go(s, r, Idle).(objects := s.objects[d := body]), r, d)
  }

  /** `d` picks among the remaining digests of a concurrent loop. */
  function AdvanceRetain(s: Store, r: RunId, d: Digest): Option<Store>
    requires Retains(WriterOf(s, r))
  {
    match WriterOf(s, r)
    case RetainReading(digests) =>
      var current := ListOf(s, r);
      var added := digests - current;
      Some(Go(s, r, if added == {} then Idle else RetainMarking(digests, added, added, current)))
    case RetainMarking(digests, todo, added, current) =>
      if todo == {} then Some(Go(s, r, RetainListing(digests, added, current)))
      else if d !in todo then None
      else Some(Go(s, r, RetainMarking(digests, todo - {d}, added, current)).(refs := s.refs + {(r, d)}))
    case RetainListing(digests, added, current) =>
      Some(Go(s, r, RetainChecking(digests, added, added, {})).(lists := s.lists[r := current + added]))
    case RetainChecking(digests, todo, added, missing) =>
      if todo == {} then
        Some(if missing == {} then Go(s, r, Idle) else Forget(Go(s, r, Idle), r, digests))
      else if d !in todo then None
      else if d in s.objects then Some(Meet(Go(s, r, RetainChecking(digests, todo - {d}, added, missing)), r, d))
      else Some(Go(s, r, RetainChecking(digests, todo - {d}, added, missing + {d})))
  }

  /** `id` names the collector a dropped reference starts. */
  function AdvanceReplace(s: Store, r: RunId, d: Digest, id: nat): Option<Store>
    requires Replaces(WriterOf(s, r))
  {
    match WriterOf(s, r)
    case ReplaceReading(keep) =>
      var previous := ListOf(s, r);
      Some(Go(s, r, if previous <= keep then Idle else ReplaceDropping(previous - keep, previous * keep)))
    case ReplaceDropping(todo, kept) =>
      if todo == {} then
        if Collecting(s, r) then None else Some(Go(s, r, Idle).(lists := s.lists[r := kept]))
      else if d !in todo || id in s.collectors then None
      else Some(Go(s, r, ReplaceDropping(todo - {d}, kept)).(
        refs := s.refs - {(r, d)}, found := s.found - {(r, d)}, secured := s.secured - {(r, d)},
        collectors := s.collectors[id := Collector(d, r, Looking)]))
  }

  function AdvanceCollector(s: Store, id: nat): Store
    requires id in s.collectors
  {
    var c := s.collectors[id];
    var gone := s.(collectors := s.collectors - {id});
    match c.stage
    case Looking => if Referenced(s, c.digest) then gone else s.(collectors := s.collectors[id := c.(stage := Reading)])
    case Reading =>
      if c.digest !in s.objects then gone
      else s.(collectors := s.collectors[id := c.(stage := Deleting(s.objects[c.digest]))])
    case Deleting(copy) => s.(objects := s.objects - {c.digest}, collectors := s.collectors[id := c.(stage := Relooking(copy))])
    case Relooking(copy) =>
      if Referenced(s, c.digest) then s.(collectors := s.collectors[id := c.(stage := Restoring(copy))]) else gone
    case Restoring(copy) => gone.(objects := s.objects[c.digest := copy])
  }

  predicate Retains(w: Writer) {
    w.RetainReading? || w.RetainMarking? || w.RetainListing? || w.RetainChecking?
  }

  predicate Replaces(w: Writer) {
    w.ReplaceReading? || w.ReplaceDropping?
  }

  /** The store after an action, if it can happen. A byte operation may fail anywhere except inside `replaceRefs`. */
  function Step(s: Store, a: Action, hash: Body -> Digest): Option<Store> {
    match a
    case BeginPut(r, d, body) =>
      if WriterOf(s, r).Idle? && hash(body) == d then Some(Go(s, r, PutLooking(d, body))) else None
    case Get(r, d) =>
      if WriterOf(s, r).Idle? && d in s.objects && hash(s.objects[d]) == d then Some(Find(s, r, d)) else None
    case BeginRetain(r, ds) => if WriterOf(s, r).Idle? then Some(Go(s, r, RetainReading(ds))) else None
    case BeginReplace(r, keep) => if WriterOf(s, r).Idle? then Some(Go(s, r, ReplaceReading(keep))) else None
    case Advance(r, d, id) =>
      var w := WriterOf(s, r);
      if w.Idle? then None
      else if Retains(w) then AdvanceRetain(s, r, d)
      else if Replaces(w) then AdvanceReplace(s, r, d, id)
      else Some(AdvancePut(s, r, hash))
    case Fail(r) =>
      var w := WriterOf(s, r);
      if Replaces(w) then None
      else if Retains(w) then Some(Forget(Go(s, r, Idle), r, w.digests))
      else Some(Go(s, r, Idle))
    case Collect(id) => if id in s.collectors then Some(AdvanceCollector(s, id)) else None
  }

  function Run(s: Store, actions: seq<Action>, hash: Body -> Digest): Option<Store>
    decreases |actions|
  {
    if actions == [] then Some(s) else
    match Step(s, actions[0], hash)
    case None => None
    case Some(next) => Run(next, actions[1..], hash)
  }

  const NOTHING := Store(map[], {}, map[], map[], map[], {}, {})

  // ---------------------------------------------------------------- what every interleaving keeps

  predicate Holds(c: Collector, d: Digest) {
    c.digest == d && (c.stage.Relooking? || c.stage.Restoring?)
  }

  predicate Held(collectors: map<nat, Collector>, d: Digest) {
    exists c :: c in collectors && Holds(collectors[c], d)
  }

  /** The body is there, or a collector that took it out still has its copy. */
  predicate Safe(s: Store, d: Digest) {
    d in s.objects || Held(s.collectors, d)
  }

  /** Every secured pair has its reference, and its body is safe. */
  predicate SecuredOk(s: Store) {
    forall p :: p in s.secured ==> p in s.refs && Safe(s, p.1)
  }

  /** Bodies at rest and in a collector's or writer's hands are the ones their digests name. */
  ghost predicate Intact(s: Store, hash: Body -> Digest) {
    && (forall d :: d in s.objects ==> hash(s.objects[d]) == d)
    && (forall r :: r in s.writers && (s.writers[r].PutLooking? || s.writers[r].PutStoring?) ==>
                      hash(s.writers[r].body) == s.writers[r].digest)
    && (forall c :: c in s.collectors ==> CopyOk(s.collectors[c], hash))
  }

  predicate CopyOk(c: Collector, hash: Body -> Digest) {
    c.stage.Looking? || c.stage.Reading? || hash(c.stage.copy) == c.digest
  }

  /** What one run's writer relies on: its own references, its own list, what it has found and secured. */
  predicate WriterOk(w: Writer, list: set<Digest>, refs: set<Digest>, found: set<Digest>, secured: set<Digest>) {
    && (w.ReplaceDropping? || list <= refs)
    && match w
       case RetainMarking(ds, todo, added, current) =>
         todo <= added <= ds && current == list && ds <= current + added && added - todo <= refs && found * list <= secured
       case RetainListing(ds, added, current) =>
         added <= ds && ds <= current + added && current == list && added <= refs && found * list <= secured
       case RetainChecking(ds, todo, added, missing) =>
         && todo <= added <= ds && added <= list && ds <= list && added - todo - missing <= secured
         && found * (list - added) <= secured
       case ReplaceDropping(todo, kept) => todo !! kept && kept <= list && todo + kept <= refs && found * list <= secured
       case _ => found * list <= secured
  }

  function Mine(ps: set<(RunId, Digest)>, r: RunId): (ds: set<Digest>)
    ensures forall d :: d in ds <==> (r, d) in ps
  {
    set p | p in ps && p.0 == r :: p.1
  }

  predicate RunOk(s: Store, r: RunId) {
    WriterOk(WriterOf(s, r), ListOf(s, r), Mine(s.refs, r), Mine(s.found, r), Mine(s.secured, r))
  }

  ghost predicate Inv(s: Store, hash: Body -> Digest) {
    SecuredOk(s) && Intact(s, hash) && forall r :: RunOk(s, r)
  }

  /** What run `r` relies on is the same in both stores. */
  predicate SameFor(s: Store, t: Store, r: RunId) {
    && WriterOf(t, r) == WriterOf(s, r) && ListOf(t, r) == ListOf(s, r)
    && Mine(t.refs, r) == Mine(s.refs, r) && Mine(t.found, r) == Mine(s.found, r)
    && Mine(t.secured, r) == Mine(s.secured, r)
  }

  lemma MineIgnoresOthers(ps: set<(RunId, Digest)>, q: RunId, d: Digest, r: RunId)
    requires q != r
    ensures Mine(ps + {(q, d)}, r) == Mine(ps, r) && Mine(ps - {(q, d)}, r) == Mine(ps, r)
  {
  }

  lemma ForgetIsOwn(s: Store, q: RunId, ds: set<Digest>, r: RunId)
    requires q != r
    ensures Mine(Forget(s, q, ds).found, r) == Mine(s.found, r)
  {
  }

  lemma ForgetShape(s: Store, q: RunId, ds: set<Digest>)
    ensures Forget(Go(s, q, Idle), q, ds) == Go(s, q, Idle).(found := Forget(s, q, ds).found)
  {
  }

  /** What a step of a retain writes. */
  lemma RetainShape(s: Store, q: RunId, d: Digest)
    requires Retains(WriterOf(s, q)) && AdvanceRetain(s, q, d).Some?
    ensures var t := AdvanceRetain(s, q, d).value;
            && t.objects == s.objects && t.collectors == s.collectors
            && q in t.writers && t.writers == s.writers[q := t.writers[q]]
            && !t.writers[q].PutLooking? && !t.writers[q].PutStoring?
            && (t.lists == s.lists || (q in t.lists && t.lists == s.lists[q := t.lists[q]]))
            && (t.refs == s.refs || t.refs == s.refs + {(q, d)})
            && (t.secured == s.secured || t.secured == s.secured + {(q, d)})
            && (t.found == s.found || t.found == Forget(s, q, WriterOf(s, q).digests).found)
  {
    hide Forget, ListOf;
    var w := WriterOf(s, q);
    if w.RetainChecking? && w.todo == {} {
      ForgetShape(s, q, w.digests);
    }
  }

  lemma RetainSparesOthers(s: Store, q: RunId, d: Digest, r: RunId)
    requires q != r && Retains(WriterOf(s, q)) && AdvanceRetain(s, q, d).Some?
    ensures SameFor(s, AdvanceRetain(s, q, d).value, r)
  {
    hide Mine, Forget, AdvanceRetain;
    RetainShape(s, q, d);
    MineIgnoresOthers(s.refs, q, d, r);
    MineIgnoresOthers(s.secured, q, d, r);
    ForgetIsOwn(s, q, WriterOf(s, q).digests, r);
  }

  lemma ReplaceSparesOthers(s: Store, q: RunId, d: Digest, id: nat, r: RunId)
    requires q != r && Replaces(WriterOf(s, q)) && AdvanceReplace(s, q, d, id).Some?
    ensures SameFor(s, AdvanceReplace(s, q, d, id).value, r)
  {
    hide Mine;
    MineIgnoresOthers(s.refs, q, d, r);
    MineIgnoresOthers(s.secured, q, d, r);
    MineIgnoresOthers(s.found, q, d, r);
  }

  lemma PutSparesOthers(s: Store, q: RunId, hash: Body -> Digest, r: RunId)
    requires q != r && (WriterOf(s, q).PutLooking? || WriterOf(s, q).PutStoring?)
    ensures SameFor(s, AdvancePut(s, q, hash), r)
  {
  }

  lemma CollectorSparesRuns(s: Store, id: nat, r: RunId)
    requires id in s.collectors
    ensures SameFor(s, AdvanceCollector(s, id), r)
  {
  }

  lemma FailSparesOthers(s: Store, q: RunId, ds: set<Digest>, r: RunId)
    requires q != r
    ensures SameFor(s, Forget(Go(s, q, Idle), q, ds), r)
  {
  }

  /** A step of one run's writer, or of a collector, leaves what another run relies on alone. */
  lemma OtherRunsUntouched(s: Store, a: Action, hash: Body -> Digest, r: RunId)
    requires Step(s, a, hash).Some? && (a.Collect? || a.run != r)
    ensures SameFor(s, Step(s, a, hash).value, r)
  {
    hide AdvanceRetain, AdvanceReplace, AdvancePut, AdvanceCollector, Forget;
    if a.Collect? {
      CollectorSparesRuns(s, a.id, r);
    } else if a.Fail? {
      if Retains(WriterOf(s, a.run)) {
        FailSparesOthers(s, a.run, WriterOf(s, a.run).digests, r);
      }
    } else if a.Advance? {
      var w := WriterOf(s, a.run);
      if Retains(w) {
        RetainSparesOthers(s, a.run, a.digest, r);
      } else if Replaces(w) {
        ReplaceSparesOthers(s, a.run, a.digest, a.id, r);
      } else {
        PutSparesOthers(s, a.run, hash, r);
      }
    }
  }

  lemma MineOfOwn(ps: set<(RunId, Digest)>, r: RunId, d: Digest)
    ensures Mine(ps + {(r, d)}, r) == Mine(ps, r) + {d} && Mine(ps - {(r, d)}, r) == Mine(ps, r) - {d}
  {
  }

  lemma MineForgets(s: Store, r: RunId, ds: set<Digest>)
    ensures Mine(Forget(s, r, ds).found, r) == Mine(s.found, r) - ds
    ensures Forget(s, r, ds) == s.(found := Forget(s, r, ds).found)
  {
  }

  lemma RetainKeepsRun(s: Store, r: RunId, d: Digest)
    requires RunOk(s, r) && Retains(WriterOf(s, r)) && AdvanceRetain(s, r, d).Some?
    ensures RunOk(AdvanceRetain(s, r, d).value, r)
  {
    hide Mine, Forget;
    MineOfOwn(s.refs, r, d);
    MineOfOwn(s.secured, r, d);
    var w := WriterOf(s, r);
    if w.RetainChecking? && w.todo == {} {
      MineForgets(Go(s, r, Idle), r, w.digests);
    }
  }

  lemma ReplaceKeepsRun(s: Store, r: RunId, d: Digest, id: nat)
    requires RunOk(s, r) && Replaces(WriterOf(s, r)) && AdvanceReplace(s, r, d, id).Some?
    ensures RunOk(AdvanceReplace(s, r, d, id).value, r)
  {
    hide Mine;
    MineOfOwn(s.refs, r, d);
    MineOfOwn(s.found, r, d);
    MineOfOwn(s.secured, r, d);
  }

  lemma FindKeepsRun(s: Store, r: RunId, d: Digest)
    requires RunOk(s, r) && WriterOf(s, r).Idle?
    ensures RunOk(Find(s, r, d), r)
  {
    var t := Find(s, r, d);
    assert Mine(t.found, r) == Mine(s.found, r) + {d};
    assert Mine(s.secured, r) <= Mine(t.secured, r);
    assert d in ListOf(s, r) ==> d in Mine(s.refs, r);
  }

  lemma StepKeepsRun(s: Store, a: Action, hash: Body -> Digest, r: RunId)
    requires RunOk(s, r) && Step(s, a, hash).Some?
    ensures RunOk(Step(s, a, hash).value, r)
  {
    if a.Collect? || a.run != r {
      OtherRunsUntouched(s, a, hash, r);
    } else if a.Get? {
      FindKeepsRun(s, r, a.digest);
    } else if a.Advance? {
      var w := WriterOf(s, r);
      if Retains(w) {
        RetainKeepsRun(s, r, a.digest);
      } else if Replaces(w) {
        ReplaceKeepsRun(s, r, a.digest, a.id);
      } else {
        assert Step(s, a, hash).value == AdvancePut(s, r, hash);
        FindKeepsRun(Go(s, r, Idle), r, w.digest);
        if w.PutStoring? {
          FindKeepsRun(Go(s, r, Idle).(objects := s.objects[w.digest := w.body]), r, w.digest);
        }
      }
    } else if a.Fail? {
      FailKeepsRun(s, a, hash);
    }
  }

  lemma FailKeepsRun(s: Store, a: Action, hash: Body -> Digest)
    requires a.Fail? && RunOk(s, a.run) && Step(s, a, hash).Some?
    ensures RunOk(Step(s, a, hash).value, a.run)
  {
    var r, t := a.run, Step(s, a, hash).value;
    var w := WriterOf(s, r);
    assert Mine(t.refs, r) == Mine(s.refs, r) && Mine(t.secured, r) == Mine(s.secured, r);
    assert Mine(t.found, r) == if Retains(w) then Mine(s.found, r) - w.digests else Mine(s.found, r);
  }

  // ---------------------------------------------------------------- bodies stay

  lemma CollectorKeepsSecured(s: Store, id: nat)
    requires SecuredOk(s) && id in s.collectors
    ensures SecuredOk(AdvanceCollector(s, id))
  {
    var t := AdvanceCollector(s, id);
    var c := s.collectors[id];
    forall p | p in t.secured ensures p in t.refs && Safe(t, p.1) {
      if p.1 in s.objects {
        if p.1 == c.digest && c.stage.Deleting? {
          assert Holds(t.collectors[id], p.1);
        }
      } else {
        var k :| k in s.collectors && Holds(s.collectors[k], p.1);
        if k != id {
          assert Holds(t.collectors[k], p.1);
        } else if c.stage.Relooking? {
          assert Referenced(s, c.digest);
          assert Holds(t.collectors[id], p.1);
        }
      }
    }
  }

  /** Bodies and collectors that are still there keep a digest safe. */
  lemma SafeStays(s: Store, t: Store, d: Digest)
    requires s.objects.Keys <= t.objects.Keys
    requires s.collectors.Keys <= t.collectors.Keys
    requires forall c :: c in s.collectors ==> t.collectors[c] == s.collectors[c]
    requires Safe(s, d)
    ensures Safe(t, d)
  {
    if d !in s.objects {
      var c :| c in s.collectors && Holds(s.collectors[c], d);
      assert Holds(t.collectors[c], d);
    }
  }

  lemma AdvanceKeepsSecured(s: Store, r: RunId, d: Digest, id: nat, hash: Body -> Digest)
    requires SecuredOk(s) && Step(s, Advance(r, d, id), hash).Some?
    ensures SecuredOk(Step(s, Advance(r, d, id), hash).value)
  {
    var w := WriterOf(s, r);
    if Retains(w) {
      RetainKeepsSecured(s, r, d);
    } else if Replaces(w) {
      ReplaceKeepsSecured(s, r, d, id);
    } else {
      PutKeepsSecured(s, r, hash);
    }
  }

  /** What was secured stays so, and what is newly secured has its body and its reference. */
  lemma SecuredGrows(s: Store, t: Store, r: RunId, d: Digest)
    requires SecuredOk(s) && s.refs <= t.refs && s.objects.Keys <= t.objects.Keys && t.collectors == s.collectors
    requires t.secured <= s.secured + {(r, d)} && ((r, d) in t.secured ==> (r, d) in s.secured || ((r, d) in t.refs && d in t.objects))
    ensures SecuredOk(t)
  {
    forall p | p in t.secured ensures p in t.refs && Safe(t, p.1) {
      if p in s.secured {
        SafeStays(s, t, p.1);
      }
    }
  }

  lemma RetainKeepsSecured(s: Store, r: RunId, d: Digest)
    requires SecuredOk(s) && Retains(WriterOf(s, r)) && AdvanceRetain(s, r, d).Some?
    ensures SecuredOk(AdvanceRetain(s, r, d).value)
  {
    hide SecuredOk;
    SecuredGrows(s, AdvanceRetain(s, r, d).value, r, d);
  }

  lemma PutKeepsSecured(s: Store, r: RunId, hash: Body -> Digest)
    requires SecuredOk(s) && (WriterOf(s, r).PutLooking? || WriterOf(s, r).PutStoring?)
    ensures SecuredOk(AdvancePut(s, r, hash))
  {
    hide SecuredOk;
    SecuredGrows(s, AdvancePut(s, r, hash), r, WriterOf(s, r).digest);
  }

  lemma ReplaceKeepsSecured(s: Store, r: RunId, d: Digest, id: nat)
    requires SecuredOk(s) && Replaces(WriterOf(s, r)) && AdvanceReplace(s, r, d, id).Some?
    ensures SecuredOk(AdvanceReplace(s, r, d, id).value)
  {
    var t := AdvanceReplace(s, r, d, id).value;
    forall p | p in t.secured ensures p in t.refs && Safe(t, p.1) {
      SafeStays(s, t, p.1);
    }
  }

  lemma StepKeepsSecured(s: Store, a: Action, hash: Body -> Digest)
    requires SecuredOk(s) && Step(s, a, hash).Some?
    ensures SecuredOk(Step(s, a, hash).value)
  {
    match a
    case Collect(id) => CollectorKeepsSecured(s, id);
    case Advance(r, d, id) => AdvanceKeepsSecured(s, r, d, id, hash);
    case _ =>
      var t := Step(s, a, hash).value;
      assert t.objects == s.objects && t.collectors == s.collectors && t.refs == s.refs;
  }

  lemma CollectorKeepsIntact(s: Store, id: nat, hash: Body -> Digest)
    requires Intact(s, hash) && id in s.collectors
    ensures Intact(AdvanceCollector(s, id), hash)
  {
    assert CopyOk(s.collectors[id], hash);
  }

  /** Only a put writes a body on behalf of a run. */
  lemma IntactFrame(s: Store, t: Store, r: RunId, hash: Body -> Digest)
    requires Intact(s, hash)
    requires forall d :: d in t.objects ==> d in s.objects && t.objects[d] == s.objects[d]
    requires forall q :: q in t.writers && q != r ==> q in s.writers && t.writers[q] == s.writers[q]
    requires r in t.writers ==> !t.writers[r].PutLooking? && !t.writers[r].PutStoring?
    requires forall c :: c in t.collectors ==>
                           t.collectors[c].stage.Looking? || (c in s.collectors && t.collectors[c] == s.collectors[c])
    ensures Intact(t, hash)
  {
  }

  lemma RetainKeepsIntact(s: Store, r: RunId, d: Digest, hash: Body -> Digest)
    requires Intact(s, hash) && Retains(WriterOf(s, r)) && AdvanceRetain(s, r, d).Some?
    ensures Intact(AdvanceRetain(s, r, d).value, hash)
  {
    hide Intact, AdvanceRetain;
    RetainShape(s, r, d);
    IntactFrame(s, AdvanceRetain(s, r, d).value, r, hash);
  }

  lemma ReplaceKeepsIntact(s: Store, r: RunId, d: Digest, id: nat, hash: Body -> Digest)
    requires Intact(s, hash) && Replaces(WriterOf(s, r)) && AdvanceReplace(s, r, d, id).Some?
    ensures Intact(AdvanceReplace(s, r, d, id).value, hash)
  {
    hide Intact;
    IntactFrame(s, AdvanceReplace(s, r, d, id).value, r, hash);
  }

  lemma PutKeepsIntact(s: Store, r: RunId, hash: Body -> Digest)
    requires Intact(s, hash) && (WriterOf(s, r).PutLooking? || WriterOf(s, r).PutStoring?)
    ensures Intact(AdvancePut(s, r, hash), hash)
  {
  }

  lemma AdvanceKeepsIntact(s: Store, r: RunId, d: Digest, id: nat, hash: Body -> Digest)
    requires Intact(s, hash) && Step(s, Advance(r, d, id), hash).Some?
    ensures Intact(Step(s, Advance(r, d, id), hash).value, hash)
  {
    hide Intact, AdvanceRetain, AdvanceReplace, AdvancePut;
    var w := WriterOf(s, r);
    if Retains(w) {
      RetainKeepsIntact(s, r, d, hash);
    } else if Replaces(w) {
      ReplaceKeepsIntact(s, r, d, id, hash);
    } else {
      PutKeepsIntact(s, r, hash);
    }
  }

  lemma StepKeepsIntact(s: Store, a: Action, hash: Body -> Digest)
    requires Intact(s, hash) && Step(s, a, hash).Some?
    ensures Intact(Step(s, a, hash).value, hash)
  {
    match a
    case Collect(id) => CollectorKeepsIntact(s, id, hash);
    case Advance(r, d, id) => AdvanceKeepsIntact(s, r, d, id, hash);
    case _ =>
  }

  lemma StepKeepsInv(s: Store, a: Action, hash: Body -> Digest)
    requires Inv(s, hash) && Step(s, a, hash).Some?
    ensures Inv(Step(s, a, hash).value, hash)
  {
    hide Step, SecuredOk, Intact, RunOk;
    StepKeepsSecured(s, a, hash);
    StepKeepsIntact(s, a, hash);
    forall r ensures RunOk(Step(s, a, hash).value, r) {
      assert RunOk(s, r);
      StepKeepsRun(s, a, hash, r);
    }
  }

  lemma {:induction false} RunKeepsInv(s: Store, actions: seq<Action>, hash: Body -> Digest)
    requires Inv(s, hash) && Run(s, actions, hash).Some?
    ensures Inv(Run(s, actions, hash).value, hash)
    decreases |actions|
  {
    if actions != [] {
      hide Step, Inv;
      StepKeepsInv(s, actions[0], hash);
      RunKeepsInv(Step(s, actions[0], hash).value, actions[1..], hash);
    }
  }

  // ---------------------------------------------------------------- what a successful retain promises

  /** The next step of `r` ends a retain of `digests` without an error. */
  predicate RetainSucceeds(s: Store, r: RunId, digests: set<Digest>) {
    match WriterOf(s, r)
    case RetainReading(ds) => ds == digests && ds <= ListOf(s, r)
    case RetainChecking(ds, todo, added, missing) => ds == digests && todo == {} && missing == {}
    case _ => false
  }

  /** The action drops `r`'s reference to `d`. */
  predicate Drops(s: Store, a: Action, r: RunId, d: Digest) {
    a.Advance? && a.run == r && a.digest == d && WriterOf(s, r).ReplaceDropping? && d in WriterOf(s, r).todo
  }

  predicate EverDrops(s: Store, actions: seq<Action>, hash: Body -> Digest, r: RunId, d: Digest)
    decreases |actions|
  {
    actions != [] &&
    (Drops(s, actions[0], r, d)
     || (Step(s, actions[0], hash).Some? && EverDrops(Step(s, actions[0], hash).value, actions[1..], hash, r, d)))
  }

  lemma SecuredUntilDropped(s: Store, a: Action, hash: Body -> Digest, r: RunId, d: Digest)
    requires (r, d) in s.secured && Step(s, a, hash).Some? && !Drops(s, a, r, d)
    ensures (r, d) in Step(s, a, hash).value.secured
  {
  }

  lemma {:induction false} SecuredUntilEverDropped(s: Store, actions: seq<Action>, hash: Body -> Digest, r: RunId, d: Digest)
    requires (r, d) in s.secured && Run(s, actions, hash).Some? && !EverDrops(s, actions, hash, r, d)
    ensures (r, d) in Run(s, actions, hash).value.secured
    decreases |actions|
  {
    if actions != [] {
      hide Step, Drops;
      SecuredUntilDropped(s, actions[0], hash, r, d);
      SecuredUntilEverDropped(Step(s, actions[0], hash).value, actions[1..], hash, r, d);
    }
  }

  /** A retain that succeeds secures each digest that it newly listed, or that the run had found or met before. */
  lemma RetainSecures(s: Store, r: RunId, digests: set<Digest>, d: Digest, hash: Body -> Digest)
    requires RunOk(s, r) && RetainSucceeds(s, r, digests) && d in digests
    requires (r, d) in s.secured || (r, d) in s.found || (WriterOf(s, r).RetainChecking? && d in WriterOf(s, r).added)
    ensures (r, d) in s.secured
  {
    assert d in Mine(s.secured, r);
  }

  /**
   * The retained body is never lost. After any interleaving from an empty store in which a retain of
   * `digests` by `r` is about to succeed, and any continuation in which `r` does not drop `d`, the
   * body is present and intact, or a collector holds it; without such a collector it is present.
   */
  lemma RetainedBodyStays(
    before: seq<Action>, after: seq<Action>, r: RunId, digests: set<Digest>, d: Digest, hash: Body -> Digest)
    requires Run(NOTHING, before, hash).Some?
    requires var s := Run(NOTHING, before, hash).value;
             && RetainSucceeds(s, r, digests) && d in digests
             && ((r, d) in s.secured || (r, d) in s.found || (WriterOf(s, r).RetainChecking? && d in WriterOf(s, r).added))
             && Run(s, after, hash).Some? && !EverDrops(s, after, hash, r, d)
    ensures var t := Run(Run(NOTHING, before, hash).value, after, hash).value;
            && Safe(t, d) && (r, d) in t.refs
            && (!Held(t.collectors, d) ==> d in t.objects)
            && (d in t.objects ==> hash(t.objects[d]) == d)
  {
    hide Run, Step, EverDrops, RetainSucceeds;
    assert Inv(NOTHING, hash);
    RunKeepsInv(NOTHING, before, hash);
    var s := Run(NOTHING, before, hash).value;
    assert RunOk(s, r);
    RetainSecures(s, r, digests, d, hash);
    SecuredUntilEverDropped(s, after, hash, r, d);
    RunKeepsInv(s, after, hash);
    var p := (r, d);
    assert p in Run(s, after, hash).value.secured;
  }

  /** A collector that holds a referenced digest's body puts it back, intact, in at most two of its own steps. */
  lemma HolderRestores(s: Store, id: nat, r: RunId, d: Digest, hash: Body -> Digest)
    requires Intact(s, hash) && id in s.collectors && Holds(s.collectors[id], d) && (r, d) in s.refs
    ensures var t := AdvanceCollector(s, id);
            if s.collectors[id].stage.Restoring? then d in t.objects && hash(t.objects[d]) == d
            else id in t.collectors && t.collectors[id] == s.collectors[id].(stage := Restoring(s.collectors[id].stage.copy))
  {
    assert CopyOk(s.collectors[id], hash);
  }

  /** An unreferenced body nobody is writing is deleted for good by a collector left alone. */
  lemma UnreferencedBodyGoes(s: Store, id: nat, hash: Body -> Digest)
    requires id in s.collectors && s.collectors[id].stage.Looking? && !Referenced(s, s.collectors[id].digest)
    ensures exists t :: Run(s, Alone(s, id), hash) == Some(t) &&
                        t.objects == s.objects - {s.collectors[id].digest} && t.collectors == s.collectors - {id}
  {
    var d := s.collectors[id].digest;
    var s1 := AdvanceCollector(s, id);
    assert !Referenced(s1, d);
    var s2 := AdvanceCollector(s1, id);
    if d !in s.objects {
      assert Alone(s, id) == [Collect(id)] + [Collect(id)];
      assert Run(s, Alone(s, id), hash) == Run(s1, [Collect(id)], hash) == Run(s2, [], hash);
      assert s2.objects == s.objects - {d};
      assert s2.collectors == s.collectors - {id};
    } else {
      var s3 := AdvanceCollector(s2, id);
      assert !Referenced(s3, d);
      var s4 := AdvanceCollector(s3, id);
      assert Run(s, Alone(s, id), hash) == Run(s1, [Collect(id), Collect(id), Collect(id)], hash)
        == Run(s2, [Collect(id), Collect(id)], hash) == Run(s3, [Collect(id)], hash) == Run(s4, [], hash);
      assert s4.objects == s.objects - {d};
      assert s4.collectors == s.collectors - {id};
    }
  }

  /** The steps a collector takes when nothing else runs and nothing refers to its digest. */
  function Alone(s: Store, id: nat): seq<Action>
    requires id in s.collectors
  {
    if s.collectors[id].digest in s.objects then [Collect(id), Collect(id), Collect(id), Collect(id)]
    else [Collect(id), Collect(id)]
  }

  // ---------------------------------------------------------------- what a retried retain promises

  /** The action writes a body of `d`. */
  predicate Stores(s: Store, a: Action, d: Digest) {
    a.Advance? && WriterOf(s, a.run).PutStoring? && WriterOf(s, a.run).digest == d
  }

  predicate EverStores(s: Store, actions: seq<Action>, hash: Body -> Digest, d: Digest)
    decreases |actions|
  {
    actions != [] &&
    (Stores(s, actions[0], d)
     || (Step(s, actions[0], hash).Some? && EverStores(Step(s, actions[0], hash).value, actions[1..], hash, d)))
  }

  lemma ReferenceStays(s: Store, a: Action, hash: Body -> Digest, r: RunId, d: Digest)
    requires (r, d) in s.refs && Step(s, a, hash).Some? && !Drops(s, a, r, d)
    ensures (r, d) in Step(s, a, hash).value.refs
  {
  }

  /** A collector loses no referenced body. */
  lemma CollectorKeepsReferenced(s: Store, id: nat, r: RunId, d: Digest)
    requires id in s.collectors && (r, d) in s.refs && Safe(s, d)
    ensures Safe(AdvanceCollector(s, id), d)
  {
    var t := AdvanceCollector(s, id);
    var c := s.collectors[id];
    if d in s.objects {
      if d == c.digest && c.stage.Deleting? {
        assert Holds(t.collectors[id], d);
      }
    } else {
      var k :| k in s.collectors && Holds(s.collectors[k], d);
      if k != id {
        assert Holds(t.collectors[k], d);
      } else if c.stage.Relooking? {
        assert Referenced(s, d) by {
          assert (r, d).1 == d;
        }
        assert Holds(t.collectors[id], d);
      }
    }
  }

  /** The collector has a copy of the body of `d`. */
  predicate Copies(c: Collector, d: Digest) {
    c.digest == d && (c.stage.Deleting? || c.stage.Relooking? || c.stage.Restoring?)
  }

  predicate Copied(collectors: map<nat, Collector>, d: Digest) {
    exists c :: c in collectors && Copies(collectors[c], d)
  }

  /** The body is there, or a collector has a copy of it, which it puts back if the digest is referenced. */
  predicate Recoverable(s: Store, d: Digest) {
    d in s.objects || Copied(s.collectors, d)
  }

  lemma SafeIsRecoverable(s: Store, d: Digest)
    requires Safe(s, d)
    ensures Recoverable(s, d)
  {
    if d !in s.objects {
      var c :| c in s.collectors && Holds(s.collectors[c], d);
      assert Copies(s.collectors[c], d);
    }
  }

  /** A collector loses no referenced body that could be recovered, and brings back none that could not. */
  lemma CollectorRecoverableIff(s: Store, id: nat, r: RunId, d: Digest)
    requires id in s.collectors && (r, d) in s.refs
    ensures Recoverable(AdvanceCollector(s, id), d) <==> Recoverable(s, d)
  {
    var t := AdvanceCollector(s, id);
    var c := s.collectors[id];
    assert Referenced(s, d) by {
      assert (r, d).1 == d;
    }
    if Recoverable(s, d) {
      if d in s.objects {
        assert d !in t.objects ==> Copies(t.collectors[id], d);
      } else {
        var k :| k in s.collectors && Copies(s.collectors[k], d);
        assert k != id ==> k in t.collectors && t.collectors[k] == s.collectors[k];
        assert k == id ==> d in t.objects || Copies(t.collectors[id], d);
      }
    }
    if Copied(t.collectors, d) {
      var k :| k in t.collectors && Copies(t.collectors[k], d);
      assert k != id ==> t.collectors[k] == s.collectors[k];
      assert k == id ==> Copies(s.collectors[id], d) || d in s.objects;
    }
  }

  /** A writer's step leaves every body and collector where it is, and adds at most a body it stores. */
  lemma WriterKeepsBodies(s: Store, a: Action, hash: Body -> Digest, d: Digest)
    requires !a.Collect? && Step(s, a, hash).Some?
    ensures var t := Step(s, a, hash).value;
            && s.objects.Keys <= t.objects.Keys && s.collectors.Keys <= t.collectors.Keys
            && (forall c :: c in s.collectors ==> t.collectors[c] == s.collectors[c])
            && (forall c :: c in t.collectors && c !in s.collectors ==> t.collectors[c].stage.Looking?)
            && (d in t.objects && d !in s.objects ==> Stores(s, a, d))
  {
    hide AdvanceRetain, AdvanceReplace;
    if a.Advance? {
      var w := WriterOf(s, a.run);
      if Retains(w) {
        RetainShape(s, a.run, a.digest);
      } else if Replaces(w) {
        ReplaceShape(s, a.run, a.digest, a.id);
      }
    }
  }

  lemma ReplaceShape(s: Store, r: RunId, d: Digest, id: nat)
    requires Replaces(WriterOf(s, r)) && AdvanceReplace(s, r, d, id).Some?
    ensures var t := AdvanceReplace(s, r, d, id).value;
            && t.objects == s.objects
            && (t.collectors == s.collectors || (id !in s.collectors && t.collectors == s.collectors[id := Collector(d, r, Looking)]))
  {
  }

  /** With its reference down, a digest stays safe, and becomes recoverable only by being stored. */
  lemma ReferencedStep(s: Store, a: Action, hash: Body -> Digest, r: RunId, d: Digest)
    requires (r, d) in s.refs && Step(s, a, hash).Some?
    ensures Safe(s, d) ==> Safe(Step(s, a, hash).value, d)
    ensures !Stores(s, a, d) ==> (Recoverable(Step(s, a, hash).value, d) <==> Recoverable(s, d))
  {
    var t := Step(s, a, hash).value;
    if a.Collect? {
      CollectorRecoverableIff(s, a.id, r, d);
      if Safe(s, d) {
        CollectorKeepsReferenced(s, a.id, r, d);
      }
    } else {
      WriterKeepsBodies(s, a, hash, d);
      hide Step;
      if Safe(s, d) {
        SafeStays(s, t, d);
      }
      SameCopies(s, t, d);
    }
  }

  lemma SameCopies(s: Store, t: Store, d: Digest)
    requires s.collectors.Keys <= t.collectors.Keys
    requires forall c :: c in s.collectors ==> t.collectors[c] == s.collectors[c]
    requires forall c :: c in t.collectors && c !in s.collectors ==> t.collectors[c].stage.Looking?
    ensures Copied(t.collectors, d) <==> Copied(s.collectors, d)
  {
    if Copied(s.collectors, d) {
      var c :| c in s.collectors && Copies(s.collectors[c], d);
      assert Copies(t.collectors[c], d);
    }
    if Copied(t.collectors, d) {
      var c :| c in t.collectors && Copies(t.collectors[c], d);
      assert Copies(s.collectors[c], d);
    }
  }

  lemma {:induction false} ReferencedRun(s: Store, actions: seq<Action>, hash: Body -> Digest, r: RunId, d: Digest)
    requires (r, d) in s.refs && Run(s, actions, hash).Some? && !EverDrops(s, actions, hash, r, d)
    ensures Safe(s, d) ==> Safe(Run(s, actions, hash).value, d)
    ensures !EverStores(s, actions, hash, d) ==> (Recoverable(Run(s, actions, hash).value, d) <==> Recoverable(s, d))
    decreases |actions|
  {
    if actions != [] {
      hide Step, Drops, Stores, Safe, Recoverable;
      ReferenceStays(s, actions[0], hash, r, d);
      ReferencedStep(s, actions[0], hash, r, d);
      ReferencedRun(Step(s, actions[0], hash).value, actions[1..], hash, r, d);
    }
  }

  /**
   * Exactly which digests a successful retain, first or retried, is good for, until the run drops the digest
   * or somebody stores it again: the body stays in place or in a collector's hands if and only if, as
   * the retain succeeds, it is in place or a collector has a copy. What was safe stays safe at every
   * moment, every digest secured before is safe, and without a copy in a collector's hands it comes
   * down to whether the body is in place.
   */
  lemma RetainKeepsRecoverableIff(
    before: seq<Action>, after: seq<Action>, r: RunId, digests: set<Digest>, d: Digest, hash: Body -> Digest)
    requires Run(NOTHING, before, hash).Some?
    requires var s := Run(NOTHING, before, hash).value;
             && RetainSucceeds(s, r, digests) && d in digests && Run(s, after, hash).Some?
             && !EverDrops(s, after, hash, r, d) && !EverStores(s, after, hash, d)
    ensures var s := Run(NOTHING, before, hash).value;
            var t := Run(s, after, hash).value;
            && (Recoverable(t, d) <==> Recoverable(s, d))
            && (Safe(s, d) ==> Safe(t, d)) && ((r, d) in s.secured ==> Safe(s, d))
            && (!Copied(s.collectors, d) ==> (Safe(t, d) <==> d in s.objects))
  {
    hide Run, Step, EverDrops, EverStores, RetainSucceeds;
    assert Inv(NOTHING, hash);
    RunKeepsInv(NOTHING, before, hash);
    var s := Run(NOTHING, before, hash).value;
    var t := Run(s, after, hash).value;
    assert RunOk(s, r);
    RetainedIsReferenced(s, r, digests, d);
    ReferencedRun(s, after, hash, r, d);
    var p := (r, d);
    assert p in s.secured ==> Safe(s, p.1);
    if Safe(t, d) {
      SafeIsRecoverable(t, d);
    }
  }

  lemma RetainedIsReferenced(s: Store, r: RunId, digests: set<Digest>, d: Digest)
    requires RunOk(s, r) && RetainSucceeds(s, r, digests) && d in digests
    ensures (r, d) in s.refs
  {
    assert d in Mine(s.refs, r);
  }

  /** A retain that fails has still secured the digests that met their check. */
  lemma FailedRetainSecuresWhatItMet(s: Store, r: RunId, d: Digest, hash: Body -> Digest)
    requires Inv(s, hash) && WriterOf(s, r).RetainChecking?
    requires d in WriterOf(s, r).added && d !in WriterOf(s, r).todo && d !in WriterOf(s, r).missing
    ensures (r, d) in s.secured && Safe(s, d)
  {
    assert RunOk(s, r);
    assert d in Mine(s.secured, r);
    var p := (r, d);
    assert p in s.secured;
  }

  // ---------------------------------------------------------------- a body put, collected and retained

  lemma RunCons(s: Store, a: Action, t: Store, rest: seq<Action>, hash: Body -> Digest)
    requires Step(s, a, hash) == Some(t)
    ensures Run(s, [a] + rest, hash) == Run(t, rest, hash)
  {
    assert ([a] + rest)[1..] == rest;
  }

  lemma GoTwice(s: Store, r: RunId, v: Writer, w: Writer)
    ensures Go(Go(s, r, v), r, w) == Go(s, r, w)
  {
  }

  /** A run that has put its marker down for one digest and is about to write its list. */
  function Marked(s: Store, r: RunId, d: Digest): Store {
    Go(s, r, RetainListing({d}, {d}, {})).(refs := s.refs + {(r, d)})
  }

  /** A run whose retain of one absent digest has failed. */
  function Failed(s: Store, r: RunId, d: Digest): Store {
    Forget(Go(s, r, Idle).(refs := s.refs + {(r, d)}, lists := s.lists[r := {d}]), r, {d})
  }

  function RetainActions(r: RunId, d: Digest, rest: seq<Action>): seq<Action> {
    var go := Advance(r, d, 0);
    [BeginRetain(r, {d})] + ([go] + ([go] + ([go] + ([go] + ([go] + ([go] + rest))))))
  }

  lemma RetainMarks(s: Store, r: RunId, d: Digest, rest: seq<Action>, hash: Body -> Digest)
    requires WriterOf(s, r).Idle? && ListOf(s, r) == {}
    ensures var go := Advance(r, d, 0);
            Run(s, [BeginRetain(r, {d})] + ([go] + ([go] + ([go] + rest))), hash) == Run(Marked(s, r, d), rest, hash)
  {
    var begin, go := BeginRetain(r, {d}), Advance(r, d, 0);
    var w1, w2, w3 := RetainReading({d}), RetainMarking({d}, {d}, {d}, {}), RetainMarking({d}, {}, {d}, {});
    var s1 := Go(s, r, w1);
    assert {d} - {} == {d} && {d} - {d} == {};
    var s2 := Go(s, r, w2);
    GoTwice(s, r, w1, w2);
    var s3 := Go(s, r, w3).(refs := s.refs + {(r, d)});
    GoTwice(s, r, w2, w3);
    GoTwice(s.(refs := s.refs + {(r, d)}), r, w3, RetainListing({d}, {d}, {}));
    RunCons(s, begin, s1, [go] + ([go] + ([go] + rest)), hash);
    RunCons(s1, go, s2, [go] + ([go] + rest), hash);
    RunCons(s2, go, s3, [go] + rest, hash);
    RunCons(s3, go, Marked(s, r, d), rest, hash);
  }

  lemma RetainMisses(s: Store, r: RunId, d: Digest, rest: seq<Action>, hash: Body -> Digest)
    requires d !in s.objects
    ensures var go := Advance(r, d, 0);
            Run(Marked(s, r, d), [go] + ([go] + ([go] + rest)), hash) == Run(Failed(s, r, d), rest, hash)
  {
    var go := Advance(r, d, 0);
    var b := s.(refs := s.refs + {(r, d)}, lists := s.lists[r := {d}]);
    var w4, w5, w6 := RetainListing({d}, {d}, {}), RetainChecking({d}, {d}, {d}, {}), RetainChecking({d}, {}, {d}, {d});
    assert {} + {d} == {d} && {d} - {d} == {};
    var s5, s6 := Go(b, r, w5), Go(b, r, w6);
    GoTwice(b, r, w4, w5);
    GoTwice(b, r, w5, w6);
    GoTwice(b, r, w6, Idle);
    RunCons(Marked(s, r, d), go, s5, [go] + ([go] + rest), hash);
    RunCons(s5, go, s6, [go] + rest, hash);
    RunCons(s6, go, Failed(s, r, d), rest, hash);
  }

  lemma RetainFails(s: Store, r: RunId, d: Digest, rest: seq<Action>, hash: Body -> Digest)
    requires WriterOf(s, r).Idle? && ListOf(s, r) == {} && d !in s.objects
    ensures Run(s, RetainActions(r, d, rest), hash) == Run(Failed(s, r, d), rest, hash)
  {
    var go := Advance(r, d, 0);
    RetainMarks(s, r, d, [go] + ([go] + ([go] + rest)), hash);
    RetainMisses(s, r, d, rest, hash);
  }

  /** Another run has dropped the digest, and its collector is about to look. */
  function Dropped(q: RunId, d: Digest): Store {
    NOTHING.(lists := map[q := {d}], writers := map[q := ReplaceDropping({}, {})], collectors := map[0 := Collector(d, q, Looking)])
  }

  lemma DropsListed(q: RunId, d: Digest, rest: seq<Action>, hash: Body -> Digest)
    ensures Run(Failed(NOTHING, q, d), [BeginReplace(q, {})] + ([Advance(q, d, 0)] + ([Advance(q, d, 0)] + rest)), hash)
         == Run(Dropped(q, d), rest, hash)
  {
    var begin, go := BeginReplace(q, {}), Advance(q, d, 0);
    var s1 := Failed(NOTHING, q, d);
    assert s1 == NOTHING.(refs := {(q, d)}, lists := map[q := {d}], writers := map[q := Idle]);
    var w1, w2, w3 := ReplaceReading({}), ReplaceDropping({d}, {}), ReplaceDropping({}, {});
    assert {d} - {} == {d} && {d} * {} == {} && {d} - {d} == {};
    var s2, s3 := s1.(writers := map[q := w1]), s1.(writers := map[q := w2]);
    assert map[q := Idle][q := w1] == map[q := w1] && map[q := w1][q := w2] == map[q := w2] && map[q := w2][q := w3] == map[q := w3];
    assert {(q, d)} - {(q, d)} == {};
    RunCons(s1, begin, s2, [go] + ([go] + rest), hash);
    RunCons(s2, go, s3, [go] + rest, hash);
    DropsLast(q, d, s3, hash);
    RunCons(s3, go, Dropped(q, d), rest, hash);
  }

  lemma DropsLast(q: RunId, d: Digest, s: Store, hash: Body -> Digest)
    requires s == NOTHING.(refs := {(q, d)}, lists := map[q := {d}], writers := map[q := ReplaceDropping({d}, {})])
    ensures Step(s, Advance(q, d, 0), hash) == Some(Dropped(q, d))
  {
    var nobody: set<(RunId, Digest)> := {};
    assert {d} - {d} == {} && {(q, d)} - {(q, d)} == nobody && nobody - {(q, d)} == nobody;
    assert s.writers[q := ReplaceDropping({}, {})] == map[q := ReplaceDropping({}, {})];
    assert s.collectors[0 := Collector(d, q, Looking)] == map[0 := Collector(d, q, Looking)];
  }

  lemma OtherRunDrops(q: RunId, d: Digest, rest: seq<Action>, hash: Body -> Digest)
    ensures Run(NOTHING, RetainActions(q, d, [BeginReplace(q, {})] + ([Advance(q, d, 0)] + ([Advance(q, d, 0)] + rest))), hash)
         == Run(Dropped(q, d), rest, hash)
  {
    var drop := [BeginReplace(q, {})] + ([Advance(q, d, 0)] + ([Advance(q, d, 0)] + rest));
    hide RetainActions, Run, Failed, Dropped;
    RetainFails(NOTHING, q, d, drop, hash);
    DropsListed(q, d, rest, hash);
  }

  /** This run has put the body meanwhile. */
  function PutMeanwhile(q: RunId, r: RunId, d: Digest, body: Body): Store {
    Go(Dropped(q, d), r, Idle).(objects := map[d := body], found := {(r, d)})
  }

  lemma RunPuts(q: RunId, r: RunId, d: Digest, body: Body, rest: seq<Action>, hash: Body -> Digest)
    requires q != r && hash(body) == d
    ensures Run(Dropped(q, d), [BeginPut(r, d, body)] + ([Advance(r, d, 0)] + ([Advance(r, d, 0)] + rest)), hash)
         == Run(PutMeanwhile(q, r, d, body), rest, hash)
  {
    var begin, go := BeginPut(r, d, body), Advance(r, d, 0);
    var s := Dropped(q, d);
    var w1, w2 := PutLooking(d, body), PutStoring(d, body);
    GoTwice(s, r, w1, w2);
    GoTwice(s, r, w2, Idle);
    assert {} + {(r, d)} == {(r, d)};
    RunCons(s, begin, Go(s, r, w1), [go] + ([go] + rest), hash);
    RunCons(Go(s, r, w1), go, Go(s, r, w2), [go] + rest, hash);
    RunCons(Go(s, r, w2), go, PutMeanwhile(q, r, d, body), rest, hash);
  }

  /** The collector of the other run has taken the body for good. */
  function Collected(q: RunId, r: RunId, d: Digest, body: Body): Store {
    PutMeanwhile(q, r, d, body).(objects := map[], collectors := map[])
  }

  lemma CollectorTakesIt(q: RunId, r: RunId, d: Digest, body: Body, rest: seq<Action>, hash: Body -> Digest)
    requires q != r
    ensures Run(PutMeanwhile(q, r, d, body), [Collect(0)] + ([Collect(0)] + ([Collect(0)] + ([Collect(0)] + rest))), hash)
         == Run(Collected(q, r, d, body), rest, hash)
  {
    var go := Collect(0);
    var s := PutMeanwhile(q, r, d, body);
    var s1 := s.(collectors := map[0 := Collector(d, q, Reading)]);
    var s2 := s.(collectors := map[0 := Collector(d, q, Deleting(body))]);
    var s3 := s.(objects := map[], collectors := map[0 := Collector(d, q, Relooking(body))]);
    assert map[d := body] - {d} == map[];
    assert s3.collectors - {0} == map[];
    assert !Referenced(s, d) && !Referenced(s3, d);
    assert s.collectors == map[0 := Collector(d, q, Looking)];
    assert s.collectors[0 := Collector(d, q, Reading)] == s1.collectors;
    assert s1.collectors[0 := Collector(d, q, Deleting(body))] == s2.collectors;
    assert s2.collectors[0 := Collector(d, q, Relooking(body))] == s3.collectors;
    RunCons(s, go, s1, [go] + ([go] + ([go] + rest)), hash);
    RunCons(s1, go, s2, [go] + ([go] + rest), hash);
    RunCons(s2, go, s3, [go] + rest, hash);
    RunCons(s3, go, Collected(q, r, d, body), rest, hash);
  }

  /** Another run drops the digest, this run puts its body, the collector takes it, a retain fails, and is tried again. */
  function PutCollectedRetried(q: RunId, r: RunId, d: Digest, body: Body): seq<Action> {
    var drop, put, look := Advance(q, d, 0), Advance(r, d, 0), Collect(0);
    var retried := RetainActions(r, d, [BeginRetain(r, {d})]);
    var collected := [look] + ([look] + ([look] + ([look] + retried)));
    var stored := [BeginPut(r, d, body)] + ([put] + ([put] + collected));
    RetainActions(q, d, [BeginReplace(q, {})] + ([drop] + ([drop] + stored)))
  }

  /**
   * Why the digest must be found again after a failed retain: the body was put, then collected, the
   * retain failed for want of it, and trying that again passes over the digest it had listed and
   * succeeds with the body gone.
   */
  lemma RetryWithoutPutIsUnsafe(q: RunId, r: RunId, d: Digest, body: Body, hash: Body -> Digest)
    requires q != r && hash(body) == d
    ensures var s := Run(NOTHING, PutCollectedRetried(q, r, d, body), hash);
            && s.Some? && RetainSucceeds(s.value, r, {d}) && !Safe(s.value, d)
  {
    var drop, put, look := Advance(q, d, 0), Advance(r, d, 0), Collect(0);
    var retried := RetainActions(r, d, [BeginRetain(r, {d})]);
    var collected := [look] + ([look] + ([look] + ([look] + retried)));
    var stored := [BeginPut(r, d, body)] + ([put] + ([put] + collected));
    hide RetainActions;
    OtherRunDrops(q, d, stored, hash);
    RunPuts(q, r, d, body, collected, hash);
    CollectorTakesIt(q, r, d, body, retried, hash);
    var s4 := Collected(q, r, d, body);
    RetainFails(s4, r, d, [BeginRetain(r, {d})], hash);
    var s5 := Failed(s4, r, d);
    RunCons(s5, BeginRetain(r, {d}), Go(s5, r, RetainReading({d})), [], hash);
    assert [BeginRetain(r, {d})] + [] == [BeginRetain(r, {d})];
  }
}

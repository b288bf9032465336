/**
 * One run's log and snapshot kept outside their blobs: append, snapshot, trim and release, beside
 * other runs and collectors that take bodies out, hold them, and put referenced ones back.
 */
module BlobOffload {
  import opened Common
  import opened Blobs

  /** What is stored, and, as history, the value the caller gave. */
  datatype Entry = Entry(original: Json, stored: Json)

  /**
   * `refs` are the digests of successful retains that the run has not dropped since. `held` are bodies
   * that collectors have taken out and still hold. `values` and `bodies` are history: the values this
   * run has stored under a digest, and every body anybody has stored.
   */
  datatype Stored = Stored(
    log: seq<Entry>, latest: Option<Entry>, refs: set<Digest>, objects: Objects, held: Objects,
    values: set<Json>, bodies: set<Body>)

  /** `fits` says whether an event with this payload is within the byte limit. */
  datatype Options = Options(codec: Codec, threshold: int, fits: Json -> bool)

  /** `all` is the result of the digest worklist in that action. */
  datatype Action =
    | Append(payloads: seq<Json>, all: set<Digest>)
    | RefusedAppend(payloads: seq<Json>, all: set<Digest>)
    | FailedAppend(values: set<Json>)
    | SaveSnapshot(state: Json, newest: bool, all: set<Digest>)
    | Trim(count: nat)
    | Release(all: set<Digest>)
    | Others(objects: Objects, held: Objects)

  /** The bodies of these values. */
  function BodiesOf(c: Codec, values: set<Json>): set<Body> {
    set j | j in values :: c.encode(j)
  }

  /** Each body under its digest; a body already there stays. */
  ghost function PutAll(s: Objects, c: Codec, values: set<Json>): Objects {
    var digests := set j | j in values :: c.digest(c.encode(j));
    map d | d in s.Keys + digests :: if d in s then s[d] else var j :| j in values && c.digest(c.encode(j)) == d; c.encode(j)
  }

  /** The bodies in place and those that collectors hold. */
  function Whole(s: Stored): Objects {
    s.held + s.objects
  }

  function Put(s: Stored, c: Codec, values: set<Json>): Stored {
    s.(values := s.values + values, bodies := s.bodies + BodiesOf(c, values))
  }

  function EntryOf(j: Json, o: Options): Entry {
    Entry(j, OffloadPayload(j, o.codec, o.threshold, o.fits).value)
  }

  function PartsOf(payloads: seq<Json>, o: Options): set<Json> {
    set i, p | 0 <= i < |payloads| && p in OffloadPayload(payloads[i], o.codec, o.threshold, o.fits).parts :: p
  }

  function EntriesOf(payloads: seq<Json>, o: Options): seq<Entry> {
    seq(|payloads|, i requires 0 <= i < |payloads| => EntryOf(payloads[i], o))
  }

  function DigestsOf(entries: seq<Entry>): set<Digest> {
    set i, d | 0 <= i < |entries| && d in DigestsIn(entries[i].stored) :: d
  }

  /** The digests named by the retained events and the latest snapshot. */
  function Seeds(s: Stored): set<Digest> {
    DigestsOf(s.log) + if s.latest.Some? then DigestsIn(s.latest.value.stored) else {}
  }

  /** The store after an append's puts and its successful retain, before the log takes the events. */
  ghost function Retained(s: Stored, payloads: seq<Json>, all: set<Digest>, o: Options): Option<Stored> {
    var parts := PartsOf(payloads, o);
    var objects := PutAll(s.objects, o.codec, parts);
    if Expands(objects, o.codec, DigestsOf(EntriesOf(payloads, o)), all) then
      Some(Put(s, o.codec, parts).(refs := s.refs + all, objects := objects))
    else None
  }

  /**
   * One step, if it can happen; the worklist, and so an append, a save or a release, needs every body it
   * reads in place. Other runs and collectors may take out, hold, put back and store anything, as long
   * as a referenced body stays in place or held: what `BlobStore.RetainedBodyStays` proves of them.
   */
  ghost function Step(s: Stored, a: Action, o: Options): Option<Stored> {
    var c := o.codec;
    match a
    case Append(payloads, all) =>
      (match Retained(s, payloads, all, o)
       case None => None
       case Some(t) => Some(t.(log := s.log + EntriesOf(payloads, o))))
    case RefusedAppend(payloads, all) => Retained(s, payloads, all, o)
    case FailedAppend(values) => Some(Put(s, c, values).(objects := PutAll(s.objects, c, values)))
    case SaveSnapshot(state, newest, all) =>
      var part := OffloadNode(state, c, o.threshold, false);
      var objects := PutAll(s.objects, c, part.parts);
      if Expands(objects, c, DigestsIn(part.value), all) then
        Some(Put(s, c, part.parts).(latest := if newest then Some(Entry(state, part.value)) else s.latest,
                                    refs := s.refs + all, objects := objects))
      else None
    case Trim(count) => if count <= |s.log| then Some(s.(log := s.log[count..])) else None
    case Release(all) => if Expands(s.objects, c, Seeds(s), all) then Some(s.(refs := s.refs * all)) else None
    case Others(objects, held) =>
      if Intact(objects, c) && Intact(held, c) && (forall d :: d in s.refs && d in Whole(s) ==> d in objects || d in held)
      then Some(s.(objects := objects, held := held, bodies := s.bodies + objects.Values + held.Values))
      else None
  }

  predicate Intact(objects: Objects, c: Codec) {
    forall d :: d in objects ==> c.digest(objects[d]) == d
  }

  /** The caller gave no value of the reserved shape. */
  predicate Plain(a: Action) {
    match a
    case Append(payloads, _) => forall i :: 0 <= i < |payloads| ==> ClaimFree(payloads[i])
    case SaveSnapshot(state, _, _) => ClaimFree(state)
    case _ => true
  }

  /** Of the values this run stored and the bodies anybody stored: they encode, and no two collide. */
  predicate Good(s: Stored, c: Codec) {
    Encodes(c, s.values) && CollisionFree(c, s.bodies)
  }

  /** The references are loadable and hold every digest their bodies name. */
  ghost predicate Closed(refs: set<Digest>, objects: Objects, c: Codec) {
    forall d :: d in refs ==> Load(objects, c, d).Some? && Children(objects, c, d) <= refs
  }

  predicate Resolves(e: Entry, objects: Objects, c: Codec) {
    ResolveJson(e.stored, objects, c) == Some(e.original)
  }

  /** Bodies are under their own digests, and all of them are in the history. */
  predicate BodiesOk(s: Stored, c: Codec) {
    && Intact(s.objects, c) && Intact(s.held, c) && BodiesOf(c, s.values) <= s.bodies
    && s.objects.Values <= s.bodies && s.held.Values <= s.bodies
  }

  ghost predicate Inv(s: Stored, c: Codec) {
    && BodiesOk(s, c) && Closed(s.refs, Whole(s), c) && Seeds(s) <= s.refs
    && (forall i :: 0 <= i < |s.log| ==> Resolves(s.log[i], Whole(s), c))
    && (s.latest.Some? ==> Resolves(s.latest.value, Whole(s), c))
  }

  lemma PutAllStores(s: Stored, c: Codec, values: set<Json>)
    requires BodiesOk(s, c) && Good(Put(s, c, values), c)
    ensures var t := PutAll(s.objects, c, values);
            && Intact(t, c) && Stores(t, c, values) && s.objects.Keys <= t.Keys && t.Values <= Put(s, c, values).bodies
            && forall d :: d in s.objects ==> t[d] == s.objects[d]
  {
    var t := PutAll(s.objects, c, values);
    forall d | d in t ensures c.digest(t[d]) == d && t[d] in Put(s, c, values).bodies {
      if d in s.objects {
        assert s.objects[d] in s.objects.Values;
      }
    }
    forall j | j in values ensures t[c.digest(c.encode(j))] == c.encode(j) {
      assert c.encode(j) in BodiesOf(c, values);
    }
  }

  /** Content addressing: intact stores without collisions hold the same body under a digest. */
  lemma SameBodies(s: Objects, t: Objects, c: Codec, refs: set<Digest>, bodies: set<Body>)
    requires Intact(s, c) && Intact(t, c) && s.Values <= bodies && t.Values <= bodies && CollisionFree(c, bodies)
    requires Closed(refs, s, c) && forall d :: d in refs ==> d in t
    ensures forall d :: d in refs ==> Load(t, c, d) == Load(s, c, d)
    ensures Closed(refs, t, c)
  {
    forall d | d in refs ensures Load(t, c, d) == Load(s, c, d) {
      assert Load(s, c, d).Some?;
      assert s[d] in s.Values && t[d] in t.Values;
      assert c.digest(s[d]) == c.digest(t[d]);
    }
  }

  lemma ExpandsClosed(s: Objects, c: Codec, seeds: set<Digest>, all: set<Digest>)
    requires Expands(s, c, seeds, all)
    ensures seeds <= all && Closed(all, s, c)
  {
    forall d | d in seeds ensures d in all {
      SeedReachable(s, c, seeds, d);
    }
    forall d, e | d in all && e in Children(s, c, d) ensures e in all {
      ChildReachable(s, c, seeds, d, e);
    }
  }

  /** Both stores of bodies, seen as one. */
  lemma WholeFacts(s: Stored, c: Codec)
    requires BodiesOk(s, c)
    ensures Intact(Whole(s), c) && Whole(s).Values <= s.bodies
    ensures forall d :: d in s.objects ==> d in Whole(s) && Load(Whole(s), c, d) == Load(s.objects, c, d)
  {
    forall b | b in Whole(s).Values ensures b in s.bodies {
      var d :| d in Whole(s) && Whole(s)[d] == b;
      assert if d in s.objects then b in s.objects.Values else b in s.held.Values;
    }
  }

  /** What is closed among the bodies in place is closed among all. */
  lemma ClosedInWhole(s: Stored, c: Codec, refs: set<Digest>)
    requires BodiesOk(s, c) && Closed(refs, s.objects, c)
    ensures Closed(refs, Whole(s), c)
  {
    WholeFacts(s, c);
    forall d | d in refs ensures Load(Whole(s), c, d) == Load(s.objects, c, d) {
      LoadedIsStored(s.objects, c, d);
    }
  }

  /** Whatever already resolved still does in a store that has lost no referenced body. */
  lemma OldEntriesStay(s: Stored, t: Stored, c: Codec)
    requires Inv(s, c) && BodiesOk(t, c) && CollisionFree(c, t.bodies) && s.bodies <= t.bodies
    requires forall d :: d in s.refs && d in Whole(s) ==> d in Whole(t)
    ensures Closed(s.refs, Whole(t), c)
    ensures forall i :: 0 <= i < |s.log| ==> Resolves(s.log[i], Whole(t), c)
    ensures s.latest.Some? ==> Resolves(s.latest.value, Whole(t), c)
  {
    hide BodiesOk, CollisionFree, Whole, ResolveNode, DigestsIn;
    RefsStored(s, c);
    WholeFacts(s, c);
    WholeFacts(t, c);
    SameBodies(Whole(s), Whole(t), c, s.refs, t.bodies);
    forall i | 0 <= i < |s.log| ensures Resolves(s.log[i], Whole(t), c) {
      assert DigestsIn(s.log[i].stored) <= DigestsOf(s.log);
      ResolveReadsReachable(s.log[i].stored, Whole(s), Whole(t), c, {}, s.refs);
    }
    if s.latest.Some? {
      ResolveReadsReachable(s.latest.value.stored, Whole(s), Whole(t), c, {}, s.refs);
    }
  }

  lemma RefsStored(s: Stored, c: Codec)
    requires Closed(s.refs, Whole(s), c)
    ensures s.refs <= Whole(s).Keys
  {
    forall d | d in s.refs ensures d in Whole(s) {
      LoadedIsStored(Whole(s), c, d);
    }
  }

  lemma ClosedJoin(a: set<Digest>, b: set<Digest>, objects: Objects, c: Codec)
    requires Closed(a, objects, c) && Closed(b, objects, c)
    ensures Closed(a + b, objects, c)
  {
  }

  /** Putting values keeps what the store already satisfied. */
  lemma PutKeeps(s: Stored, c: Codec, values: set<Json>)
    requires Inv(s, c) && Good(Put(s, c, values), c)
    ensures var t := Put(s, c, values).(objects := PutAll(s.objects, c, values));
            && Inv(t, c) && Stores(Whole(t), c, values) && Stores(t.objects, c, values)
  {
    var t := Put(s, c, values).(objects := PutAll(s.objects, c, values));
    PutAllStores(s, c, values);
    PutBodiesOk(s, c, values);
    hide BodiesOk, PutAll, Resolves, Closed, Intact;
    OldEntriesStay(s, t, c);
    assert Seeds(t) == Seeds(s);
  }

  lemma PutBodiesOk(s: Stored, c: Codec, values: set<Json>)
    requires BodiesOk(s, c) && Good(Put(s, c, values), c)
    ensures BodiesOk(Put(s, c, values).(objects := PutAll(s.objects, c, values)), c)
  {
    PutAllStores(s, c, values);
    hide PutAll;
  }

  /** Adding references that are closed among the bodies in place. */
  lemma RefsGrow(s: Stored, c: Codec, all: set<Digest>)
    requires Inv(s, c) && Closed(all, s.objects, c)
    ensures Inv(s.(refs := s.refs + all), c)
  {
    ClosedInWhole(s, c, all);
    ClosedJoin(s.refs, all, Whole(s), c);
    var t := s.(refs := s.refs + all);
    assert Whole(t) == Whole(s) && Seeds(t) == Seeds(s);
    hide Closed, Resolves;
  }

  lemma RetainedKeeps(s: Stored, payloads: seq<Json>, all: set<Digest>, o: Options)
    requires Inv(s, o.codec) && Retained(s, payloads, all, o).Some? && Good(Retained(s, payloads, all, o).value, o.codec)
    ensures var t := Retained(s, payloads, all, o).value;
            && Inv(t, o.codec) && Stores(Whole(t), o.codec, PartsOf(payloads, o)) && Encodes(o.codec, PartsOf(payloads, o))
            && DigestsOf(EntriesOf(payloads, o)) <= t.refs
  {
    var c, parts := o.codec, PartsOf(payloads, o);
    var p := Put(s, c, parts).(objects := PutAll(s.objects, c, parts));
    hide Inv, Closed;
    PutKeeps(s, c, parts);
    ExpandsClosed(p.objects, c, DigestsOf(EntriesOf(payloads, o)), all);
    RefsGrow(p, c, all);
  }

  lemma NewEntriesResolve(payloads: seq<Json>, objects: Objects, o: Options)
    requires forall i :: 0 <= i < |payloads| ==> ClaimFree(payloads[i])
    requires Stores(objects, o.codec, PartsOf(payloads, o)) && Encodes(o.codec, PartsOf(payloads, o))
    ensures forall i :: 0 <= i < |payloads| ==> Resolves(EntriesOf(payloads, o)[i], objects, o.codec)
  {
    forall i | 0 <= i < |payloads| ensures Resolves(EntriesOf(payloads, o)[i], objects, o.codec) {
      assert OffloadPayload(payloads[i], o.codec, o.threshold, o.fits).parts <= PartsOf(payloads, o);
      PayloadRoundTrip(payloads[i], objects, o.codec, o.threshold, o.fits);
    }
  }

  lemma AppendKeeps(s: Stored, payloads: seq<Json>, all: set<Digest>, o: Options)
    requires Inv(s, o.codec) && Plain(Append(payloads, all)) && Step(s, Append(payloads, all), o).Some?
    requires Good(Step(s, Append(payloads, all), o).value, o.codec)
    ensures Inv(Step(s, Append(payloads, all), o).value, o.codec)
  {
    var r, added := Retained(s, payloads, all, o).value, EntriesOf(payloads, o);
    RetainedKeeps(s, payloads, all, o);
    NewEntriesResolve(payloads, Whole(r), o);
    hide Retained, Resolves, Closed, BodiesOk, DigestsIn;
    var t := r.(log := r.log + added);
    assert s.log == r.log by {
      RetainedKeepsLog(s, payloads, all, o);
    }
    assert Whole(t) == Whole(r) && DigestsOf(t.log) <= DigestsOf(r.log) + DigestsOf(added);
  }

  lemma RetainedKeepsLog(s: Stored, payloads: seq<Json>, all: set<Digest>, o: Options)
    requires Retained(s, payloads, all, o).Some?
    ensures Retained(s, payloads, all, o).value.log == s.log
  {
  }

  lemma SaveKeeps(s: Stored, state: Json, newest: bool, all: set<Digest>, o: Options)
    requires Inv(s, o.codec) && ClaimFree(state) && Step(s, SaveSnapshot(state, newest, all), o).Some?
    requires Good(Step(s, SaveSnapshot(state, newest, all), o).value, o.codec)
    ensures Inv(Step(s, SaveSnapshot(state, newest, all), o).value, o.codec)
  {
    var c := o.codec;
    var part := OffloadNode(state, c, o.threshold, false);
    var p := Put(s, c, part.parts).(objects := PutAll(s.objects, c, part.parts));
    var r := p.(refs := p.refs + all);
    hide Inv, Closed, OffloadNode, PutAll, Stores, CollisionFree, DigestsIn;
    assert Expands(p.objects, c, DigestsIn(part.value), all);
    assert Step(s, SaveSnapshot(state, newest, all), o).value == if newest then r.(latest := Some(Entry(state, part.value))) else r;
    hide Step;
    PutKeeps(s, c, part.parts);
    ExpandsClosed(p.objects, c, DigestsIn(part.value), all);
    RefsGrow(p, c, all);
    if newest {
      OffloadThenResolve(state, Whole(r), c, o.threshold, false, {});
      LatestReplaced(r, Entry(state, part.value), c);
    }
  }

  lemma LatestReplaced(s: Stored, e: Entry, c: Codec)
    requires Inv(s, c) && Resolves(e, Whole(s), c) && DigestsIn(e.stored) <= s.refs
    ensures Inv(s.(latest := Some(e)), c)
  {
    hide Closed, Resolves, Intact, DigestsIn;
    assert Whole(s.(latest := Some(e))) == Whole(s);
  }

  lemma OthersKeep(s: Stored, objects: Objects, held: Objects, o: Options)
    requires Inv(s, o.codec) && Step(s, Others(objects, held), o).Some?
    requires Good(Step(s, Others(objects, held), o).value, o.codec)
    ensures Inv(Step(s, Others(objects, held), o).value, o.codec)
  {
    hide Resolves, Closed, DigestsIn;
    var t := Step(s, Others(objects, held), o).value;
    OldEntriesStay(s, t, o.codec);
    assert Seeds(t) == Seeds(s);
  }

  lemma ReleaseKeeps(s: Stored, all: set<Digest>, o: Options)
    requires Inv(s, o.codec) && Expands(s.objects, o.codec, Seeds(s), all)
    ensures Inv(s.(refs := s.refs * all), o.codec)
  {
    var c := o.codec;
    ExpandsClosed(s.objects, c, Seeds(s), all);
    ClosedInWhole(s, c, all);
    var t := s.(refs := s.refs * all);
    assert Whole(t) == Whole(s) && Seeds(t) == Seeds(s);
    hide Resolves, BodiesOk, DigestsIn, Expands;
  }

  lemma StepKeeps(s: Stored, a: Action, o: Options)
    requires Inv(s, o.codec) && Plain(a) && Step(s, a, o).Some? && Good(Step(s, a, o).value, o.codec)
    ensures Inv(Step(s, a, o).value, o.codec)
  {
    hide Inv, Good, Retained, Expands;
    match a
    case Append(payloads, all) => AppendKeeps(s, payloads, all, o);
    case RefusedAppend(payloads, all) => RetainedKeeps(s, payloads, all, o);
    case FailedAppend(values) =>
      SameHistory(Put(s, o.codec, values), Step(s, a, o).value, o.codec);
      PutKeeps(s, o.codec, values);
    case SaveSnapshot(state, newest, all) => SaveKeeps(s, state, newest, all, o);
    case Trim(count) => TrimKeeps(s, count, o);
    case Release(all) => ReleaseKeeps(s, all, o);
    case Others(objects, held) => OthersKeep(s, objects, held, o);
  }

  lemma SameHistory(s: Stored, t: Stored, c: Codec)
    requires t.values == s.values && t.bodies == s.bodies
    ensures Good(t, c) == Good(s, c)
  {
  }

  lemma TrimKeeps(s: Stored, count: nat, o: Options)
    requires Inv(s, o.codec) && count <= |s.log|
    ensures Inv(s.(log := s.log[count..]), o.codec)
  {
    hide Resolves, Intact, DigestsIn, Closed;
    var t := s.(log := s.log[count..]);
    assert Whole(t) == Whole(s);
    assert forall i :: 0 <= i < |t.log| ==> t.log[i] == s.log[count + i];
    assert DigestsOf(t.log) <= DigestsOf(s.log);
  }

  /** The store after actions that can each happen in turn. */
  ghost function Run(s: Stored, actions: seq<Action>, o: Options): Option<Stored>
    decreases |actions|
  {
    if actions == [] then Some(s) else
    match Step(s, actions[0], o)
    case None => None
    case Some(next) => Run(next, actions[1..], o)
  }

  const NOTHING := Stored([], None, {}, map[], map[], {}, {})

  /** History only grows, so what holds of all of it held of its beginning. */
  lemma StepGrows(s: Stored, a: Action, o: Options)
    requires Step(s, a, o).Some?
    ensures s.values <= Step(s, a, o).value.values && s.bodies <= Step(s, a, o).value.bodies
  {
    hide PutAll, Expands, Whole, Intact;
  }

  lemma {:induction false} RunGrows(s: Stored, actions: seq<Action>, o: Options)
    requires Run(s, actions, o).Some?
    ensures s.values <= Run(s, actions, o).value.values && s.bodies <= Run(s, actions, o).value.bodies
    ensures Good(Run(s, actions, o).value, o.codec) ==> Good(s, o.codec)
    decreases |actions|
  {
    if actions != [] {
      hide Step, Good;
      StepGrows(s, actions[0], o);
      RunGrows(Step(s, actions[0], o).value, actions[1..], o);
    }
    EarlierGood(s, Run(s, actions, o).value, o.codec);
  }

  lemma EarlierGood(s: Stored, t: Stored, c: Codec)
    requires s.values <= t.values && s.bodies <= t.bodies
    ensures Good(t, c) ==> Good(s, c)
  {
  }

  lemma {:induction false} RunKeeps(s: Stored, actions: seq<Action>, o: Options)
    requires Inv(s, o.codec) && Run(s, actions, o).Some? && Good(Run(s, actions, o).value, o.codec)
    requires forall a :: a in actions ==> Plain(a)
    ensures Inv(Run(s, actions, o).value, o.codec)
    decreases |actions|
  {
    if actions != [] {
      hide Step, Inv, Plain, Good;
      var next := Step(s, actions[0], o).value;
      assert forall a :: a in actions[1..] ==> a in actions;
      RunGrows(next, actions[1..], o);
      StepKeeps(s, actions[0], o);
      RunKeeps(next, actions[1..], o);
    }
  }

  /**
   * After any run of appends, refused and failed appends, snapshots, trims and releases, with anything
   * other runs and collectors may do in between, every retained event and the latest snapshot resolve
   * to what the caller gave from the bodies in place and those held on their way back.
   */
  lemma RetainedEventsResolve(actions: seq<Action>, o: Options)
    requires Run(NOTHING, actions, o).Some? && Good(Run(NOTHING, actions, o).value, o.codec)
    requires forall a :: a in actions ==> Plain(a)
    ensures var s := Run(NOTHING, actions, o).value;
            && (forall i :: 0 <= i < |s.log| ==> ResolveJson(s.log[i].stored, Whole(s), o.codec) == Some(s.log[i].original))
            && (s.latest.Some? ==> ResolveJson(s.latest.value.stored, Whole(s), o.codec) == Some(s.latest.value.original))
  {
    hide Run, Plain, ResolveJson, Good;
    assert Inv(NOTHING, o.codec);
    RunKeeps(NOTHING, actions, o);
  }

  /** From the bodies in place alone it resolves exactly when none that it reaches is out. */
  lemma ResolvesInPlaceIffNothingOut(actions: seq<Action>, o: Options, i: nat)
    requires Run(NOTHING, actions, o).Some? && Good(Run(NOTHING, actions, o).value, o.codec)
    requires (forall a :: a in actions ==> Plain(a)) && i < |Run(NOTHING, actions, o).value.log|
    ensures var s := Run(NOTHING, actions, o).value;
            var e := s.log[i];
            ResolveJson(e.stored, s.objects, o.codec) == Some(e.original)
            <==> forall d :: Reachable(Whole(s), o.codec, DigestsIn(e.stored), d) ==> d in s.objects
  {
    hide Run, Plain, Good;
    assert Inv(NOTHING, o.codec);
    RunKeeps(NOTHING, actions, o);
    var s := Run(NOTHING, actions, o).value;
    EntryInPlace(s, i, o.codec);
  }

  lemma EntryInPlace(s: Stored, i: nat, c: Codec)
    requires Inv(s, c) && i < |s.log|
    ensures var e := s.log[i];
            ResolveJson(e.stored, s.objects, c) == Some(e.original)
            <==> forall d :: Reachable(Whole(s), c, DigestsIn(e.stored), d) ==> d in s.objects
  {
    hide ResolveNode, DigestsIn, Closed, BodiesOk, Whole, Load;
    var e := s.log[i];
    WholeFacts(s, c);
    LoadedIn(s, c);
    if ResolveJson(e.stored, s.objects, c) == Some(e.original) {
      assert ResolveNode(e.stored, s.objects, c, {}).Some?;
      forall d | Reachable(Whole(s), c, DigestsIn(e.stored), d) ensures d in s.objects {
        ResolvedHasAllItReaches(e.stored, s.objects, Whole(s), c, d);
      }
    }
    if forall d :: Reachable(Whole(s), c, DigestsIn(e.stored), d) ==> d in s.objects {
      ReachedIsEnough(s, e, c);
    }
  }

  lemma LoadedIn(s: Stored, c: Codec)
    ensures forall d :: Load(s.objects, c, d).Some? ==> d in s.objects
  {
  }

  lemma ReachedIsEnough(s: Stored, e: Entry, c: Codec)
    requires Inv(s, c) && Resolves(e, Whole(s), c) && DigestsIn(e.stored) <= s.refs
    requires forall d :: Reachable(Whole(s), c, DigestsIn(e.stored), d) ==> d in s.objects
    ensures Resolves(e, s.objects, c)
  {
    hide ResolveNode, DigestsIn, BodiesOk, Whole, Load;
    WholeFacts(s, c);
    var all := set d | d in s.refs && Reachable(Whole(s), c, DigestsIn(e.stored), d);
    forall d | d in DigestsIn(e.stored) ensures d in all {
      SeedReachable(Whole(s), c, DigestsIn(e.stored), d);
    }
    forall d, child | d in all && child in Children(Whole(s), c, d) ensures child in all {
      ChildReachable(Whole(s), c, DigestsIn(e.stored), d, child);
    }
    ResolveReadsReachable(e.stored, Whole(s), s.objects, c, {}, all);
  }

  /** Releasing keeps exactly what the retained events and the latest snapshot reach. */
  lemma ReleaseKeepsExactlyReachable(s: Stored, all: set<Digest>, o: Options)
    requires Inv(s, o.codec) && Step(s, Release(all), o).Some?
    ensures forall d :: d in Step(s, Release(all), o).value.refs <==> Reachable(Whole(s), o.codec, Seeds(s), d)
  {
    var c := o.codec;
    ExpandsClosed(s.objects, c, Seeds(s), all);
    ClosedInWhole(s, c, all);
    hide ResolveNode, DigestsIn, BodiesOk, Load;
    forall d | Reachable(Whole(s), c, Seeds(s), d) ensures d in all && d in s.refs {
      ClosedHoldsReachable(Whole(s), c, Seeds(s), all, d);
      ClosedHoldsReachable(Whole(s), c, Seeds(s), s.refs, d);
    }
    WholeFacts(s, c);
    forall d | d in all ensures Reachable(Whole(s), c, Seeds(s), d) {
      assert Reachable(s.objects, c, Seeds(s), d);
      SameChain(s, c, all, d);
    }
  }

  lemma SameChain(s: Stored, c: Codec, all: set<Digest>, d: Digest)
    requires BodiesOk(s, c) && Closed(all, s.objects, c) && Seeds(s) <= all && Reachable(s.objects, c, Seeds(s), d)
    ensures Reachable(Whole(s), c, Seeds(s), d)
  {
    hide ResolveNode, DigestsIn, BodiesOk, Whole;
    WholeFacts(s, c);
    var path :| Chain(s.objects, c, Seeds(s), path) && path[|path| - 1] == d;
    forall i | 0 < i < |path| ensures path[i] in Children(Whole(s), c, path[i - 1]) {
      assert path[i] in Children(s.objects, c, path[i - 1]);
      LoadedIsStored(s.objects, c, path[i - 1]);
      LoadedIsStored(Whole(s), c, path[i - 1]);
    }
    assert Chain(Whole(s), c, Seeds(s), path);
  }

  /** What the results above suppose can be met: an append whose string is moved, with a codec that fits. */
  lemma RunIsPossible(x: string, y: string)
    requires x != y
    ensures var o := Options(TwoStrings(x, y), 0, _ => true);
            var a := Append([Str(x)], {Hex('a')});
            && Plain(a) && Run(NOTHING, [a], o).Some? && Good(Run(NOTHING, [a], o).value, o.codec)
            && |Run(NOTHING, [a], o).value.log| == 1 && Run(NOTHING, [a], o).value.values == {Str(x)}
  {
    var o := Options(TwoStrings(x, y), 0, _ => true);
    var a := Append([Str(x)], {Hex('a')});
    StringIsNoClaim(x);
    assert Plain(a);
    FirstAppendStores(x, y, o);
    FirstAppendExpands(x, y, o);
    FirstAppend(Str(x), Hex('a'), [0], o);
    EntriesCounted([Str(x)], o);
    hide TwoStrings, EntriesOf, Hex, Encodes, CollisionFree, Plain, Step;
    var t := Step(NOTHING, a, o).value;
    assert [a][1..] == [] && Run(t, [], o) == Some(t);
  }

  lemma FirstAppend(j: Json, d: Digest, body: Body, o: Options)
    requires PartsOf([j], o) == {j} && PutAll(map[], o.codec, {j}) == map[d := body] && BodiesOf(o.codec, {j}) == {body}
    requires Expands(map[d := body], o.codec, DigestsOf(EntriesOf([j], o)), {d})
    ensures Step(NOTHING, Append([j], {d}), o)
         == Some(Stored(EntriesOf([j], o), None, {d}, map[d := body], map[], {j}, {body}))
  {
    hide Expands, PutAll, DigestsOf, EntriesOf, BodiesOf, PartsOf;
    assert {} + {d} == {d} && {} + {j} == {j} && {} + {body} == {body} && [] + EntriesOf([j], o) == EntriesOf([j], o);
  }

  lemma EntriesCounted(payloads: seq<Json>, o: Options)
    ensures |EntriesOf(payloads, o)| == |payloads|
  {
  }

  /** What a first append of a moved string puts. */
  lemma FirstAppendStores(x: string, y: string, o: Options)
    requires x != y && o.codec == TwoStrings(x, y) && o.threshold == 0 && o.fits(PutJson(Str(x), o.codec).value)
    ensures PartsOf([Str(x)], o) == {Str(x)} && PutAll(map[], o.codec, {Str(x)}) == map[Hex('a') := [0]]
    ensures BodiesOf(o.codec, {Str(x)}) == {[0]} && Encodes(o.codec, {Str(x)}) && CollisionFree(o.codec, {[0]})
  {
    var c := o.codec;
    TwoBodiesFit(x, y);
    assert c.encode(Str(x)) == [0] && c.digest([0]) == Hex('a');
    hide IsBlobRef, OffloadNode, TwoStrings, Hex, PutAll;
    FirstParts(x, o);
    OneBody(c, Str(x));
    assert forall j :: j in {Str(x)} ==> c.encode(j) == [0];
    assert Str(x) in {Str(x)};
  }

  lemma FirstParts(x: string, o: Options)
    requires o.codec.size(Str(x)) > 0 && o.threshold == 0 && o.fits(PutJson(Str(x), o.codec).value)
    ensures PartsOf([Str(x)], o) == {Str(x)}
  {
    StringMoves(x, o.codec);
    hide OffloadNode, PutJson;
    assert OffloadPayload(Str(x), o.codec, 0, o.fits) == PutJson(Str(x), o.codec);
    assert [Str(x)][0] == Str(x);
    assert Str(x) in PartsOf([Str(x)], o);
  }

  lemma OneBody(c: Codec, j: Json)
    ensures PutAll(map[], c, {j}) == map[c.digest(c.encode(j)) := c.encode(j)]
  {
    var digests := set x | x in {j} :: c.digest(c.encode(x));
    assert j in {j};
    assert digests == {c.digest(c.encode(j))};
  }

  lemma FirstAppendExpands(x: string, y: string, o: Options)
    requires x != y && o.codec == TwoStrings(x, y) && o.threshold == 0 && o.fits(PutJson(Str(x), o.codec).value)
    ensures Expands(map[Hex('a') := [0]], o.codec, DigestsOf(EntriesOf([Str(x)], o)), {Hex('a')})
  {
    var c := o.codec;
    var objects: Objects := map[Hex('a') := [0]];
    var seeds := DigestsOf(EntriesOf([Str(x)], o));
    StringMoves(x, c);
    TwoBodiesFit(x, y);
    assert Str(x) in {Str(x), Str(y)};
    BlobRefIsBlobRef(Hex('a'), 1);
    var entry := EntriesOf([Str(x)], o)[0];
    assert entry.stored == BlobRef(Hex('a'), 1);
    assert DigestsIn(entry.stored) == {Hex('a')};
    assert seeds == {Hex('a')};
    SeedReachable(objects, c, seeds, Hex('a'));
    StringIsNoClaim(x);
    assert Load(objects, c, Hex('a')) == Some(Str(x)) && Children(objects, c, Hex('a')) == {};
    forall d | Reachable(objects, c, seeds, d) ensures d in {Hex('a')} {
      ClosedHoldsReachable(objects, c, seeds, {Hex('a')}, d);
    }
  }
}

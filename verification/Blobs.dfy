/** Claim checks: large strings move to blobs and come back, and references keep their blobs alive. */
module Blobs {
  import opened Common

  type Digest = string
  type Body = seq<int>

  /** How JSON becomes bytes and bytes become a digest. `size` is the UTF-8 length of the JSON text. */
  datatype Codec = Codec(encode: Json -> Body, decode: Body -> Option<Json>, digest: Body -> Digest, size: Json -> nat)

  predicate IsHex(ch: char) {
    '0' <= ch <= '9' || 'a' <= ch <= 'f'
  }

  predicate IsSha256Digest(s: string) {
    |s| == 64 && forall i :: 0 <= i < 64 ==> IsHex(s[i])
  }

  /** On these values encoding round-trips, and the digest of the encoding looks like one. */
  predicate Encodes(c: Codec, values: set<Json>) {
    forall j :: j in values ==> c.decode(c.encode(j)) == Some(j) && IsSha256Digest(c.digest(c.encode(j)))
  }

  /** No two of these bodies share a digest. */
  predicate CollisionFree(c: Codec, bodies: set<Body>) {
    forall a, b :: a in bodies && b in bodies && c.digest(a) == c.digest(b) ==> a == b
  }

  const BLOB_KIND: string := "blob"
  const BLOB_MEDIA_TYPE: string := "application/json"

  function BlobRef(sha256: Digest, bytes: int): Json {
    Obj(map[KLooms := Str(BLOB_KIND), KSha256 := Str(sha256), KBytes := Num(bytes), KMediaType := Str(BLOB_MEDIA_TYPE)])
  }

  predicate IsBlobRef(j: Json) {
    && j.Obj? && |j.fields| == 4
    && Field(j, KLooms) == Some(Str(BLOB_KIND))
    && ReadString(j, KSha256).Some? && IsSha256Digest(ReadString(j, KSha256).value)
    && ReadNumber(j, KBytes).Some? && ReadNumber(j, KBytes).value >= 0
    && Field(j, KMediaType) == Some(Str(BLOB_MEDIA_TYPE))
  }

  function DigestOf(j: Json): Digest
    requires IsBlobRef(j)
  {
    ReadString(j, KSha256).value
  }

  /** A value, and the values whose bodies it needs stored. */
  datatype Claimed = Claimed(value: Json, parts: set<Json>)

  function PutJson(j: Json, c: Codec): Claimed {
    var body := c.encode(j);
    Claimed(BlobRef(c.digest(body), |body|), {j})
  }

  function StoreIfOver(j: Json, c: Codec, threshold: int, claim: bool): Claimed {
    if !claim || !j.Str? || c.size(j) <= threshold then Claimed(j, {}) else PutJson(j, c)
  }

  /** Strings over the threshold become references; arrays and objects stay in place. */
  function OffloadNode(j: Json, c: Codec, threshold: int, claim: bool): Claimed
    decreases j
  {
    if IsBlobRef(j) then Claimed(j, {}) else
    match j
    case Arr(items) =>
      Claimed(Arr(seq(|items|, i requires 0 <= i < |items| => OffloadNode(items[i], c, threshold, true).value)),
              set i, p | 0 <= i < |items| && p in OffloadNode(items[i], c, threshold, true).parts :: p)
    case Obj(fields) =>
      Claimed(Obj(map k | k in fields :: OffloadNode(fields[k], c, threshold, true).value),
              set k, p | k in fields && p in OffloadNode(fields[k], c, threshold, true).parts :: p)
    case _ => StoreIfOver(j, c, threshold, claim)
  }

  type Objects = map<Digest, Body>

  /** `get` followed by decoding: absent when the body is missing, corrupt or not JSON. */
  function Load(s: Objects, c: Codec, d: Digest): Option<Json> {
    if d in s && c.digest(s[d]) == d then c.decode(s[d]) else None
  }

  /** `seen` holds the references being resolved around this node; meeting one again is an error. */
  function ResolveNode(j: Json, s: Objects, c: Codec, seen: set<Digest>): Option<Json>
    decreases s.Keys - seen, j
  {
    if IsBlobRef(j) then
      var d := DigestOf(j);
      if d in seen || Load(s, c, d).None? then None else
      assert d in s.Keys - seen;
      ResolveNode(Load(s, c, d).value, s, c, seen + {d})
    else
      match j
      case Arr(items) =>
        if forall i :: 0 <= i < |items| ==> ResolveNode(items[i], s, c, seen).Some? then
          Some(Arr(seq(|items|, i requires 0 <= i < |items| => ResolveNode(items[i], s, c, seen).value)))
        else None
      case Obj(fields) =>
        if forall k :: k in fields ==> ResolveNode(fields[k], s, c, seen).Some? then
          Some(Obj(map k | k in fields :: ResolveNode(fields[k], s, c, seen).value))
        else None
      case _ => Some(j)
  }

  function ResolveJson(j: Json, s: Objects, c: Codec): Option<Json> {
    ResolveNode(j, s, c, {})
  }

  // ---------------------------------------------------------------- offload then resolve

  /** No object anywhere in `j` has the reserved shape. */
  predicate ClaimFree(j: Json) {
    !IsBlobRef(j) &&
    match j
    case Arr(items) => forall i :: 0 <= i < |items| ==> ClaimFree(items[i])
    case Obj(fields) => forall k :: k in fields ==> ClaimFree(fields[k])
    case _ => true
  }

  predicate Stores(s: Objects, c: Codec, values: set<Json>) {
    forall j :: j in values ==> c.digest(c.encode(j)) in s && s[c.digest(c.encode(j))] == c.encode(j)
  }

  /** None of these values is the one of a reference being resolved. */
  predicate NoneSeen(c: Codec, values: set<Json>, seen: set<Digest>) {
    forall j :: j in values ==> c.digest(c.encode(j)) !in seen
  }

  lemma BlobRefIsBlobRef(d: Digest, bytes: nat)
    requires IsSha256Digest(d)
    ensures IsBlobRef(BlobRef(d, bytes)) && DigestOf(BlobRef(d, bytes)) == d
  {
    var fields := BlobRef(d, bytes).fields;
    assert fields.Keys == {KLooms, KSha256, KBytes, KMediaType};
    assert |fields| == |fields.Keys| == 4;
  }

  /** What offloading leaves as a string or a number it has left alone. */
  lemma PlainPartsKept(j: Json, c: Codec, threshold: int, claim: bool)
    ensures var part := OffloadNode(j, c, threshold, claim).value; part.Obj? || part.Arr? || part == j
  {
    hide IsBlobRef;
  }

  /** Offloading children never turns a caller's object into a reference: a moved string leaves a non-string. */
  lemma OffloadKeepsShape(fields: map<Key, Json>, next: map<Key, Json>, c: Codec, threshold: int)
    requires next.Keys == fields.Keys
    requires forall k :: k in fields ==> next[k] == OffloadNode(fields[k], c, threshold, true).value
    requires IsBlobRef(Obj(next))
    ensures IsBlobRef(Obj(fields))
  {
    hide OffloadNode, IsSha256Digest;
    assert |next| == |next.Keys| == |fields.Keys| == |fields|;
    PlainPartsKept(fields[KLooms], c, threshold, true);
    PlainPartsKept(fields[KSha256], c, threshold, true);
    PlainPartsKept(fields[KBytes], c, threshold, true);
    PlainPartsKept(fields[KMediaType], c, threshold, true);
  }

  lemma ResolveItems(items: seq<Json>, parts: seq<Json>, s: Objects, c: Codec, seen: set<Digest>)
    requires |parts| == |items| && forall i :: 0 <= i < |items| ==> ResolveNode(parts[i], s, c, seen) == Some(items[i])
    ensures ResolveNode(Arr(parts), s, c, seen) == Some(Arr(items))
  {
    hide Load;
    ArrayIsNoClaim(Arr(parts));
    var back := ResolveNode(Arr(parts), s, c, seen);
    assert back.value.items == items;
  }

  lemma ResolveFields(fields: map<Key, Json>, parts: map<Key, Json>, s: Objects, c: Codec, seen: set<Digest>)
    requires !IsBlobRef(Obj(parts)) && parts.Keys == fields.Keys
    requires forall k :: k in fields ==> ResolveNode(parts[k], s, c, seen) == Some(fields[k])
    ensures ResolveNode(Obj(parts), s, c, seen) == Some(Obj(fields))
  {
    hide Load, IsBlobRef;
    var back := ResolveNode(Obj(parts), s, c, seen);
    assert back.value.fields == fields;
  }

  lemma ArrayIsNoClaim(j: Json)
    requires j.Arr?
    ensures !IsBlobRef(j)
  {
  }

  lemma ClaimedResolves(j: Json, s: Objects, c: Codec, seen: set<Digest>)
    requires Encodes(c, {j}) && NoneSeen(c, {j}, seen) && j.Str? && Stores(s, c, {j})
    ensures ResolveNode(PutJson(j, c).value, s, c, seen) == Some(j)
  {
    var body := c.encode(j);
    assert j in {j};
    ReferenceResolves(c.digest(body), |body|, j, s, c, seen);
  }

  /** What `OffloadThenResolve` asks of a value's parts, asked of some of them. */
  lemma FewerParts(s: Objects, c: Codec, seen: set<Digest>, some: set<Json>, parts: set<Json>)
    requires some <= parts && Encodes(c, parts) && Stores(s, c, parts) && NoneSeen(c, parts, seen)
    ensures Encodes(c, some) && Stores(s, c, some) && NoneSeen(c, some, seen)
  {
  }

  /** Offloading and then resolving gives the value back, wherever the bodies of its parts are stored. */
  lemma {:induction false} OffloadThenResolve(j: Json, s: Objects, c: Codec, threshold: int, claim: bool, seen: set<Digest>)
    requires ClaimFree(j) && Encodes(c, OffloadNode(j, c, threshold, claim).parts)
    requires Stores(s, c, OffloadNode(j, c, threshold, claim).parts)
    requires NoneSeen(c, OffloadNode(j, c, threshold, claim).parts, seen)
    ensures ResolveNode(OffloadNode(j, c, threshold, claim).value, s, c, seen) == Some(j)
    decreases j
  {
    hide Encodes, NoneSeen, Stores, PutJson, IsBlobRef;
    var out := OffloadNode(j, c, threshold, claim);
    match j
    case Arr(items) =>
      forall i | 0 <= i < |items| ensures ResolveNode(out.value.items[i], s, c, seen) == Some(items[i]) {
        FewerParts(s, c, seen, OffloadNode(items[i], c, threshold, true).parts, out.parts);
        OffloadThenResolve(items[i], s, c, threshold, true, seen);
      }
      ResolveItems(items, out.value.items, s, c, seen);
    case Obj(fields) =>
      forall k | k in fields ensures ResolveNode(out.value.fields[k], s, c, seen) == Some(fields[k]) {
        FewerParts(s, c, seen, OffloadNode(fields[k], c, threshold, true).parts, out.parts);
        OffloadThenResolve(fields[k], s, c, threshold, true, seen);
      }
      if IsBlobRef(out.value) {
        OffloadKeepsShape(fields, out.value.fields, c, threshold);
        assert false;
      }
      ResolveFields(fields, out.value.fields, s, c, seen);
    case Str(_) =>
      if out == PutJson(j, c) {
        PutsItself(j, c);
        ClaimedResolves(j, s, c, seen);
      }
    case _ =>
  }

  lemma PutsItself(j: Json, c: Codec)
    ensures PutJson(j, c).parts == {j}
  {
  }

  /** A reference resolves to whatever its body resolves to. */
  lemma ReferenceResolves(d: Digest, bytes: nat, j: Json, s: Objects, c: Codec, seen: set<Digest>)
    requires IsSha256Digest(d) && d !in seen && Load(s, c, d) == Some(j)
    ensures ResolveNode(BlobRef(d, bytes), s, c, seen) == ResolveNode(j, s, c, seen + {d})
  {
    BlobRefIsBlobRef(d, bytes);
  }

  /** An event's payload: offloaded, and claimed whole when the event is still over its byte limit. */
  function OffloadPayload(j: Json, c: Codec, threshold: int, fits: Json -> bool): Claimed {
    var part := OffloadNode(j, c, threshold, true);
    if fits(part.value) then part
    else Claimed(PutJson(part.value, c).value, part.parts + {part.value})
  }

  /** Only strings are moved. */
  lemma {:induction false} PartsAreStrings(j: Json, c: Codec, threshold: int, claim: bool)
    ensures forall p :: p in OffloadNode(j, c, threshold, claim).parts ==> p.Str?
    decreases j
  {
    hide IsBlobRef;
    match j
    case Arr(items) =>
      forall i | 0 <= i < |items| ensures forall p :: p in OffloadNode(items[i], c, threshold, true).parts ==> p.Str? {
        PartsAreStrings(items[i], c, threshold, true);
      }
    case Obj(fields) =>
      forall k | k in fields ensures forall p :: p in OffloadNode(fields[k], c, threshold, true).parts ==> p.Str? {
        PartsAreStrings(fields[k], c, threshold, true);
      }
    case _ =>
  }

  /** Whatever the threshold and the byte limit, a stored payload resolves to the payload appended. */
  lemma PayloadRoundTrip(j: Json, s: Objects, c: Codec, threshold: int, fits: Json -> bool)
    requires ClaimFree(j) && Encodes(c, OffloadPayload(j, c, threshold, fits).parts)
    requires Stores(s, c, OffloadPayload(j, c, threshold, fits).parts)
    ensures ResolveJson(OffloadPayload(j, c, threshold, fits).value, s, c) == Some(j)
  {
    hide OffloadNode, ResolveNode;
    var part := OffloadNode(j, c, threshold, true);
    if fits(part.value) {
      OffloadThenResolve(j, s, c, threshold, true, {});
    } else {
      var body := c.encode(part.value);
      assert part.value in OffloadPayload(j, c, threshold, fits).parts;
      ReferenceResolves(c.digest(body), |body|, part.value, s, c, {});
      NestedResolves(j, s, c, threshold);
    }
  }

  /** The offloaded payload resolves inside its own claim: a stored whole is none of its own strings. */
  lemma NestedResolves(j: Json, s: Objects, c: Codec, threshold: int)
    requires var part := OffloadNode(j, c, threshold, true);
             ClaimFree(j) && Encodes(c, part.parts + {part.value}) && Stores(s, c, part.parts + {part.value})
    ensures var part := OffloadNode(j, c, threshold, true);
            ResolveNode(part.value, s, c, {} + {c.digest(c.encode(part.value))}) == Some(j)
  {
    var part := OffloadNode(j, c, threshold, true);
    if part.value.Str? {
      assert part.value == j;
    } else {
      var d := c.digest(c.encode(part.value));
      PartsAreStrings(j, c, threshold, true);
      assert part.value in part.parts + {part.value};
      forall p | p in part.parts ensures c.digest(c.encode(p)) !in {} + {d} {
        assert p in part.parts + {part.value};
        assert c.decode(c.encode(p)) == Some(p);
      }
      hide OffloadNode, ResolveNode;
      OffloadThenResolve(j, s, c, threshold, true, {} + {d});
    }
  }

  /** Every stored body is an encoded string, as when only this value's own strings were stored. */
  predicate OnlyStrings(s: Objects, c: Codec) {
    forall d :: d in s ==> c.decode(s[d]).Some? && c.decode(s[d]).value.Str?
  }

  /** The reserved shape is exactly what the round trip excludes. */
  lemma RoundTripIffClaimFree(j: Json, s: Objects, c: Codec, threshold: int, claim: bool)
    requires OnlyStrings(s, c) && Encodes(c, OffloadNode(j, c, threshold, claim).parts)
    requires Stores(s, c, OffloadNode(j, c, threshold, claim).parts)
    ensures ResolveJson(OffloadNode(j, c, threshold, claim).value, s, c) == Some(j) <==> ClaimFree(j)
  {
    if ClaimFree(j) {
      OffloadThenResolve(j, s, c, threshold, claim, {});
    } else {
      ClaimShapesDoNotReturn(j, s, c, threshold, claim);
    }
  }

  /** A reference does not resolve to itself when every body is a string. */
  lemma ClaimDoesNotReturn(j: Json, s: Objects, c: Codec)
    requires OnlyStrings(s, c) && IsBlobRef(j)
    ensures ResolveJson(j, s, c) != Some(j)
  {
    var d := DigestOf(j);
    if Load(s, c, d).Some? {
      var text := Load(s, c, d).value;
      assert {} + {d} == {d};
      assert ResolveNode(text, s, c, {d}) == Some(text);
    }
  }

  lemma {:induction false} ClaimShapesDoNotReturn(j: Json, s: Objects, c: Codec, threshold: int, claim: bool)
    requires OnlyStrings(s, c) && !ClaimFree(j)
    ensures ResolveJson(OffloadNode(j, c, threshold, claim).value, s, c) != Some(j)
    decreases j
  {
    hide OnlyStrings, IsBlobRef;
    var out := OffloadNode(j, c, threshold, claim).value;
    if IsBlobRef(j) {
      ClaimDoesNotReturn(j, s, c);
    } else if j.Arr? {
      var i :| 0 <= i < |j.items| && !ClaimFree(j.items[i]);
      ClaimShapesDoNotReturn(j.items[i], s, c, threshold, true);
      ArrayIsNoClaim(out);
    } else {
      var k :| k in j.fields && !ClaimFree(j.fields[k]);
      ClaimShapesDoNotReturn(j.fields[k], s, c, threshold, true);
      if IsBlobRef(out) {
        OffloadKeepsShape(j.fields, out.fields, c, threshold);
        assert false;
      }
    }
  }

  // ---------------------------------------------------------------- the hypotheses can be met

  function Hex(ch: char): Digest {
    seq(64, _ => ch)
  }

  /** A codec for two strings and what offloading leaves of a list of them. */
  function TwoStrings(x: string, y: string): Codec {
    Codec((j: Json) => if j == Str(x) then [0] else if j == Str(y) then [1] else [2],
          (b: Body) => if b == [0] then Some(Str(x)) else if b == [1] then Some(Str(y)) else None,
          (b: Body) => if b == [0] then Hex('a') else if b == [1] then Hex('b') else Hex('c'),
          (j: Json) => 1)
  }

  function TwoBodies(): Objects {
    map[Hex('a') := [0], Hex('b') := [1]]
  }

  lemma TwoBodiesFit(x: string, y: string)
    requires x != y
    ensures var c := TwoStrings(x, y);
            && Encodes(c, {Str(x), Str(y)}) && Stores(TwoBodies(), c, {Str(x), Str(y)}) && OnlyStrings(TwoBodies(), c)
            && CollisionFree(c, {[0], [1]})
  {
    assert Hex('a')[0] != Hex('b')[0];
  }

  lemma TwoStringsMove(x: string, y: string)
    requires x != y
    ensures OffloadNode(Arr([Str(x), Str(y)]), TwoStrings(x, y), 0, true).parts == {Str(x), Str(y)}
  {
    var c := TwoStrings(x, y);
    var j := Arr([Str(x), Str(y)]);
    hide IsBlobRef;
    ArrayIsNoClaim(j);
    StringMoves(x, c);
    StringMoves(y, c);
    assert j.items[0] == Str(x) && j.items[1] == Str(y);
    var out := OffloadNode(j, c, 0, true);
    assert Str(x) in OffloadNode(j.items[0], c, 0, true).parts && Str(y) in OffloadNode(j.items[1], c, 0, true).parts;
    assert forall p :: p in out.parts <==> p in {Str(x), Str(y)};
  }

  lemma StringMoves(x: string, c: Codec)
    requires c.size(Str(x)) > 0
    ensures OffloadNode(Str(x), c, 0, true) == PutJson(Str(x), c) && PutJson(Str(x), c).parts == {Str(x)}
  {
  }

  /** A codec and a store that meet the hypotheses above, for a value whose two strings are both moved. */
  lemma HypothesesAreMet(x: string, y: string)
    requires x != y
    ensures var c, j := TwoStrings(x, y), Arr([Str(x), Str(y)]);
            var out := OffloadNode(j, c, 0, true);
            && ClaimFree(j) && out.parts == {Str(x), Str(y)} && Encodes(c, out.parts) && Stores(TwoBodies(), c, out.parts)
            && OnlyStrings(TwoBodies(), c) && ResolveJson(out.value, TwoBodies(), c) == Some(j)
  {
    var c, j := TwoStrings(x, y), Arr([Str(x), Str(y)]);
    TwoBodiesFit(x, y);
    TwoStringsMove(x, y);
    ArrayIsNoClaim(j);
    hide OffloadNode, ResolveNode, Encodes, Stores, OnlyStrings, IsBlobRef, TwoStrings;
    assert !IsBlobRef(Str(x)) && !IsBlobRef(Str(y)) by {
      StringIsNoClaim(x);
      StringIsNoClaim(y);
    }
    OffloadThenResolve(j, TwoBodies(), c, 0, true, {});
  }

  lemma StringIsNoClaim(x: string)
    ensures !IsBlobRef(Str(x))
  {
  }

  // ---------------------------------------------------------------- the digests a value needs

  /** Every digest named inside `j`, without reading bodies. */
  function DigestsIn(j: Json): set<Digest>
    decreases j
  {
    if IsBlobRef(j) then {DigestOf(j)} else
    match j
    case Arr(items) => set i, d | 0 <= i < |items| && d in DigestsIn(items[i]) :: d
    case Obj(fields) => set k, d | k in fields && d in DigestsIn(fields[k]) :: d
    case _ => {}
  }

  /** The digests named by the body of `d`. */
  function Children(s: Objects, c: Codec, d: Digest): set<Digest> {
    if Load(s, c, d).Some? then DigestsIn(Load(s, c, d).value) else {}
  }

  /** A chain of references from a seed to `d`. */
  predicate Chain(s: Objects, c: Codec, seeds: set<Digest>, path: seq<Digest>) {
    && path != [] && path[0] in seeds
    && forall i :: 0 < i < |path| ==> path[i] in Children(s, c, path[i - 1])
  }

  ghost predicate Reachable(s: Objects, c: Codec, seeds: set<Digest>, d: Digest) {
    exists path :: Chain(s, c, seeds, path) && path[|path| - 1] == d
  }

  /** `all` is exactly what the seeds reach, and all of it can be loaded. */
  ghost predicate Expands(s: Objects, c: Codec, seeds: set<Digest>, all: set<Digest>) {
    (forall d :: d in all <==> Reachable(s, c, seeds, d)) && forall d :: d in all ==> Load(s, c, d).Some?
  }

  lemma SeedReachable(s: Objects, c: Codec, seeds: set<Digest>, d: Digest)
    requires d in seeds
    ensures Reachable(s, c, seeds, d)
  {
    assert Chain(s, c, seeds, [d]);
  }

  lemma ChildReachable(s: Objects, c: Codec, seeds: set<Digest>, d: Digest, e: Digest)
    requires Reachable(s, c, seeds, d) && e in Children(s, c, d)
    ensures Reachable(s, c, seeds, e)
  {
    var path :| Chain(s, c, seeds, path) && path[|path| - 1] == d;
    assert Chain(s, c, seeds, path + [e]);
  }

  /** A set that holds the seeds and is closed under children holds everything reachable. */
  lemma ClosedHoldsReachable(s: Objects, c: Codec, seeds: set<Digest>, all: set<Digest>, d: Digest)
    requires seeds <= all && (forall e :: e in all ==> Children(s, c, e) <= all)
    requires Reachable(s, c, seeds, d)
    ensures d in all
  {
    var path :| Chain(s, c, seeds, path) && path[|path| - 1] == d;
    for i := 0 to |path|
      invariant forall k :: 0 <= k < i ==> path[k] in all
    {
      if i > 0 {
        assert path[i - 1] in all;
      }
    }
  }

  lemma LoadedIsStored(s: Objects, c: Codec, d: Digest)
    requires Load(s, c, d).Some?
    ensures d in s && Children(s, c, d) == DigestsIn(Load(s, c, d).value)
  {
  }

  method PushUnseen(nested: set<Digest>, all: set<Digest>, pending: seq<Digest>) returns (pushed: seq<Digest>)
    ensures forall d :: d in pushed <==> d in pending || d in nested - all
  {
    pushed := pending;
    var rest := nested;
    while rest != {}
      invariant rest <= nested
      invariant forall d :: d in pushed <==> d in pending || (d in nested - all && d !in rest)
    {
      var child :| child in rest;
      rest := rest - {child};
      if child !in all {
        pushed := pushed + [child];
      }
    }
  }

  /** The worklist stops on every finite graph, cyclic or not, with exactly the reachable digests. */
  method ExpandBlobDigests(s: Objects, c: Codec, seeds: set<Digest>) returns (r: Option<set<Digest>>)
    ensures r.Some? ==> Expands(s, c, seeds, r.value)
    ensures r.Some? <==> forall d :: Reachable(s, c, seeds, d) ==> Load(s, c, d).Some?
  {
    hide Load, DigestsIn, Reachable;
    var all: set<Digest> := {};
    var pending := PushUnseen(seeds, all, []);
    forall d | d in pending ensures Reachable(s, c, seeds, d) {
      SeedReachable(s, c, seeds, d);
    }
    while pending != []
      invariant forall d :: d in all || d in pending ==> Reachable(s, c, seeds, d)
      invariant forall d :: d in all ==> Load(s, c, d).Some?
      invariant forall d :: d in seeds ==> d in all || d in pending
      invariant forall d, e :: d in all && e in Children(s, c, d) ==> e in all || e in pending
      decreases s.Keys - all, |pending|
    {
      var digest := pending[|pending| - 1];
      ghost var before := pending;
      pending := pending[..|pending| - 1];
      assert before == pending + [digest];
      if digest !in all {
        assert Reachable(s, c, seeds, digest);
        var loaded := Load(s, c, digest);
        if loaded.None? {
          return None;
        }
        LoadedIsStored(s, c, digest);
        all := all + {digest};
        var pushed := PushUnseen(DigestsIn(loaded.value), all, pending);
        forall d | d in pushed ensures Reachable(s, c, seeds, d) {
          if d !in pending {
            ChildReachable(s, c, seeds, digest, d);
          }
        }
        pending := pushed;
      }
    }
    forall d | Reachable(s, c, seeds, d) ensures d in all {
      ClosedHoldsReachable(s, c, seeds, all, d);
    }
    return Some(all);
  }

  // ---------------------------------------------------------------- what resolution reads

  /** Resolution reads only the digests a value reaches. */
  lemma {:induction false} ResolveReadsReachable(
    j: Json, s: Objects, t: Objects, c: Codec, seen: set<Digest>, all: set<Digest>)
    requires DigestsIn(j) <= all && (forall d :: d in all ==> Children(s, c, d) <= all)
    requires forall d :: d in all ==> Load(t, c, d) == Load(s, c, d)
    ensures ResolveNode(j, t, c, seen) == ResolveNode(j, s, c, seen)
    decreases s.Keys - seen, j
  {
    if IsBlobRef(j) {
      var d := DigestOf(j);
      if d !in seen && Load(s, c, d).Some? {
        assert d in s.Keys - seen;
        assert DigestsIn(Load(s, c, d).value) == Children(s, c, d);
        ResolveReadsReachable(Load(s, c, d).value, s, t, c, seen + {d}, all);
      }
    } else if j.Arr? {
      forall i | 0 <= i < |j.items| ensures ResolveNode(j.items[i], t, c, seen) == ResolveNode(j.items[i], s, c, seen) {
        assert DigestsIn(j.items[i]) <= DigestsIn(j);
        ResolveReadsReachable(j.items[i], s, t, c, seen, all);
      }
      var was, now := ResolveNode(j, s, c, seen), ResolveNode(j, t, c, seen);
      assert now.Some? <==> was.Some?;
      if now.Some? {
        assert now.value.items == was.value.items;
      }
    } else if j.Obj? {
      forall k | k in j.fields ensures ResolveNode(j.fields[k], t, c, seen) == ResolveNode(j.fields[k], s, c, seen) {
        assert DigestsIn(j.fields[k]) <= DigestsIn(j);
        ResolveReadsReachable(j.fields[k], s, t, c, seen, all);
      }
      var was, now := ResolveNode(j, s, c, seen), ResolveNode(j, t, c, seen);
      assert now.Some? <==> was.Some?;
      if now.Some? {
        assert now.value.fields == was.value.fields;
      }
    }
  }

  /** The value resolves, inside some references. */
  ghost predicate Resolvable(j: Json, s: Objects, c: Codec) {
    exists seen :: ResolveNode(j, s, c, seen).Some?
  }

  /** A value that resolves has each body it names, and that resolves too. */
  lemma {:induction false} ResolvedNamesResolve(j: Json, s: Objects, c: Codec, seen: set<Digest>, d: Digest)
    requires ResolveNode(j, s, c, seen).Some? && d in DigestsIn(j)
    ensures Load(s, c, d).Some? && Resolvable(Load(s, c, d).value, s, c)
    decreases j
  {
    if IsBlobRef(j) {
      assert ResolveNode(Load(s, c, d).value, s, c, seen + {d}).Some?;
    } else if j.Arr? {
      var i :| 0 <= i < |j.items| && d in DigestsIn(j.items[i]);
      ResolvedNamesResolve(j.items[i], s, c, seen, d);
    } else {
      var k :| k in j.fields && d in DigestsIn(j.fields[k]);
      ResolvedNamesResolve(j.fields[k], s, c, seen, d);
    }
  }

  /** A value that resolves from some of the bodies has all it reaches among them. */
  lemma ResolvedHasAllItReaches(j: Json, s: Objects, whole: Objects, c: Codec, d: Digest)
    requires Resolvable(j, s, c) && Reachable(whole, c, DigestsIn(j), d)
    requires forall e :: Load(s, c, e).Some? ==> Load(whole, c, e) == Load(s, c, e)
    ensures d in s
  {
    hide ResolveNode, DigestsIn, Load;
    var path :| Chain(whole, c, DigestsIn(j), path) && path[|path| - 1] == d;
    for i := 0 to |path|
      invariant forall k :: 0 <= k < i ==> Load(s, c, path[k]).Some? && Resolvable(Load(s, c, path[k]).value, s, c)
    {
      var parent := if i == 0 then j else Load(s, c, path[i - 1]).value;
      if i > 0 {
        assert Load(whole, c, path[i - 1]) == Load(s, c, path[i - 1]);
        LoadedIsStored(whole, c, path[i - 1]);
        assert path[i] in Children(whole, c, path[i - 1]);
      }
      var seen :| ResolveNode(parent, s, c, seen).Some?;
      ResolvedNamesResolve(parent, s, c, seen, path[i]);
    }
    LoadedIsStored(s, c, d);
  }
}

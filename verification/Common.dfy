/** Values shared by every component: optional values and JSON. */
module Common {

  datatype Option<+T> = None | Some(value: T) {
    function GetOr(default: T): T {
      match this
      case Some(v) => v
      case None => default
    }
  }

  /** The `??` operator: the left operand unless it is absent. */
  function OrElse<T>(left: Option<T>, right: Option<T>): Option<T> {
    if left.Some? then left else right
  }

  /** A present, non-empty string: what a JavaScript truth test asks of an optional string. */
  predicate NonEmpty(s: Option<string>) {
    s.Some? && s.value != ""
  }

  function Max(a: int, b: int): int {
    if a < b then b else a
  }

  function Min(a: int, b: int): int {
    if a < b then a else b
  }

  /** Object keys: the ones the modelled code names, and every other key by its text. */
  datatype Key =
    | KRootThreadId | KKind | KDefinitionName | KDefinitionVersion | KInput | KRequestedThreadId
    | KLaunchedBy | KAttributes | KTrace | KThreadId | KParentThreadId | KOutput | KError | KReason
    | KAttempt | KRetryAt | KTry | KNextAttemptAt | KDetails | KDeadlineAt | KHeartbeatAt
    | KWaitId | KOn | KTag | KRaceId | KType | KTimerAt | KMatch | KRunId | KClose | KPolicy
    | KSourceRunId | KSourceSeq | KResumeSeq | KState | KSeq | KStateHash
    | KLooms | KSha256 | KBytes | KMediaType
    | Named(name: string)

  /** JSON values. Numbers are integers; an object's key order is not part of its value. */
  datatype Json =
    | Null
    | Bool(b: bool)
    | Num(n: int)
    | Str(s: string)
    | Arr(items: seq<Json>)
    | Obj(fields: map<Key, Json>)

  /** The value under `key`, when `j` is an object that has it. */
  function Field(j: Json, key: Key): Option<Json> {
    if j.Obj? && key in j.fields then Some(j.fields[key]) else None
  }

  function ReadString(j: Json, key: Key): Option<string> {
    match Field(j, key)
    case Some(Str(s)) => Some(s)
    case _ => None
  }

  function ReadNumber(j: Json, key: Key): Option<int> {
    match Field(j, key)
    case Some(Num(n)) => Some(n)
    case _ => None
  }

  /** The value under `key`, or null when it is missing. */
  function FieldOrNull(j: Json, key: Key): Json {
    Field(j, key).GetOr(Null)
  }

  /** The elements that satisfy `keep`, in order. */
  function Filter<T(!new)>(xs: seq<T>, keep: T -> bool): (r: seq<T>)
    ensures forall x :: x in r <==> x in xs && keep(x)
    ensures |r| <= |xs|
  {
    if xs == [] then []
    else if keep(xs[0]) then [xs[0]] + Filter(xs[1..], keep)
    else Filter(xs[1..], keep)
  }

  lemma {:induction false} FilterAppend<T(!new)>(a: seq<T>, b: seq<T>, keep: T -> bool)
    ensures Filter(a + b, keep) == Filter(a, keep) + Filter(b, keep)
  {
    if a == [] {
      assert a + b == b;
    } else {
      assert (a + b)[1..] == a[1..] + b;
      FilterAppend(a[1..], b, keep);
    }
  }

  lemma {:induction false} FilterAll<T(!new)>(xs: seq<T>, keep: T -> bool)
    requires forall x :: x in xs ==> keep(x)
    ensures Filter(xs, keep) == xs
  {
    if xs != [] {
      assert forall x :: x in xs[1..] ==> x in xs;
      FilterAll(xs[1..], keep);
    }
  }

  lemma {:induction false} FilterNone<T(!new)>(xs: seq<T>, keep: T -> bool)
    requires forall x :: x in xs ==> !keep(x)
    ensures Filter(xs, keep) == []
  {
    if xs != [] {
      assert forall x :: x in xs[1..] ==> x in xs;
      FilterNone(xs[1..], keep);
    }
  }

  /** A second, narrower filter makes the first one redundant. */
  lemma {:induction false} FilterWithin<T(!new)>(xs: seq<T>, wide: T -> bool, narrow: T -> bool)
    requires forall x :: x in xs && narrow(x) ==> wide(x)
    ensures Filter(Filter(xs, wide), narrow) == Filter(xs, narrow)
  {
    if xs != [] {
      assert forall x :: x in xs[1..] ==> x in xs;
      FilterWithin(xs[1..], wide, narrow);
    }
  }

  lemma FilterFirst<T(!new)>(a: seq<T>, b: seq<T>, keep: T -> bool)
    requires forall x :: x in a ==> keep(x)
    requires forall x :: x in b ==> !keep(x)
    ensures Filter(a + b, keep) == a
  {
    FilterAppend(a, b, keep);
    FilterAll(a, keep);
    FilterNone(b, keep);
  }

  lemma FilterSecond<T(!new)>(a: seq<T>, b: seq<T>, keep: T -> bool)
    requires forall x :: x in a ==> !keep(x)
    requires forall x :: x in b ==> keep(x)
    ensures Filter(a + b, keep) == b
  {
    FilterAppend(a, b, keep);
    FilterNone(a, keep);
    FilterAll(b, keep);
  }
}

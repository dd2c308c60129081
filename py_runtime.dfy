/**
 * The slice of Python the pipeline components rely on: the exceptions they
 * can raise, JSON values as `json.loads` and `to_dict()` produce them, and
 * the subscripting, iteration, `dict.get` and `<` they apply to those
 * values.
 */
module PyRuntime {
  import opened Wrappers

  /** A Python exception, with the key or name it reports where that matters. */
  datatype PyError =
    | KeyError(key: string)
    | IntKeyError(index: nat)   // KeyError raised by an integer subscript of a dict
    | TypeError
    | IndexError
    | AttributeError
    | ValueError
    | RuntimeError(message: string)
    | UnboundLocalError(name: string)

  /**
   * A JSON value. An object keeps its members in insertion order, as a
   * Python dict does; its keys are distinct.
   */
  datatype Json =
    | JNull
    | JBool(b: bool)
    | JNum(n: real)
    | JStr(s: string)
    | JArr(items: seq<Json>)
    | JObj(members: seq<Member>)

  datatype Member = Member(key: string, value: Json)

  /** The keys of an object, in order. */
  function Keys(members: seq<Member>): (ks: seq<string>)
    ensures |ks| == |members| && forall i :: 0 <= i < |members| ==> ks[i] == members[i].key
  {
    seq(|members|, i requires 0 <= i < |members| => members[i].key)
  }

  /** The value stored under `key`, if any. */
  function Get(members: seq<Member>, key: string): (r: Option<Json>)
    ensures r.None? <==> key !in Keys(members)
    ensures r.Some? ==> exists i :: 0 <= i < |members| && members[i] == Member(key, r.value)
  {
    if members == [] then None
    else if members[0].key == key then Some(members[0].value)
    else
      var r := Get(members[1..], key);
      assert Keys(members) == [members[0].key] + Keys(members[1..]);
      if r.Some? then
        var i :| 0 <= i < |members[1..]| && members[1..][i] == Member(key, r.value);
        assert members[i + 1] == Member(key, r.value);
        r
      else r
  }

  /** `v[key]`: a dict gives the value or raises KeyError; anything else cannot be indexed by a string. */
  function Subscript(v: Json, key: string): (r: Result<Json, PyError>)
    ensures r.Ok? <==> v.JObj? && Get(v.members, key).Some?
    ensures r.Ok? ==> r.value == Get(v.members, key).value
    ensures r.Err? ==> r.error == (if v.JObj? then KeyError(key) else TypeError)
  {
    match v
    case JObj(ms) =>
      (match Get(ms, key)
       case Some(x) => Ok(x)
       case None => Err(KeyError(key)))
    case _ => Err(TypeError)
  }

  /** `d.get(key, default)` on a dict. */
  function GetOr(members: seq<Member>, key: string, default: Json): (r: Json)
    ensures key in Keys(members) ==> r == Get(members, key).value
    ensures key !in Keys(members) ==> r == default
  {
    match Get(members, key)
    case Some(x) => x
    case None => default
  }

  /**
   * What `for item in v` visits: the items of a list, the keys of a dict,
   * the one-character strings of a string; anything else is not iterable.
   */
  function Iterate(v: Json): (r: Result<seq<Json>, PyError>)
    ensures r.Ok? <==> v.JArr? || v.JObj? || v.JStr?
    ensures v.JArr? ==> r == Ok(v.items)
    ensures v.JObj? ==> r.Ok? && |r.value| == |v.members| &&
                        forall i :: 0 <= i < |v.members| ==> r.value[i] == JStr(v.members[i].key)
    ensures v.JStr? ==> r.Ok? && |r.value| == |v.s| && forall i :: 0 <= i < |v.s| ==> r.value[i] == JStr([v.s[i]])
  {
    match v
    case JArr(items) => Ok(items)
    case JObj(ms) => Ok(seq(|ms|, i requires 0 <= i < |ms| => JStr(ms[i].key)))
    case JStr(s) => Ok(seq(|s|, i requires 0 <= i < |s| => JStr([s[i]])))
    case _ => Err(TypeError)
  }

  /** `len(v)`: the length of a list, dict or string; anything else has none. */
  function Len(v: Json): (r: Result<nat, PyError>)
    ensures r.Ok? <==> Iterate(v).Ok?
    ensures r.Ok? ==> r.value == |Iterate(v).value|
    ensures r.Err? ==> r.error == TypeError
  {
    match v
    case JArr(items) => Ok(|items|)
    case JObj(ms) => Ok(|ms|)
    case JStr(s) => Ok(|s|)
    case _ => Err(TypeError)
  }

  /**
   * `v[i]` with a non-negative integer: the item of a list or the character
   * of a string (IndexError past the end); a JSON dict has only string keys,
   * so it raises KeyError; nothing else can be subscripted.
   */
  function At(v: Json, i: nat): (r: Result<Json, PyError>)
    ensures r.Ok? <==> (v.JArr? && i < |v.items|) || (v.JStr? && i < |v.s|)
    ensures r.Ok? ==> Iterate(v).Ok? && r.value == Iterate(v).value[i]
    ensures r.Err? ==> r.error == (if v.JObj? then IntKeyError(i) else if v.JArr? || v.JStr? then IndexError else TypeError)
  {
    match v
    case JArr(items) => if i < |items| then Ok(items[i]) else Err(IndexError)
    case JStr(s) => if i < |s| then Ok(JStr([s[i]])) else Err(IndexError)
    case JObj(_) => Err(IntKeyError(i))
    case _ => Err(TypeError)
  }

  /** Booleans compare as the integers 0 and 1. */
  predicate IsNumber(v: Json)
  {
    v.JNum? || v.JBool?
  }

  function NumberOf(v: Json): real
    requires IsNumber(v)
  {
    if v.JNum? then v.n else if v.b then 1.0 else 0.0
  }

  /** Code-point order on strings. */
  predicate StrLess(a: string, b: string)
  {
    if a == [] then b != []
    else if b == [] then false
    else if a[0] != b[0] then a[0] < b[0]
    else StrLess(a[1..], b[1..])
  }

  lemma {:induction false} StrLessIrreflexive(a: string)
    ensures !StrLess(a, a)
  {
    if a != [] {
      StrLessIrreflexive(a[1..]);
    }
  }

  /**
   * `a < b`: numbers (and booleans) numerically, strings in code-point
   * order; any other pair raises TypeError, reported as None.
   */
  function Less(a: Json, b: Json): (r: Option<bool>)
    ensures r.Some? <==> (IsNumber(a) && IsNumber(b)) || (a.JStr? && b.JStr?)
    ensures IsNumber(a) && IsNumber(b) ==> r == Some(NumberOf(a) < NumberOf(b))
  {
    if IsNumber(a) && IsNumber(b) then Some(NumberOf(a) < NumberOf(b))
    else if a.JStr? && b.JStr? then Some(StrLess(a.s, b.s))
    else None
  }

  /** A value is never below itself, so a metric equal to its threshold passes. */
  lemma LessIrreflexive(a: Json)
    ensures Less(a, a) != Some(true)
  {
    if a.JStr? {
      StrLessIrreflexive(a.s);
    }
  }

  /**
   * A loop that applies `f` to each item in order and appends the result,
   * stopping at the first call that raises.
   */
  function Collect<T, U>(xs: seq<T>, f: T -> Result<U, PyError>): Result<seq<U>, PyError>
    decreases |xs|
  {
    if xs == [] then Ok([])
    else
      match Collect(xs[..|xs| - 1], f)
      case Err(e) => Err(e)
      case Ok(us) =>
        (match f(xs[|xs| - 1])
         case Err(e) => Err(e)
         case Ok(u) => Ok(us + [u]))
  }

  /**
   * The loop completes exactly when no call raises, and then yields one
   * result per item, in order; otherwise it raises what the first failing
   * call raises.
   */
  lemma {:induction false} CollectIff<T, U>(xs: seq<T>, f: T -> Result<U, PyError>)
    ensures Collect(xs, f).Ok? <==> forall i :: 0 <= i < |xs| ==> f(xs[i]).Ok?
    ensures Collect(xs, f).Ok? ==>
      |Collect(xs, f).value| == |xs| &&
      forall i :: 0 <= i < |xs| ==> Collect(xs, f).value[i] == f(xs[i]).value
    ensures Collect(xs, f).Err? ==>
      exists i :: 0 <= i < |xs| && f(xs[i]) == Err(Collect(xs, f).error) &&
                  forall j :: 0 <= j < i ==> f(xs[j]).Ok?
    decreases |xs|
  {
    if xs != [] {
      var init := xs[..|xs| - 1];
      CollectIff(init, f);
      assert forall i :: 0 <= i < |init| ==> init[i] == xs[i];
      if Collect(xs, f).Err? && Collect(init, f).Err? {
        var i :| 0 <= i < |init| && f(init[i]) == Err(Collect(init, f).error) &&
                 forall j :: 0 <= j < i ==> f(init[j]).Ok?;
        assert f(xs[i]) == Err(Collect(xs, f).error);
      }
    }
  }

  /** Once a prefix raises, so does the whole loop, with the same error. */
  lemma {:induction false} CollectErrorSticks<T, U>(xs: seq<T>, f: T -> Result<U, PyError>, i: nat)
    requires i <= |xs| && Collect(xs[..i], f).Err?
    ensures Collect(xs, f) == Collect(xs[..i], f)
    decreases |xs| - i
  {
    if i < |xs| {
      assert xs[..i + 1][..i] == xs[..i];
      CollectErrorSticks(xs, f, i + 1);
    } else {
      assert xs[..i] == xs;
    }
  }
}

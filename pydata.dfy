/**
 * Python's dynamic values as they reach the core: condition parameters, the dictionary
 * a strategy document was loaded into, and the JSON-like dictionaries the Lambda helpers
 * build. Truthiness, numeric comparison with its TypeError, `dict.get` with a default,
 * and slicing follow Python's rules.
 */
module PyData {
  import opened Wrappers

  /** A Python value: `None`, a bool, an int, a finite float, `float('inf')`, a str, a list or a dict. */
  datatype Value =
    | VNone
    | VBool(b: bool)
    | VInt(i: int)
    | VFloat(f: real)
    | VInf
    | VStr(s: string)
    | VList(items: seq<Value>)
    | VDict(entries: map<string, Value>)

  /** The message of the TypeError Python raises when a non-number is compared or used as an index. */
  const TypeErrorMessage: string := "TypeError: unsupported operand type"

  /** The message of the AttributeError raised by `.get` on something that is not a dict. */
  const AttributeErrorMessage: string := "AttributeError: object has no attribute 'get'"

  /** Python's `bool(v)`. */
  predicate Truthy(v: Value) {
    match v
    case VNone => false
    case VBool(b) => b
    case VInt(i) => i != 0
    case VFloat(f) => f != 0.0
    case VInf => true
    case VStr(s) => s != ""
    case VList(items) => items != []
    case VDict(entries) => entries != map[]
  }

  /** A number on the extended real line as far as the core needs it. */
  datatype Num = Finite(r: real) | PosInf

  /** The numeric meaning of `v`; bools are ints 0 and 1 as in Python. */
  function AsNum(v: Value): (n: Option<Num>)
    ensures n.None? <==> v.VNone? || v.VStr? || v.VList? || v.VDict?
  {
    match v
    case VBool(b) => Some(Finite(if b then 1.0 else 0.0))
    case VInt(i) => Some(Finite(i as real))
    case VFloat(f) => Some(Finite(f))
    case VInf => Some(PosInf)
    case _ => None
  }

  /** The integer an int-like value (int or bool) stands for; floats are not accepted as indices. */
  function AsInt(v: Value): (k: Option<int>)
    ensures k.Some? <==> v.VInt? || v.VBool?
    ensures k.Some? ==> AsNum(v) == Some(Finite(k.value as real))
  {
    match v
    case VBool(b) => Some(if b then 1 else 0)
    case VInt(i) => Some(i)
    case _ => None
  }

  predicate NumLess(a: Num, b: Num) {
    match (a, b)
    case (Finite(x), Finite(y)) => x < y
    case (Finite(_), PosInf) => true
    case (PosInf, _) => false
  }

  /** `x < v` for a float `x`. */
  function Less(x: real, v: Value): (r: Result<bool, string>)
    ensures r.Err? <==> AsNum(v).None?
    ensures r.Ok? ==> (r.value <==> NumLess(Finite(x), AsNum(v).value))
  {
    match AsNum(v)
    case None => Err(TypeErrorMessage)
    case Some(n) => Ok(NumLess(Finite(x), n))
  }

  /** `x <= v` for a float `x`. */
  function LessEq(x: real, v: Value): (r: Result<bool, string>)
    ensures r.Err? <==> AsNum(v).None?
    ensures r.Ok? ==> (r.value <==> !NumLess(AsNum(v).value, Finite(x)))
  {
    match AsNum(v)
    case None => Err(TypeErrorMessage)
    case Some(n) => Ok(!NumLess(n, Finite(x)))
  }

  /** `x >= v` for a float `x`. */
  function GreaterEq(x: real, v: Value): (r: Result<bool, string>)
    ensures r.Err? <==> AsNum(v).None?
    ensures r.Ok? ==> (r.value <==> !NumLess(Finite(x), AsNum(v).value))
  {
    match AsNum(v)
    case None => Err(TypeErrorMessage)
    case Some(n) => Ok(!NumLess(Finite(x), n))
  }

  /** `v > x` for a float `x`. */
  function ValueGreater(v: Value, x: real): (r: Result<bool, string>)
    ensures r.Err? <==> AsNum(v).None?
    ensures r.Ok? ==> (r.value <==> NumLess(Finite(x), AsNum(v).value))
  {
    match AsNum(v)
    case None => Err(TypeErrorMessage)
    case Some(n) => Ok(NumLess(Finite(x), n))
  }

  /** On a finite number the comparisons are the ordinary ones. */
  lemma {:induction false} ComparisonsOnFinite(x: real, y: real, v: Value)
    requires AsNum(v) == Some(Finite(y))
    ensures Less(x, v) == Ok(x < y) && LessEq(x, v) == Ok(x <= y)
    ensures GreaterEq(x, v) == Ok(x >= y) && ValueGreater(v, x) == Ok(y > x)
  {
  }

  /** `d.get(key, default)` where `d` should be a dict: anything else raises AttributeError. */
  function Get(d: Value, key: string, default: Value): (r: Result<Value, string>)
    ensures r.Err? <==> !d.VDict?
    ensures d.VDict? && key in d.entries ==> r == Ok(d.entries[key])
    ensures d.VDict? && key !in d.entries ==> r == Ok(default)
  {
    if !d.VDict? then Err(AttributeErrorMessage)
    else if key in d.entries then Ok(d.entries[key])
    else Ok(default)
  }

  /** A Python index (possibly negative) normalised and clamped into `[0, n]`, as slicing does. */
  function SliceIndex(i: int, n: nat): (k: nat)
    ensures k <= n
    ensures 0 <= i <= n ==> k == i
    ensures -(n as int) <= i < 0 ==> k == n + i
  {
    if i < 0 then (if i + n < 0 then 0 else i + n)
    else if i > n then n
    else i
  }

  /** Python's `s[i:j]` (step 1). */
  function Slice<T>(s: seq<T>, i: int, j: int): (r: seq<T>)
    ensures |r| <= |s|
  {
    var a := SliceIndex(i, |s|);
    var b := SliceIndex(j, |s|);
    if a < b then s[a..b] else []
  }

  /** `s[-k-1:-1]` with `1 <= k < |s|` is exactly the `k` elements before the last one. */
  lemma {:induction false} SliceBeforeLast<T>(s: seq<T>, k: int)
    requires 1 <= k < |s|
    ensures Slice(s, -k - 1, -1) == s[|s| - 1 - k .. |s| - 1]
    ensures |Slice(s, -k - 1, -1)| == k
  {
  }
}

/**
 * Parsed JSON values as the scripts see them after `json.loads`, and the few
 * Python operations the scripts apply to them: truth tests, `dict.get`,
 * comparisons with an `int`, list indexing and `for` iteration.
 */
module Json {
  import opened Wrappers

  /** A value `json.loads` can return. JSON numbers with a fraction are not part of this model. */
  datatype Value =
    | Null
    | Bool(b: bool)
    | Int(i: int)
    | Str(s: string)
    | Array(items: seq<Value>)
    | Object(fields: map<string, Value>)

  /** What a call to a language-model SDK gives back: it raised, or it produced response text. */
  datatype Reply = CallFailed | Answered(text: string)

  /** Python's `bool(v)`: `None`, `False`, `0`, and empty strings, lists and dicts are false. */
  predicate Truthy(v: Value) {
    match v
    case Null => false
    case Bool(b) => b
    case Int(i) => i != 0
    case Str(s) => s != ""
    case Array(xs) => xs != []
    case Object(m) => m != map[]
  }

  /** `d.get(key, default)`. */
  function Get(d: map<string, Value>, key: string, default: Value): Value {
    if key in d then d[key] else default
  }

  /**
   * The integer a value stands for when Python compares it with an `int` or
   * uses it as a list index: an `int`, or a `bool` as 0 or 1 (`bool` is a
   * subclass of `int`). Any other value raises `TypeError`.
   */
  function AsInt(v: Value): (r: Outcome<int>)
    ensures r.Done? <==> v.Int? || v.Bool?
    ensures v.Int? ==> r == Done(v.i)
    ensures v.Bool? ==> r == Done(if v.b then 1 else 0)
  {
    match v
    case Int(i) => Done(i)
    case Bool(b) => Done(if b then 1 else 0)
    case _ => Raised
  }

  /** Python's `v >= k` for a parsed value and an `int`. */
  function AtLeast(v: Value, k: int): (r: Outcome<bool>)
    ensures r.Done? <==> v.Int? || v.Bool?
    ensures v.Int? ==> r == Done(v.i >= k)
    ensures v.Bool? ==> r == Done((if v.b then 1 else 0) >= k)
  {
    match AsInt(v)
    case Done(n) => Done(n >= k)
    case Raised => Raised
  }

  /**
   * The elements `for x in v` hands to a loop body that begins with `x.get(...)`.
   * A list yields its items; an empty dict or string yields nothing. A
   * non-empty dict yields its keys and a non-empty string its characters, all
   * strings, on which that first `.get` raises `AttributeError`: that failure
   * is reported here. `None`, booleans and numbers are not iterable.
   */
  function Iterate(v: Value): (r: Outcome<seq<Value>>)
    ensures v.Array? ==> r == Done(v.items)
    ensures r.Done? ==> v.Array? || !Truthy(v)
    ensures r.Done? && !v.Array? ==> r.value == []
    ensures r.Raised? <==> (v.Null? || v.Bool? || v.Int? || (Truthy(v) && !v.Array?))
  {
    match v
    case Array(xs) => Done(xs)
    case Object(m) => if m == map[] then Done([]) else Raised
    case Str(s) => if s == "" then Done([]) else Raised
    case _ => Raised
  }

  /**
   * The acceptance test every radar applies to a verdict: a dict whose
   * `is_opportunity` is truthy and whose `score` (0 when missing) compares
   * as at least `minScore`.
   */
  predicate Approves(v: Value, minScore: int) {
    && v.Object?
    && Truthy(Get(v.fields, "is_opportunity", Null))
    && AtLeast(Get(v.fields, "score", Int(0)), minScore) == Done(true)
  }

  /** An approved verdict is a non-empty dict, so it is truthy. */
  lemma ApprovedIsTruthy(v: Value, minScore: int)
    requires Approves(v, minScore)
    ensures Truthy(v) && "is_opportunity" in v.fields
  {
  }
}

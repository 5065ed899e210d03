/**
 The values a field can take once coerced, and the few Python operations
 on them that the client performs: `str(v)`, `'%d' % v` and hashing as a
 dictionary key.
 */
module Values {
  import opened Wrappers
  import opened Errors
  import Decimal

  /** string | int | bool | None | list of dicts (an `array` field) | dict (a member's sub-block) */
  datatype Value =
    | VStr(s: string)
    | VInt(i: int)
    | VBool(b: bool)
    | VNone
    | VList(items: seq<map<string, Value>>)
    | VDict(entries: map<string, Value>)

  /** `str(v)` for the scalar values; None for lists and dicts, whose repr is not modelled. */
  function PyStr(v: Value): (r: Option<string>)
    ensures r.Some? <==> !v.VList? && !v.VDict?
    ensures v.VStr? ==> r == Some(v.s)
  {
    match v
    case VStr(s) => Some(s)
    case VInt(i) => Some(Decimal.IntToString(i))
    case VBool(b) => Some(if b then "True" else "False")
    case VNone => Some("None")
    case VList(_) => None
    case VDict(_) => None
  }

  /** `'%d' % v`: ints print as themselves, bools as 0 and 1 (bool is an int subclass), anything else is refused. */
  function FormatInt(v: Value): (r: Result<int>)
    ensures r.Success? <==> v.VInt? || v.VBool?
    ensures v.VInt? ==> r == Success(v.i)
    ensures r.Failure? ==> r.error == NotANumber
  {
    match v
    case VInt(i) => Success(i)
    case VBool(b) => Success(if b then 1 else 0)
    case _ => Failure(NotANumber)
  }

  /**
   Python's `==` on two values: a bool equals the int it stands for
   (`True == 1`), otherwise values are equal when they are the same.
   */
  function PyEq(a: Value, b: Value): (r: bool)
    ensures r <==> a == b || (FormatInt(a).Success? && FormatInt(b).Success? && FormatInt(a) == FormatInt(b))
  {
    match a
    case VInt(i) => if b.VBool? then i == (if b.b then 1 else 0) else a == b
    case VBool(x) => if b.VInt? then b.i == (if x then 1 else 0) else a == b
    case _ => a == b
  }

  /** Lists and dicts cannot be dictionary keys. */
  predicate IsHashable(v: Value) {
    !v.VList? && !v.VDict?
  }

  /** `getattr(obj, name)` on an object whose attributes are `attrs`. */
  function GetAttr(attrs: map<string, Value>, name: string): (r: Result<Value>)
    ensures r.Success? <==> name in attrs
    ensures r.Success? ==> r.value == attrs[name]
    ensures r.Failure? ==> r.error == AttributeError(name)
  {
    if name in attrs then Success(attrs[name]) else Failure(AttributeError(name))
  }
}

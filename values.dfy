/**
 * Python values as the core sees them in its dictionaries, and the few
 * built-ins it applies to them: truthiness, str(), and "blank" in the sense
 * of the classifier's store-if-empty policy.
 */
module Values {
  import opened Strings

  datatype Option<T> = None | Some(value: T)

  datatype Result<T> = Ok(value: T) | Err(error: string)

  /**
   * A dictionary value. `str()` of a float or of any other object (list,
   * dict, date, ...) is Python's own formatting, carried in `text`.
   */
  datatype Value =
    | VNone
    | VBool(b: bool)
    | VInt(i: int)
    | VReal(r: real, text: string)
    | VStr(s: string)
    | VOther(text: string, nonEmpty: bool)

  /** A value parsed from a JSON table file. */
  datatype Json =
    | JNull
    | JBool(b: bool)
    | JNum(n: real)
    | JStr(s: string)
    | JList(items: seq<Json>)
    | JObject(fields: map<string, Json>)

  /** Python's bool(v). */
  predicate Truthy(v: Value) {
    match v
    case VNone => false
    case VBool(b) => b
    case VInt(i) => i != 0
    case VReal(r, _) => r != 0.0
    case VStr(s) => s != []
    case VOther(_, nonEmpty) => nonEmpty
  }

  predicate JTruthy(j: Json) {
    match j
    case JNull => false
    case JBool(b) => b
    case JNum(n) => n != 0.0
    case JStr(s) => s != []
    case JList(items) => items != []
    case JObject(fields) => |fields| != 0
  }

  /** Python's str(v). */
  function Str(v: Value): string {
    match v
    case VNone => "None"
    case VBool(b) => if b then "True" else "False"
    case VInt(i) => IntToString(i)
    case VReal(_, text) => text
    case VStr(s) => s
    case VOther(text, _) => text
  }

  /** `str(v) if v is not None else ""`, the stringification used by every mapping builder. */
  function StrOrEmpty(v: Value): (s: string)
    ensures v.VStr? ==> s == v.s
    ensures v.VNone? ==> s == []
  {
    if v.VNone? then [] else Str(v)
  }

  /** None, or a string that is empty once stripped. */
  predicate Blank(v: Value) {
    v.VNone? || (v.VStr? && Strip(v.s) == [])
  }

  /** `d.get(k)` */
  function Get(d: map<string, Value>, k: string): Value {
    if k in d then d[k] else VNone
  }
}

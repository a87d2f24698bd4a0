/** Values shared by every part of the model: optional values, the Python
    exceptions the core raises, and the JSON-like values the payload builders
    and representation parameters carry. */
module Common {

  /** A Python value that may be None. */
  datatype Option<+T> = None | Some(value: T) {
    function GetOr(default: T): T {
      if Some? then value else default
    }
  }

  /** The exception classes the core raises, and `NameError`, which `eval` of
      an unknown name raises through `get_targets`. */
  datatype Error = ValueError | RuntimeError | KeyError | TypeError | AttributeError | NameError

  /** The outcome of an operation that either returns a value or raises. */
  datatype Result<+T> = Ok(value: T) | Err(error: Error)

  /** Python truthiness of a `str | None`: None and the empty string are false. */
  predicate Truthy(s: Option<string>) {
    s.Some? && s.value != ""
  }

  /** `(s or "")`: the string itself, or "" when it is None or empty. */
  function OrEmpty(s: Option<string>): (r: string)
    ensures Truthy(s) ==> r == s.value
    ensures !Truthy(s) ==> r == ""
  {
    if s.Some? then s.value else ""
  }

  /** A plain Python value as it travels in the viewer's payloads
      (None, bool, int, float, str, list, tuple, dict with string keys). */
  datatype Json =
    | JNull
    | JBool(b: bool)
    | JInt(i: int)
    | JNum(r: real)
    | JStr(s: string)
    | JList(items: seq<Json>)
    | JTuple(elems: seq<Json>)
    | JDict(fields: map<string, Json>)

  /** Python truthiness of a plain value. */
  predicate JsonTruthy(j: Json) {
    match j
    case JNull => false
    case JBool(b) => b
    case JInt(i) => i != 0
    case JNum(r) => r != 0.0
    case JStr(s) => s != ""
    case JList(xs) => xs != []
    case JTuple(xs) => xs != []
    case JDict(m) => m != map[]
  }

  /** Python `len(j)`: defined for str, list, tuple and dict; a TypeError otherwise. */
  function JsonLen(j: Json): (r: Result<nat>)
    ensures r.Err? <==> j.JNull? || j.JBool? || j.JInt? || j.JNum?
    ensures r.Err? ==> r.error == TypeError
  {
    match j
    case JStr(s) => Ok(|s|)
    case JList(xs) => Ok(|xs|)
    case JTuple(xs) => Ok(|xs|)
    case JDict(m) => Ok(|m.Keys|)
    case _ => Err(TypeError)
  }
}

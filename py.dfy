/** Python-side vocabulary shared by the whole model: optional values,
    results of operations that raise, outcomes of external library calls,
    the JSON-shaped values the service exchanges, and Python truthiness. */
module Py {

  datatype Option<+T> = None | Some(value: T) {
    function GetOr(default: T): T {
      match this
      case Some(v) => v
      case None => default
    }
  }

  /** The result of a modelled operation that may raise a modelled exception. */
  datatype Result<+T, +E> = Success(value: T) | Failure(error: E)

  /** What an external collaborator (a library, the SDK, the parser) returned:
      a value, or the text of the exception it raised. */
  datatype Outcome<+T> = Ok(value: T) | Fail(message: string)

  type Byte = bv8
  type Bytes = seq<Byte>

  /** A Python value as it arrives from decoded JSON (floats are not modelled). */
  datatype PyValue =
    | PyNone
    | PyBool(b: bool)
    | PyInt(i: int)
    | PyStr(s: string)
    | PyList(items: seq<PyValue>)
    | PyDict(entries: map<string, PyValue>)

  /** Python's `bool(v)`. */
  predicate Truthy(v: PyValue) {
    match v
    case PyNone => false
    case PyBool(b) => b
    case PyInt(i) => i != 0
    case PyStr(s) => s != ""
    case PyList(items) => |items| > 0
    case PyDict(entries) => |entries| > 0
  }

  /** Python's `type(v).__name__`. */
  function TypeName(v: PyValue): string {
    match v
    case PyNone => "NoneType"
    case PyBool(_) => "bool"
    case PyInt(_) => "int"
    case PyStr(_) => "str"
    case PyList(_) => "list"
    case PyDict(_) => "dict"
  }

  /** `d.get(key, default)` on a dictionary. */
  function Get(d: map<string, PyValue>, key: string, default: PyValue): (v: PyValue)
    ensures key in d ==> v == d[key]
    ensures key !in d ==> v == default
  {
    if key in d then d[key] else default
  }

  /** The exceptions the modelled code raises or catches; `message` is `str(e)`. */
  datatype PyException =
    | ValueError(message: string)
    | TypeError(message: string)
    | AttributeError(message: string)
    | Exception(message: string)  // a bare `raise Exception(...)`
    | Raised(message: string)     // whatever an external library raised

  /** The AttributeError Python raises for `v.<attribute>` when `v` has no such attribute. */
  function NoAttribute(v: PyValue, attribute: string): PyException {
    AttributeError("'" + TypeName(v) + "' object has no attribute '" + attribute + "'")
  }
}

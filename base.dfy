/** Values shared by every service: optional results and decoded JSON request bodies. */
module Base {

  /** A value that may be absent (Python's `None`, or a missing dictionary key). */
  datatype Option<+T> = None | Some(value: T)
  {
    function GetOr(default: T): T
    {
      match this
      case Some(v) => v
      case None => default
    }
  }

  /** A decoded JSON value, as Flask's `request.get_json()` hands it to a handler. */
  datatype Json =
    | Null
    | Bool(b: bool)
    | Num(n: real)
    | Str(s: string)
    | Arr(items: seq<Json>)
    | Obj(fields: map<string, Json>)

  /** Python truthiness of a decoded JSON value: `None`, `False`, `0`, `""`, `[]` and `{}` are falsy. */
  predicate Truthy(j: Json)
  {
    match j
    case Null => false
    case Bool(b) => b
    case Num(n) => n != 0.0
    case Str(s) => s != ""
    case Arr(items) => items != []
    case Obj(fields) => |fields| != 0
  }

  /** `d.get(k)` on a JSON object: a missing key reads as `None`. */
  function Field(d: map<string, Json>, k: string): Json
  {
    if k in d then d[k] else Null
  }

  /** Python truthiness of an optional string field (`None` and `""` are falsy). */
  predicate PresentText(s: Option<string>)
  {
    s.Some? && s.value != ""
  }
}

/** Python values as they cross the boundaries of the two core files:
    what json.loads produces, what tools receive as arguments, and what
    execute_tool hands to json.dumps. */
module Values {

  datatype Option<+T> = None | Some(value: T)

  /** A Python object that JSON can describe.  Floats are kept as reals
      (no rounding, no NaN or infinities). */
  datatype Value =
    | VNone
    | VBool(b: bool)
    | VInt(i: int)
    | VFloat(r: real)
    | VStr(s: string)
    | VList(items: seq<Value>)
    | VDict(entries: map<string, Value>)

  /** A tool's argument dictionary, e.g. {"query": "AI", "rows": 5}. */
  type Args = map<string, Value>

  /** Python truthiness, as `if result:` applies it. */
  predicate Truthy(v: Value) {
    match v
    case VNone => false
    case VBool(b) => b
    case VInt(i) => i != 0
    case VFloat(r) => r != 0.0
    case VStr(s) => s != ""
    case VList(xs) => xs != []
    case VDict(m) => m != map[]
  }

  /** The one-entry dictionary {"error": message}. */
  function ErrorObject(message: string): (v: Value)
    ensures v.VDict? && v.entries.Keys == {"error"} && v.entries["error"] == VStr(message)
    ensures Truthy(v)
  {
    VDict(map["error" := VStr(message)])
  }
}

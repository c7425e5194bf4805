/**
 * The Python values that flow through the client: filter records, call
 * parameters, host details and the manager's replies are all dictionaries
 * whose entries are drawn from this universe.
 */
module Values {

  datatype Value =
    | VNone
    | VBool(b: bool)
    | VInt(i: int)
    | VStr(s: string)
    | VList(elems: seq<Value>)
    | VDict(entries: map<string, Value>)

  /** Python truthiness: None, False, 0 and empty containers are falsy. */
  predicate Truthy(v: Value) {
    match v
    case VNone => false
    case VBool(b) => b
    case VInt(i) => i != 0
    case VStr(s) => s != ""
    case VList(l) => l != []
    case VDict(m) => m != map[]
  }

  /** Lists and dictionaries cannot be dictionary keys in Python. */
  predicate Hashable(v: Value) {
    !v.VList? && !v.VDict?
  }
}

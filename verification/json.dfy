/**
 The JSON-like values the data-access collaborator returns and accepts, with
 the two Python behaviours the tag code applies to them: truthiness (`if
 output:`) and subscripting by a string key (`output['tag']`).
 */
module Json {
  import opened Wrappers

  datatype Value =
    | JNull
    | JBool(b: bool)
    | JInt(i: int)
    | JStr(s: string)
    | JList(items: seq<Value>)
    | JDict(fields: map<string, Value>)

  /** Python truthiness: `None`, `False`, `0` and empty strings, lists and dicts are false. */
  predicate Truthy(v: Value) {
    match v
    case JNull => false
    case JBool(b) => b
    case JInt(i) => i != 0
    case JStr(s) => |s| > 0
    case JList(items) => |items| > 0
    case JDict(fields) => |fields| > 0
  }

  /** The exceptions the tag code itself can raise while reading a response. */
  datatype PyError =
    | KeyError(key: string)
    | TypeError
    | AttributeError(attr: string)

  /** `v[key]`: a dict lookup, a `KeyError` on a missing key, a `TypeError` on a non-dict. */
  function Index(v: Value, key: string): (r: Result<Value, PyError>)
    ensures r.Ok? <==> v.JDict? && key in v.fields
    ensures r.Ok? ==> r.value == v.fields[key]
    ensures r.Err? ==> r.error == (if v.JDict? then KeyError(key) else TypeError)
  {
    match v
    case JDict(fields) => if key in fields then Ok(fields[key]) else Err(KeyError(key))
    case _ => Err(TypeError)
  }
}

/** JSON/YAML values, for the `Any`-typed parts of documents and payloads. */
module Values {
  import opened Dicts

  datatype Value =
    | VNull
    | VBool(b: bool)
    | VInt(i: int)
    | VStr(s: string)
    | VList(items: seq<Value>)
    | VObject(fields: seq<(string, Value)>)

  /** Python's `bool(v)`. */
  predicate Truthy(v: Value)
  {
    match v
    case VNull => false
    case VBool(b) => b
    case VInt(i) => i != 0
    case VStr(s) => s != []
    case VList(items) => items != []
    case VObject(fields) => fields != []
  }

  /** Python's `a or b`: `a` when it is truthy, `b` otherwise. */
  function Or(a: Value, b: Value): (r: Value)
    ensures Truthy(a) ==> r == a
    ensures !Truthy(a) ==> r == b
  {
    if Truthy(a) then a else b
  }

  /** `obj.get(k)` on a JSON object given as a map: null when absent. */
  function Field(m: map<string, Value>, k: string): (r: Value)
    ensures k in m ==> r == m[k]
    ensures k !in m ==> r == VNull
  {
    if k in m then m[k] else VNull
  }

  /** A `dict[str, str]` seen as a JSON object. */
  function StrDictValue(d: Dict<string>): (r: Value)
    ensures r.VObject? && |r.fields| == |d|
    ensures forall i :: 0 <= i < |d| ==> r.fields[i] == (d[i].0, VStr(d[i].1))
  {
    VObject(seq(|d|, i requires 0 <= i < |d| => (d[i].0, VStr(d[i].1))))
  }
}

/** JSON values as the harness sees them after parsing. */
module Json {

  datatype Json =
    | Null
    | Bool(b: bool)
    | Int(n: int)
    | Float(r: real)
    | Str(s: string)
    | Arr(items: seq<Json>)
    | Obj(fields: map<string, Json>)

  /** `value.get(key)`: a missing key reads as null. */
  function Get(j: Json, key: string): (r: Json)
    requires j.Obj?
  {
    if key in j.fields then j.fields[key] else Null
  }

  predicate Truthy(j: Json) {
    match j
    case Null => false
    case Bool(b) => b
    case Int(n) => n != 0
    case Float(r) => r != 0.0
    case Str(s) => s != ""
    case Arr(items) => items != []
    case Obj(fields) => fields != map[]
  }

  /** A JSON integer that is not negative; booleans and floats do not count. */
  predicate IsCount(j: Json) { j.Int? && j.n >= 0 }

  /** Indexing `value[0]` raises unless a non-empty list or string is there. */
  predicate IndexRaises(j: Json) { Truthy(j) && !j.Arr? && !j.Str? }

  /** The first element of a list when it is an object, else an empty object. */
  function FirstObject(j: Json): (o: Json)
    requires Truthy(j) && !IndexRaises(j)
    ensures o.Obj?
  {
    if j.Arr? && j.items[0].Obj? then j.items[0] else Obj(map[])
  }
}

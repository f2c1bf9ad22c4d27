/** Values as Python's `json` reads them. */
module JsonValues {

  datatype Json =
    | Null
    | Bool(truth: bool)
    | Int(number: int)
    | Float(value: real)
    | Infinite                 // `Infinity`, or a number too large for a float
    | NotANumber
    | Text(text: string)
    | List(items: seq<Json>)
    | Dict(fields: map<string, Json>)

  /** `value.get(key)`. */
  function Get(fields: map<string, Json>, key: string): Json {
    if key in fields then fields[key] else Null
  }

  /** Python's truth of a value. */
  predicate Truthy(json: Json): (truth: bool)
    ensures truth <==> json !in {Null, Bool(false), Int(0), Float(0.0), Text(""), List([]), Dict(map[])}
  {
    match json
    case Null => false
    case Bool(truth) => truth
    case Int(number) => number != 0
    case Float(value) => value != 0.0
    case Infinite => true
    case NotANumber => true
    case Text(text) => text != ""
    case List(items) => items != []
    case Dict(fields) => fields != map[]
  }
}

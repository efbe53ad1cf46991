/**
  Dynamically typed values: what `json.Unmarshal` produces into a
  `map[string]interface{}`, plus the other Go types the metadata renderer
  distinguishes.
 */
module Values {

  datatype Value =
    | Str(s: string)                  // string
    | Int(i: int)                     // int
    | Float(f: real)                  // float64 (every JSON number)
    | Strs(strs: seq<string>)         // []string
    | Ints(ints: seq<int>)            // []int
    | Floats(floats: seq<real>)       // []float64
    | Object(fields: map<string, Value>)  // map[string]interface{}
    | List(items: seq<Value>)         // []interface{}
    | Bool(b: bool)                   // bool
    | Null                            // nil

  /** One decoded structured log line. */
  type Record = map<string, Value>
}

/**
  The values the tool works on and the narrow interfaces of the libraries it
  calls. A decoded JSON document is what Go's `json.Unmarshal` produces into an
  `interface{}`: nil, bool, float64, string, []interface{} or
  map[string]interface{}. The JSON encoder, the `%.10g` number printer and the
  JSONPath evaluator are foreign code; they appear here only as records of
  functions that every operation of the model takes as a parameter, so each
  property proved holds for every implementation of them.
 */
module JsonValue {

  datatype Option<+T> = None | Some(value: T)

  datatype Result<+T> = Ok(value: T) | Err(error: string)

  /** An error value in the sense of Go's `error`: nil (Pass) or a message. */
  datatype Outcome = Pass | Fail(error: string)

  /** A decoded JSON value. Numbers are Go float64 values, kept as reals. */
  datatype Json =
    | Null
    | Bool(b: bool)
    | Num(n: real)
    | Str(s: string)
    | Arr(items: seq<Json>)
    | Obj(members: map<string, Json>)

  /** The encoding functions the formatter relies on. */
  datatype Codec = Codec(
    marshal: Json -> Result<string>,        // json.Marshal
    marshalIndent: Json -> Result<string>,  // json.MarshalIndent(v, "", "  ")
    formatG10: real -> string)              // fmt's "%.10g"

  /** The JSONPath library: jp.ParseString, then Get on the parsed expression.
      The parsed expression is identified with the query text it came from. */
  datatype JsonPath = JsonPath(
    parse: string -> Outcome,
    get: (string, Json) -> seq<Json>)

  /** What a sequence of `fmt.Println` calls writes: each payload followed by a newline. */
  function Text(lines: seq<string>): string
  {
    if lines == [] then "" else lines[0] + "\n" + Text(lines[1..])
  }
}

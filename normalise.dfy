/**
  The evaluator always answers with a sequence of matches; the tool turns it
  into one value. `main` substitutes `[nil]` for an empty answer and then
  unwraps a one-element answer (main.go); the test helper
  `executeJSONPathQuery` returns nil for an empty answer directly
  (main_test.go). Both are modelled as written and shown to agree.
 */
module Normalise {
  import opened JsonValue

  /** The value `main` hands to the formatter (finalResult). */
  function MainFinalResult(matches: seq<Json>): (r: Json)
    ensures |matches| == 0 ==> r == Null
    ensures |matches| == 1 ==> r == matches[0]
    ensures |matches| >= 2 ==> r == Arr(matches) && |r.items| == |matches|
  {
    var result := if |matches| == 0 then [Null] else matches;
    if |result| == 1 then result[0] else Arr(result)
  }

  /** The pair (interface{}, error) returned by executeJSONPathQuery. */
  datatype QueryAnswer = QueryAnswer(value: Json, err: Option<string>)

  /** executeJSONPathQuery: parse, evaluate, then nil / unwrap / keep. */
  function ExecuteJsonPathQuery(lib: JsonPath, query: string, data: Json): (r: QueryAnswer)
    ensures lib.parse(query).Fail? ==> r == QueryAnswer(Null, Some(lib.parse(query).error))
    ensures lib.parse(query) == Pass ==> r.err == None
    ensures lib.parse(query) == Pass && |lib.get(query, data)| == 0 ==> r.value == Null
    ensures lib.parse(query) == Pass && |lib.get(query, data)| == 1 ==> r.value == lib.get(query, data)[0]
    ensures lib.parse(query) == Pass && |lib.get(query, data)| >= 2 ==> r.value == Arr(lib.get(query, data))
  {
    match lib.parse(query)
    case Fail(e) => QueryAnswer(Null, Some(e))
    case Pass =>
      var result := lib.get(query, data);
      if |result| == 0 then QueryAnswer(Null, None)
      else if |result| == 1 then QueryAnswer(result[0], None)
      else QueryAnswer(Arr(result), None)
  }

  /** The wrapping never yields a sequence of length 0 or 1: an array with fewer
      than two items can only be the one match itself, a JSON array of the document. */
  lemma NeverShortWrapper(lib: JsonPath, query: string, data: Json)
    requires ExecuteJsonPathQuery(lib, query, data).value.Arr?
    requires |ExecuteJsonPathQuery(lib, query, data).value.items| < 2
    ensures lib.parse(query) == Pass
    ensures |lib.get(query, data)| == 1
    ensures lib.get(query, data)[0] == ExecuteJsonPathQuery(lib, query, data).value
  {
  }

  /** On every evaluator answer, the test helper and `main` compute the same value,
      though `main` goes through `[nil]` for an empty answer. */
  lemma MainAgreesWithTestHelper(lib: JsonPath, query: string, data: Json)
    requires lib.parse(query) == Pass
    ensures ExecuteJsonPathQuery(lib, query, data) == QueryAnswer(MainFinalResult(lib.get(query, data)), None)
  {
  }
}

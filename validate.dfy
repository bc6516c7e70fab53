/**
  The cheap syntactic guard run on the query before the file is touched
  (`validateJSONPath` in main.go). Full syntax checking is the JSONPath
  library's job; this only insists on a non-empty query rooted at `$`.
 */
module Validate {
  import opened JsonValue

  const EmptyPathMessage := "empty JSONPath"
  const NoRootMessage := "JSONPath must start with '$'"

  /** Go's strings.HasPrefix. */
  predicate HasPrefix(s: string, prefix: string)
  {
    |prefix| <= |s| && s[..|prefix|] == prefix
  }

  /** validateJSONPath: nil for a query that starts with `$`, otherwise one of two errors. */
  function ValidateJsonPath(path: string): (r: Outcome)
    ensures r == Pass <==> |path| > 0 && path[0] == '$'
    ensures path == [] ==> r == Fail(EmptyPathMessage)
    ensures path != [] && path[0] != '$' ==> r == Fail(NoRootMessage)
  {
    if path == "" then Fail(EmptyPathMessage)
    else if !HasPrefix(path, "$") then Fail(NoRootMessage)
    else Pass
  }

  /** Every query the validator lets through has the root marker, and it
      accepts every text that begins with it, whatever follows. */
  lemma AcceptsEveryRootedQuery(rest: string)
    ensures ValidateJsonPath("$" + rest) == Pass
  {
  }

  /** The table of the validator's tests: the four rooted queries pass, the
      empty query and the query without a leading `$` fail. */
  lemma ValidatorTestTable()
    ensures ValidateJsonPath("$") == Pass
    ensures ValidateJsonPath("$.users") == Pass
    ensures ValidateJsonPath("$.users[0]") == Pass
    ensures ValidateJsonPath("$.users[?(@.age > 25)]") == Pass
    ensures ValidateJsonPath("") == Fail(EmptyPathMessage)
    ensures ValidateJsonPath("users[0]") == Fail(NoRootMessage)
  {
  }
}

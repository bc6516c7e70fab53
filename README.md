# query_json, modelled in Dafny

`query_json` is a command-line tool. It reads a JSON file and evaluates a
JSONPath query against it, using the `ojg/jp` library. It prints the matches
as indented or compact JSON, or, with `--raw`, as bare text. The logic that
belongs to the tool itself is small. This model covers all of it:

- **Query pre-validation** (`Validate`). `validateJSONPath` rejects the empty
  query and any query that does not start with `$`.
- **Result normalisation** (`Normalise`). The evaluator always returns a
  sequence. `main` turns an empty sequence into `[nil]` and then unwraps a
  one-element sequence. The test helper `executeJSONPathQuery` returns nil for
  an empty sequence directly. Both are modelled as written, and
  `MainAgreesWithTestHelper` shows they compute the same value.
- **Output formatting** (`Output`). `outputResult` is a decision table over
  the kind of value and the `pretty` and `raw` flags. `Format` is its
  specification. `OutputResult` is the imperative form, a method with its branches, and
  is proved equal to `Format`. The raw-array loop is the method
  `EmitRawArray`, proved equal to its specification `RawArray`. Each
  `fmt.Println` call is one entry of `Printed.lines`. `JsonValue.Text` gives
  the text written to standard output as a string of characters (each entry
  followed by a newline).
- **A reference encoder** (`Encoding`). The tests pin down one property of
  Go's encoder: object keys come out in sorted order, with a two-space indent.
  `Compact` and `Pretty` model `json.Marshal` and
  `json.MarshalIndent(v, "", "  ")`. Keys are ordered by `SortedKeys`.
  String escaping and number spelling are parameters of type `Scalars`.
  Go compares keys byte by byte. On UTF-8 text that is the same as comparing
  code points, which is what `Less` does.
- **The `main` guard chain** (`Cli`). `Run` is a pure function from the
  parsed command line, the build metadata and the collaborators (`Host`) to
  an `Exit`. An `Exit` holds the exit status, the stdout and stderr lines, and
  the external steps attempted, in order.

The foreign code is passed in as values. This covers the encoders, `%.10g`,
the JSONPath parser and evaluator, `os.Open`, `io.ReadAll` and
`json.Unmarshal`. They are records of functions (`JsonValue.Codec`,
`JsonValue.JsonPath`, `Cli.Host`), so every property below holds for any
implementation of them. A JSON value is the `JsonValue.Json` datatype:
Null, Bool, Num, Str, Arr(seq) and Obj(map). These are the shapes that
`json.Unmarshal` builds into an `interface{}`.

Three facts about the code are worth stating, because a reader might expect
otherwise:

- In the raw-array branch, `outputResult` prints the earlier items before
  `json.Marshal` can fail on a later one (main.go:133-144). So an error exit
  can follow partial output. `Output.RawArrayStopsAtFailure` states what is
  printed in that case. `Cli.ExitStatusPolicy` says that this is the only
  failure that can come after output.
- The test helper never makes a wrapping array of fewer than two items, but
  the one match can itself be such an array of the document
  (main_test.go:529-538). `Normalise.NeverShortWrapper` states this exact
  property.
- A failure of `io.ReadAll` has its own message, `Error reading file:`
  (main.go:72-76). `Cli.UnreadableFile` states it.

## Model

| member | source | states |
|---|---|---|
| Validate.ValidateJsonPath | main.go:168-177 | A query passes if and only if it is non-empty and its first character is `$`. The empty query fails with "empty JSONPath". A non-empty query without the leading `$` fails with "JSONPath must start with '$'". |
| Validate.AcceptsEveryRootedQuery | main.go:173-176 | Every text of the form `$` followed by anything passes. |
| Validate.ValidatorTestTable | main_test.go:164-215 | `$`, `$.users`, `$.users[0]` and `$.users[?(@.age > 25)]` pass. `""` fails with "empty JSONPath" and `users[0]` with "JSONPath must start with '$'". |
| Normalise.MainFinalResult | main.go:93-104 | No matches give null. One match gives that element itself. Two or more matches give the same sequence as an array, with the same length and order. |
| Normalise.ExecuteJsonPathQuery | main_test.go:520-539 | If the query does not parse, the result is the parse error with a nil value. Otherwise there is no error, and the value is nil for no matches, the element itself for one match, and the evaluator's sequence unchanged for two or more. |
| Normalise.NeverShortWrapper | main_test.go:529-538 | If the returned value is an array with fewer than two items, the query parsed, there was exactly one match, and the value is that match. |
| Normalise.MainAgreesWithTestHelper | main_test.go:520-539 | For every evaluator answer to a query that parses, the test helper returns no error and the same value that `main` computes at main.go:93-104. |
| Encoding.SortedKeys | main_test.go:128-133 | The object's keys are listed in strictly increasing order, each exactly once. |
| Encoding.SortedUnique | main_test.go:128-133 | Two strictly increasing listings of the same keys are equal, so the key order the encoder writes is fully determined. |
| Encoding.Indent | main.go:154 | The prefix for nesting level d is 2·d spaces (the `"  "` indent argument). |
| Encoding.ReferenceCodec | main.go:153-157 | The reference codec never fails. For every object, and any strictly increasing listing of its keys, `marshalIndent` writes one member per line in that key order inside `{` and `}`, and `marshal` writes the members in that order separated by commas. |
| Encoding.PrettyObjectInKeyOrder | main.go:154 | The indented encoding of a non-empty object has one member per line. The members follow any strictly increasing listing of the keys, inside `{` and `}` at the object's own indent. |
| Encoding.CompactObjectInKeyOrder | main.go:156 | The compact encoding of an object writes its members in increasing key order, separated by commas. |
| Encoding.PrettyObjectTestCase | main_test.go:128-133 | `{"name": "Alice", "age": 30}` is encoded as `{\n  "age": 30,\n  "name": "Alice"\n}`. |
| Output.RawArray | main.go:131-145 | The raw-array branch prints at most one line per item. It prints exactly one per item when it returns no error, and fewer when it returns one. |
| Output.EmitRawArray | main.go:131-145 | The loop's output equals `RawArray`: one line per item in order, stopping at the first item that fails to encode and returning its error. |
| Output.OutputResult | main.go:113-165 | The method's lines and error equal the decision table `Format` for every value, `pretty` and `raw`. |
| Output.RawArrayAllEncoded | main.go:133-145 | If every item encodes, the loop prints exactly one line per item, in item order, and returns no error. |
| Output.RawArrayStopsAtFailure | main.go:138-141 | If item k is the first that fails to encode, the loop prints exactly the lines of items 0..k-1 and returns item k's error. |
| Output.NullPrintsNull | main.go:114-117 | null prints exactly the single line `null` for every `pretty` and `raw`, with no error. |
| Output.StringOutput | main.go:122-124 | With `raw`, a string prints bare as one line. Without `raw`, it prints as the encoder's (quoted) output. |
| Output.RawScalarOutput | main.go:125-130 | With `raw`, a number prints as one line of `%.10g`, and a boolean as `true` or `false`. |
| Output.RawArrayOutput | main.go:131-145 | With `raw`, an array whose items all encode prints one line per element, in element order. String elements print bare and other elements print as their compact JSON. There is no error. |
| Output.RawObjectIsJson | main.go:120-163 | With `raw`, an object prints exactly as it does without `raw`, for the same `pretty` flag. |
| Output.JsonOutput | main.go:150-164 | Without `raw`, a non-null value prints as one line of the indented encoding if `pretty` and the compact encoding if not, or as nothing with the encoder's error. |
| Output.AtMostOneLineUnlessRawArray | main.go:113-165 | Only a raw array prints more than one line, and never more lines than it has items. Any other value that fails prints nothing. |
| Output.ScalarTestCases | main_test.go:85-119 | Through the reference codec, stdout is `null\n` for null, `hello\n` for raw "hello", `"hello"\n` for compact "hello", `42.5\n` for raw 42.5 and `true\n` for raw true. |
| Output.RawEmailsTestCase | main_test.go:120-126 | A raw array of the two addresses prints `alice@example.com\nbob@example.com\n`, for every codec. |
| Output.PrettyObjectTestCase | main_test.go:127-133 | The pretty object test prints `{\n  "age": 30,\n  "name": "Alice"\n}\n`. |
| Cli.VersionComesFirst | main.go:33-38 | With `--version`, the run prints the three-line banner and exits 0 before any other check, with no other step taken. |
| Cli.MissingFileBeforeQuery | main.go:40-49 | With no positional argument, the run exits 1 with the usage text and takes no step, even when the query is empty. |
| Cli.EmptyQueryRefused | main.go:53-56 | An empty query exits 1 with "Error: --query parameter is required", before validation and before any file access. |
| Cli.UnrootedQueryRefusedWithoutIo | main.go:58-62 | A non-empty query without the leading `$` exits 1 with the invalid-JSONPath message, and no file is opened. |
| Cli.ChecksInOrder | main.go:33-90 | The steps taken are always a prefix of open, read, decode, parse, evaluate, format. A file is opened only after the version, argument, empty-query and validation checks pass. Parsing happens only after the document decoded. |
| Cli.ExitStatusPolicy | main.go:33-110 | The exit status is 0 or 1. Status 0 has an empty stderr. Every failure except a missing file argument writes exactly one stderr line. Only a formatting failure can come after stdout output. Apart from `--version`, every run that stops before the last step exits 1. |
| Cli.SuccessfulRunPrintsResult | main.go:92-110 | Once every check passes, all six steps run. Stdout is the formatter's output for the normalised matches, and the status is 0 exactly when formatting succeeds. |
| Cli.NoMatchPrintsNull | main.go:93-96 | A query with no match writes exactly `null\n` and exits 0. |
| Cli.SingleMatchUnwrapped | main.go:98-101 | A single match is printed as the element itself, never as a one-element array. |
| Cli.RawStringMatchesOnePerLine | main.go:93-104 | With `raw` and two or more string matches, each match prints bare on its own line in the evaluator's order, and the run exits 0. |
| Cli.MalformedDocument | main.go:78-83 | A document that does not decode exits 1 with "Error parsing JSON: …". Nothing goes to stdout, and the query is never parsed. |
| Cli.UnopenableFile | main.go:64-69 | A file that cannot be opened exits 1 with "Error opening file: …", before anything is read. |
| Cli.UnreadableFile | main.go:72-76 | A file that opens but cannot be read exits 1 with "Error reading file: …". Nothing goes to stdout, and the document is never decoded. |
| Cli.UnparsableQuery | main.go:86-90 | A query the JSONPath library rejects exits 1 with "Error parsing JSONPath: …", after the document decoded. Nothing goes to stdout, and nothing is evaluated. |

`Cli.Run` (main.go:22-111), `Output.Format` (main.go:113-165) and
`Encoding.Compact` and `Encoding.Pretty` (main.go:153-157) only compute. What
they promise is stated by the lemmas and methods about them above.

## Left out

- Flag parsing with Go's `flag` package and the usage text (main.go:27-31, 41-47) are not modelled. `Cli.CommandLine` is the outcome of parsing, and `Host.usage` is the usage text.
- File I/O (`os.Open`, `io.ReadAll`, `defer file.Close()`) is not modelled. Each step is a function in `Cli.Host` that succeeds or fails.
- `json.Unmarshal` is a parameter, as are string escaping and number spelling in the encoder (`Encoding.Scalars`). These are foreign library code.
- JSONPath parsing and evaluation (`jp.ParseString`, `expr.Get`) are a parameter, `JsonValue.JsonPath`. Filters, wildcards, slices and recursive descent belong to the library. So do the match counts of the query table test (main_test.go:235-294), which depend on them.
- `%.10g` formatting is the parameter `Codec.formatG10`, because it is floating-point printing.
- Numbers are reals, not float64. The tool does no arithmetic on numbers; any float64 rounding happens inside the `unmarshal` parameter, and its printing inside `Scalars.number` and `Codec.formatG10`.
- The round trip "pretty-print, then re-parse, gives the same value" is not modelled, because re-parsing belongs to the foreign decoder.
- Normalise.ExecuteJsonPathQuery: the parsed expression is identified with the query text, so an evaluator that gives different answers for two parses of the same text is not modelled.
- The build-time defaults "dev" and "unknown" (main.go:16-20) are a parameter, `Cli.BuildInfo`. The benchmarks (main_test.go:480-517) and the stdout-capture harness of the tests are not modelled.
- The process ending through `os.Exit` is modelled as the `Exit` value that `Cli.Run` returns.

/**
  The guard chain of `main` (main.go): a fixed order of checks, each of which
  ends the run with a message on standard error and exit status 1, then the
  formatted result on standard output. Flag parsing, the file system, the
  JSON decoder, the JSONPath library and the encoders are parameters; `Run`
  records which of them it called, so that the order of the checks can be
  stated.
 */
module Cli {
  import opened JsonValue
  import Validate
  import Normalise
  import Output

  /** The command line after flag.Parse: the four flags and the positional arguments. */
  datatype CommandLine = CommandLine(
    query: string, pretty: bool, raw: bool, showVersion: bool, args: seq<string>)

  /** The build-time version metadata (set by the linker; "dev"/"unknown" by default). */
  datatype BuildInfo = BuildInfo(version: string, commit: string, date: string)

  /** The collaborators `main` calls. */
  datatype Host = Host(
    usage: seq<string>,                  // what flag.PrintDefaults and the usage lines print
    open: string -> Outcome,             // os.Open(filename)
    readAll: string -> Result<seq<bv8>>, // io.ReadAll on the opened file
    unmarshal: seq<bv8> -> Result<Json>, // json.Unmarshal
    jsonPath: JsonPath,                  // jp.ParseString and Get
    codec: Codec)                        // the encoders outputResult uses

  /** The external steps, in the order `main` attempts them. */
  datatype Stage = OpenFile | ReadFile | DecodeJson | ParseQuery | Evaluate | FormatOutput

  const Pipeline := [OpenFile, ReadFile, DecodeJson, ParseQuery, Evaluate, FormatOutput]

  /** How the process ends. */
  datatype Exit = Exit(code: int, stdout: seq<string>, stderr: seq<string>, stages: seq<Stage>)

  const QueryRequiredMessage := "Error: --query parameter is required"

  function VersionBanner(b: BuildInfo): seq<string>
  {
    ["query_json version " + b.version, "  commit: " + b.commit, "  built: " + b.date]
  }

  /** One diagnostic line on standard error and exit status 1. */
  function Failure(message: string, stages: seq<Stage>): Exit
  {
    Exit(1, [], [message], stages)
  }

  /** main. */
  function Run(cmd: CommandLine, build: BuildInfo, host: Host): Exit
  {
    if cmd.showVersion then Exit(0, VersionBanner(build), [], [])
    else if |cmd.args| < 1 then Exit(1, [], host.usage, [])
    else
      var filename := cmd.args[0];
      if cmd.query == "" then Failure(QueryRequiredMessage, [])
      else match Validate.ValidateJsonPath(cmd.query)
        case Fail(e) => Failure("Error: Invalid JSONPath query: " + e, [])
        case Pass =>
          match host.open(filename)
          case Fail(e) => Failure("Error opening file: " + e, Pipeline[..1])
          case Pass =>
            match host.readAll(filename)
            case Err(e) => Failure("Error reading file: " + e, Pipeline[..2])
            case Ok(data) =>
              match host.unmarshal(data)
              case Err(e) => Failure("Error parsing JSON: " + e, Pipeline[..3])
              case Ok(doc) =>
                match host.jsonPath.parse(cmd.query)
                case Fail(e) => Failure("Error parsing JSONPath: " + e, Pipeline[..4])
                case Pass =>
                  var finalResult := Normalise.MainFinalResult(host.jsonPath.get(cmd.query, doc));
                  var out := Output.Format(finalResult, cmd.pretty, cmd.raw, host.codec);
                  match out.err
                  case Some(e) => Exit(1, out.lines, ["Error formatting output: " + e], Pipeline)
                  case None => Exit(0, out.lines, [], Pipeline)
  }

  /** Every check passes and the document decodes to `doc`. */
  predicate ReachesEvaluation(cmd: CommandLine, host: Host, doc: Json)
  {
    && !cmd.showVersion
    && |cmd.args| >= 1
    && Validate.ValidateJsonPath(cmd.query) == Pass
    && host.open(cmd.args[0]) == Pass
    && host.readAll(cmd.args[0]).Ok?
    && host.unmarshal(host.readAll(cmd.args[0]).value) == Ok(doc)
    && host.jsonPath.parse(cmd.query) == Pass
  }

  /** --version prints the banner and exits 0 before any other check. */
  lemma VersionComesFirst(cmd: CommandLine, build: BuildInfo, host: Host)
    requires cmd.showVersion
    ensures Run(cmd, build, host) == Exit(0, VersionBanner(build), [], [])
    ensures |Run(cmd, build, host).stdout| == 3
  {
  }

  /** A missing file argument is reported (with the usage text) before the
      query is looked at, even an empty one. */
  lemma MissingFileBeforeQuery(cmd: CommandLine, build: BuildInfo, host: Host)
    requires !cmd.showVersion && cmd.args == []
    ensures Run(cmd, build, host) == Exit(1, [], host.usage, [])
  {
  }

  /** An empty query is refused before validation and before the file is opened. */
  lemma EmptyQueryRefused(cmd: CommandLine, build: BuildInfo, host: Host)
    requires !cmd.showVersion && |cmd.args| >= 1 && cmd.query == ""
    ensures Run(cmd, build, host) == Failure(QueryRequiredMessage, [])
  {
  }

  /** A query without the leading `$` exits 1 citing the invalid JSONPath,
      and no file is opened. */
  lemma UnrootedQueryRefusedWithoutIo(cmd: CommandLine, build: BuildInfo, host: Host)
    requires !cmd.showVersion && |cmd.args| >= 1
    requires cmd.query != "" && cmd.query[0] != '$'
    ensures Run(cmd, build, host)
         == Failure("Error: Invalid JSONPath query: " + Validate.NoRootMessage, [])
  {
  }

  /** The steps taken are always a prefix of the pipeline, and the file is only
      opened for a query that passed validation. */
  lemma ChecksInOrder(cmd: CommandLine, build: BuildInfo, host: Host)
    ensures Run(cmd, build, host).stages <= Pipeline
    ensures |Run(cmd, build, host).stages| > 0 ==>
              !cmd.showVersion && |cmd.args| >= 1 && Validate.ValidateJsonPath(cmd.query) == Pass
    ensures |Run(cmd, build, host).stages| > 1 ==> host.open(cmd.args[0]) == Pass
    ensures |Run(cmd, build, host).stages| > 3 ==>
              exists doc :: host.unmarshal(host.readAll(cmd.args[0]).value) == Ok(doc)
  {
  }

  /** Exit status 0 is success with nothing on standard error; every failure
      exits 1 with one diagnostic line (the usage text for a missing file), and
      only a failure while formatting can follow output on standard out. */
  lemma ExitStatusPolicy(cmd: CommandLine, build: BuildInfo, host: Host)
    ensures Run(cmd, build, host).code == 0 || Run(cmd, build, host).code == 1
    ensures Run(cmd, build, host).code == 0 ==> Run(cmd, build, host).stderr == []
    ensures Run(cmd, build, host).code == 1 && !(cmd.args == [] && !cmd.showVersion)
            ==> |Run(cmd, build, host).stderr| == 1
    ensures Run(cmd, build, host).code == 1 && Run(cmd, build, host).stages != Pipeline
            ==> Run(cmd, build, host).stdout == []
    ensures !cmd.showVersion && Run(cmd, build, host).stages != Pipeline ==> Run(cmd, build, host).code == 1
  {
  }

  /** Once every check has passed, standard output is the formatter's output for
      the normalised matches, and the run succeeds exactly when formatting does. */
  lemma SuccessfulRunPrintsResult(cmd: CommandLine, build: BuildInfo, host: Host, doc: Json)
    requires ReachesEvaluation(cmd, host, doc)
    ensures Run(cmd, build, host).stages == Pipeline
    ensures Run(cmd, build, host).stdout
         == Output.Format(Normalise.MainFinalResult(host.jsonPath.get(cmd.query, doc)), cmd.pretty, cmd.raw, host.codec).lines
    ensures (Run(cmd, build, host).code == 0)
         == Output.Format(Normalise.MainFinalResult(host.jsonPath.get(cmd.query, doc)), cmd.pretty, cmd.raw, host.codec).err.None?
  {
  }

  /** A query with no match prints exactly `null` and succeeds. */
  lemma NoMatchPrintsNull(cmd: CommandLine, build: BuildInfo, host: Host, doc: Json)
    requires ReachesEvaluation(cmd, host, doc)
    requires host.jsonPath.get(cmd.query, doc) == []
    ensures Run(cmd, build, host).code == 0
    ensures Text(Run(cmd, build, host).stdout) == "null\n"
  {
  }

  /** A single match is printed as itself, never as a one-element array. */
  lemma SingleMatchUnwrapped(cmd: CommandLine, build: BuildInfo, host: Host, doc: Json)
    requires ReachesEvaluation(cmd, host, doc)
    requires |host.jsonPath.get(cmd.query, doc)| == 1
    ensures Run(cmd, build, host).stdout
         == Output.Format(host.jsonPath.get(cmd.query, doc)[0], cmd.pretty, cmd.raw, host.codec).lines
  {
  }

  /** Several matches with --raw, all strings: each printed bare on its own
      line, in the evaluator's order. */
  lemma RawStringMatchesOnePerLine(cmd: CommandLine, build: BuildInfo, host: Host, doc: Json)
    requires ReachesEvaluation(cmd, host, doc) && cmd.raw
    requires |host.jsonPath.get(cmd.query, doc)| >= 2
    requires forall i :: 0 <= i < |host.jsonPath.get(cmd.query, doc)| ==> host.jsonPath.get(cmd.query, doc)[i].Str?
    ensures Run(cmd, build, host).code == 0
    ensures |Run(cmd, build, host).stdout| == |host.jsonPath.get(cmd.query, doc)|
    ensures forall i :: 0 <= i < |host.jsonPath.get(cmd.query, doc)| ==>
              Run(cmd, build, host).stdout[i] == host.jsonPath.get(cmd.query, doc)[i].s
  {
    var matches := host.jsonPath.get(cmd.query, doc);
    Output.RawArrayOutput(matches, cmd.pretty, host.codec);
  }

  /** A document that does not decode stops the run with a JSON-parsing error
      and nothing on standard output. */
  lemma MalformedDocument(cmd: CommandLine, build: BuildInfo, host: Host)
    requires !cmd.showVersion && |cmd.args| >= 1
    requires Validate.ValidateJsonPath(cmd.query) == Pass
    requires host.open(cmd.args[0]) == Pass && host.readAll(cmd.args[0]).Ok?
    requires host.unmarshal(host.readAll(cmd.args[0]).value).Err?
    ensures Run(cmd, build, host)
         == Failure("Error parsing JSON: " + host.unmarshal(host.readAll(cmd.args[0]).value).error, Pipeline[..3])
  {
  }

  /** A file that cannot be opened stops the run with a file-open error,
      before anything is read or decoded. */
  lemma UnopenableFile(cmd: CommandLine, build: BuildInfo, host: Host)
    requires !cmd.showVersion && |cmd.args| >= 1
    requires Validate.ValidateJsonPath(cmd.query) == Pass
    requires host.open(cmd.args[0]).Fail?
    ensures Run(cmd, build, host) == Failure("Error opening file: " + host.open(cmd.args[0]).error, [OpenFile])
  {
  }

  /** A file that opens but cannot be read stops the run with a read error,
      before anything is decoded. */
  lemma UnreadableFile(cmd: CommandLine, build: BuildInfo, host: Host)
    requires !cmd.showVersion && |cmd.args| >= 1
    requires Validate.ValidateJsonPath(cmd.query) == Pass
    requires host.open(cmd.args[0]) == Pass && host.readAll(cmd.args[0]).Err?
    ensures Run(cmd, build, host)
         == Failure("Error reading file: " + host.readAll(cmd.args[0]).error, [OpenFile, ReadFile])
  {
  }

  /** A query the JSONPath library rejects stops the run with its parse error,
      after the document decoded and before anything is evaluated or printed. */
  lemma UnparsableQuery(cmd: CommandLine, build: BuildInfo, host: Host, doc: Json)
    requires !cmd.showVersion && |cmd.args| >= 1
    requires Validate.ValidateJsonPath(cmd.query) == Pass
    requires host.open(cmd.args[0]) == Pass && host.readAll(cmd.args[0]).Ok?
    requires host.unmarshal(host.readAll(cmd.args[0]).value) == Ok(doc)
    requires host.jsonPath.parse(cmd.query).Fail?
    ensures Run(cmd, build, host)
         == Failure("Error parsing JSONPath: " + host.jsonPath.parse(cmd.query).error,
                    [OpenFile, ReadFile, DecodeJson, ParseQuery])
  {
  }
}

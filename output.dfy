/**
  The output formatter (`outputResult` in main.go): a decision table over the
  kind of the value and the `pretty` and `raw` flags. Each `fmt.Println` call
  is one entry of `Printed.lines`; `Printed.err` is the error the function
  returns. `Format` is the specification, proved equal to the
  statement-by-statement method `OutputResult`; the raw-array loop
  `EmitRawArray` is proved equal to its specification `RawArray`.
 */
module Output {
  import opened JsonValue
  import Encoding

  /** The payloads one call printed, in order, and the error it returned. */
  datatype Printed = Printed(lines: seq<string>, err: Option<string>)

  /** `%t` of a bool. */
  function BoolText(b: bool): string
  {
    if b then "true" else "false"
  }

  /** One item of a raw array: a string is printed bare, anything else as compact JSON. */
  function RawItem(item: Json, codec: Codec): Result<string>
  {
    if item.Str? then Ok(item.s) else codec.marshal(item)
  }

  /** The raw-array loop: one line per item, stopping at the first item that
      cannot be encoded and returning that item's error. */
  function RawArray(items: seq<Json>, codec: Codec): (r: Printed)
    ensures |r.lines| <= |items|
    ensures r.err == None ==> |r.lines| == |items|
    ensures r.err != None ==> |r.lines| < |items|
  {
    if items == [] then Printed([], None)
    else match RawItem(items[0], codec)
      case Err(e) => Printed([], Some(e))
      case Ok(line) =>
        var rest := RawArray(items[1..], codec);
        Printed([line] + rest.lines, rest.err)
  }

  /** A single encoded line, or nothing printed and the encoder's error. */
  function EncodedLine(encoded: Result<string>): Printed
  {
    match encoded
    case Ok(text) => Printed([text], None)
    case Err(e) => Printed([], Some(e))
  }

  /** outputResult(result, pretty, raw). */
  function Format(result: Json, pretty: bool, raw: bool, codec: Codec): Printed
  {
    if result == Null then Printed(["null"], None)
    else if raw && result.Str? then Printed([result.s], None)
    else if raw && result.Num? then Printed([codec.formatG10(result.n)], None)
    else if raw && result.Bool? then Printed([BoolText(result.b)], None)
    else if raw && result.Arr? then RawArray(result.items, codec)
    else EncodedLine(if pretty then codec.marshalIndent(result) else codec.marshal(result))
  }

  /** The raw-array branch as the loop over the items it is. */
  method EmitRawArray(items: seq<Json>, codec: Codec) returns (out: Printed)
    ensures out == RawArray(items, codec)
  {
    var lines: seq<string> := [];
    var i := 0;
    while i < |items|
      invariant 0 <= i <= |items|
      invariant RawArray(items, codec).err == RawArray(items[i..], codec).err
      invariant RawArray(items, codec).lines == lines + RawArray(items[i..], codec).lines
    {
      var item := items[i];
      assert items[i..][1..] == items[i + 1..];
      if item.Str? {
        lines := lines + [item.s];
      } else {
        var encoded := codec.marshal(item);
        if encoded.Err? {
          return Printed(lines, Some(encoded.error));
        }
        lines := lines + [encoded.value];
      }
      i := i + 1;
    }
    return Printed(lines, None);
  }

  /** outputResult, branch by branch. */
  method OutputResult(result: Json, pretty: bool, raw: bool, codec: Codec) returns (out: Printed)
    ensures out == Format(result, pretty, raw, codec)
  {
    if result == Null {
      return Printed(["null"], None);
    }
    if raw {
      match result {
        case Str(s) => return Printed([s], None);
        case Num(n) => return Printed([codec.formatG10(n)], None);
        case Bool(b) => return Printed([BoolText(b)], None);
        case Arr(items) =>
          out := EmitRawArray(items, codec);
          return;
        case _ =>
      }
    }
    var encoded: Result<string>;
    if pretty {
      encoded := codec.marshalIndent(result);
    } else {
      encoded := codec.marshal(result);
    }
    if encoded.Err? {
      return Printed([], Some(encoded.error));
    }
    return Printed([encoded.value], None);
  }

  /** When every item encodes, the raw-array loop prints exactly one line per
      item, in item order, and returns no error. */
  lemma {:induction false} RawArrayAllEncoded(items: seq<Json>, codec: Codec)
    requires forall i :: 0 <= i < |items| ==> RawItem(items[i], codec).Ok?
    ensures RawArray(items, codec).err == None
    ensures |RawArray(items, codec).lines| == |items|
    ensures forall i :: 0 <= i < |items| ==> RawArray(items, codec).lines[i] == RawItem(items[i], codec).value
  {
    if items != [] {
      assert RawItem(items[0], codec).Ok?;
      RawArrayAllEncoded(items[1..], codec);
      assert forall i :: 1 <= i < |items| ==> items[1..][i - 1] == items[i];
    }
  }

  /** When item k is the first that cannot be encoded, the loop has printed the
      lines of the k items before it and returns item k's error. */
  lemma {:induction false} RawArrayStopsAtFailure(items: seq<Json>, codec: Codec, k: nat)
    requires k < |items|
    requires forall i :: 0 <= i < k ==> RawItem(items[i], codec).Ok?
    requires RawItem(items[k], codec).Err?
    ensures RawArray(items, codec).err == Some(RawItem(items[k], codec).error)
    ensures |RawArray(items, codec).lines| == k
    ensures forall i :: 0 <= i < k ==> RawArray(items, codec).lines[i] == RawItem(items[i], codec).value
  {
    if k > 0 {
      assert RawItem(items[0], codec).Ok?;
      assert forall i :: 1 <= i < |items| ==> items[1..][i - 1] == items[i];
      RawArrayStopsAtFailure(items[1..], codec, k - 1);
    }
  }

  /** null prints the single line `null` whatever the flags, and never fails. */
  lemma NullPrintsNull(pretty: bool, raw: bool, codec: Codec)
    ensures Format(Null, pretty, raw, codec) == Printed(["null"], None)
    ensures Text(Format(Null, pretty, raw, codec).lines) == "null\n"
  {
  }

  /** A string: bare with raw, the encoder's quoted form without. */
  lemma StringOutput(s: string, pretty: bool, codec: Codec)
    ensures Format(Str(s), pretty, true, codec) == Printed([s], None)
    ensures Format(Str(s), pretty, false, codec)
         == EncodedLine(if pretty then codec.marshalIndent(Str(s)) else codec.marshal(Str(s)))
  {
  }

  /** Raw numbers go through `%.10g`, raw booleans through `%t`. */
  lemma RawScalarOutput(n: real, b: bool, pretty: bool, codec: Codec)
    ensures Format(Num(n), pretty, true, codec) == Printed([codec.formatG10(n)], None)
    ensures Format(Bool(b), pretty, true, codec) == Printed([if b then "true" else "false"], None)
  {
  }

  /** A raw array prints one line per element in element order: strings bare,
      everything else as its compact JSON encoding. */
  lemma RawArrayOutput(items: seq<Json>, pretty: bool, codec: Codec)
    requires forall i :: 0 <= i < |items| ==> items[i].Str? || codec.marshal(items[i]).Ok?
    ensures Format(Arr(items), pretty, true, codec).err == None
    ensures |Format(Arr(items), pretty, true, codec).lines| == |items|
    ensures forall i :: 0 <= i < |items| ==>
              Format(Arr(items), pretty, true, codec).lines[i]
              == if items[i].Str? then items[i].s else codec.marshal(items[i]).value
  {
    RawArrayAllEncoded(items, codec);
  }

  /** raw has no form of its own for objects: the output is the JSON output. */
  lemma RawObjectIsJson(m: map<string, Json>, pretty: bool, codec: Codec)
    ensures Format(Obj(m), pretty, true, codec) == Format(Obj(m), pretty, false, codec)
  {
  }

  /** Outside raw, every non-null value is one line: the indented encoding
      with pretty, the compact one without, or nothing and the encoder's error. */
  lemma JsonOutput(v: Json, pretty: bool, codec: Codec)
    requires v != Null
    ensures pretty ==> Format(v, pretty, false, codec) == EncodedLine(codec.marshalIndent(v))
    ensures !pretty ==> Format(v, pretty, false, codec) == EncodedLine(codec.marshal(v))
  {
  }

  /** Only a raw array prints more than one line; an error means that at most
      the lines of a raw array printed before the failing item were written. */
  lemma AtMostOneLineUnlessRawArray(v: Json, pretty: bool, raw: bool, codec: Codec)
    ensures !(raw && v.Arr?) ==> |Format(v, pretty, raw, codec).lines| <= 1
    ensures Format(v, pretty, raw, codec).err.Some? && !(raw && v.Arr?)
            ==> Format(v, pretty, raw, codec).lines == []
    ensures raw && v.Arr? ==> |Format(v, pretty, raw, codec).lines| <= |v.items|
  {
  }

  /** The formatter's table tests on scalars, as text on standard output. */
  lemma ScalarTestCases(codec: Codec, sc: Encoding.Scalars, g10: real -> string)
    requires codec == Encoding.ReferenceCodec(sc, g10)
    requires sc.quote("hello") == "\"hello\"" && g10(42.5) == "42.5"
    ensures Text(Format(Null, true, false, codec).lines) == "null\n"
    ensures Text(Format(Str("hello"), false, true, codec).lines) == "hello\n"
    ensures Text(Format(Str("hello"), false, false, codec).lines) == "\"hello\"\n"
    ensures Text(Format(Num(42.5), false, true, codec).lines) == "42.5\n"
    ensures Text(Format(Bool(true), false, true, codec).lines) == "true\n"
  {
    assert Format(Str("hello"), false, false, codec).lines == ["\"hello\""];
  }

  /** The formatter's test of a raw array of strings: one address per line. */
  lemma RawEmailsTestCase(codec: Codec)
    ensures Text(Format(Arr([Str("alice@example.com"), Str("bob@example.com")]), false, true, codec).lines)
         == "alice@example.com\nbob@example.com\n"
  {
    var emails := [Str("alice@example.com"), Str("bob@example.com")];
    RawArrayAllEncoded(emails, codec);
    var lines := Format(Arr(emails), false, true, codec).lines;
    assert lines == ["alice@example.com", "bob@example.com"];
    assert lines[1..] == ["bob@example.com"] && lines[1..][1..] == [];
    assert Text(lines[1..]) == "bob@example.com\n";
  }

  /** The formatter's test of an object with pretty output: sorted keys, two-space indent. */
  lemma PrettyObjectTestCase(codec: Codec, sc: Encoding.Scalars, g10: real -> string, m: map<string, Json>)
    requires codec == Encoding.ReferenceCodec(sc, g10)
    requires sc.quote("name") == "\"name\"" && sc.quote("age") == "\"age\""
    requires sc.quote("Alice") == "\"Alice\"" && sc.number(30.0) == "30"
    requires m == map["name" := Str("Alice"), "age" := Num(30.0)]
    ensures Text(Format(Obj(m), true, false, codec).lines) == "{\n  \"age\": 30,\n  \"name\": \"Alice\"\n}\n"
  {
    Encoding.PrettyObjectTestCase(sc, m);
    assert Format(Obj(m), true, false, codec).lines == [Encoding.Pretty(Obj(m), 0, sc)];
  }
}

/**
  A reference for the two encodings the formatter prints: Go's
  `json.Marshal` (compact) and `json.MarshalIndent(v, "", "  ")` (one member or
  item per line, two spaces per nesting level). Go's encoder writes the members
  of an object in increasing key order, comparing keys byte by byte; on UTF-8
  text that is the order of code points, which `Less` below defines. String
  escaping and float rendering stay abstract (the `Scalars` parameter).
 */
module Encoding {
  import opened JsonValue

  /** How the encoder spells a string (quoted and escaped) and a number. */
  datatype Scalars = Scalars(quote: string -> string, number: real -> string)

  /** Lexicographic order on strings, by code point. */
  predicate Less(a: string, b: string)
  {
    if |a| == 0 then |b| > 0
    else if |b| == 0 then false
    else if a[0] != b[0] then a[0] < b[0]
    else Less(a[1..], b[1..])
  }

  lemma {:induction false} LessIrreflexive(a: string)
    ensures !Less(a, a)
  {
    if |a| > 0 { LessIrreflexive(a[1..]); }
  }

  lemma {:induction false} LessTransitive(a: string, b: string, c: string)
    requires Less(a, b) && Less(b, c)
    ensures Less(a, c)
  {
    if |a| > 0 && |b| > 0 && |c| > 0 && a[0] == b[0] && b[0] == c[0] {
      LessTransitive(a[1..], b[1..], c[1..]);
    }
  }

  lemma {:induction false} LessTotal(a: string, b: string)
    requires a != b
    ensures Less(a, b) || Less(b, a)
  {
    if |a| > 0 && |b| > 0 && a[0] == b[0] {
      assert a == [a[0]] + a[1..] && b == [b[0]] + b[1..];
      LessTotal(a[1..], b[1..]);
    }
  }

  lemma {:induction false} LessAsymmetric(a: string, b: string)
    requires Less(a, b)
    ensures !Less(b, a)
  {
    if |a| > 0 && |b| > 0 && a[0] == b[0] {
      LessAsymmetric(a[1..], b[1..]);
    }
  }

  /** Keys listed in strictly increasing order. */
  predicate Sorted(keys: seq<string>)
  {
    forall i, j :: 0 <= i < j < |keys| ==> Less(keys[i], keys[j])
  }

  /** Every non-empty finite set of strings has a least element. */
  lemma {:induction false} LeastKeyExists(s: set<string>)
    requires s != {}
    ensures exists m :: m in s && forall k :: k in s && k != m ==> Less(m, k)
  {
    var x :| x in s;
    if s != {x} {
      var rest := s - {x};
      LeastKeyExists(rest);
      var m :| m in rest && forall k :: k in rest && k != m ==> Less(m, k);
      if Less(x, m) {
        forall k | k in s && k != x ensures Less(x, k) {
          if k != m { LessTransitive(x, m, k); }
        }
      } else {
        LessTotal(x, m);
        assert forall k :: k in s && k != m ==> Less(m, k);
      }
    }
  }

  /** The keys of an object in the order the encoder writes them. */
  function SortedKeys(s: set<string>): (r: seq<string>)
    ensures Sorted(r)
    ensures forall k :: k in r <==> k in s
    ensures |r| == |s|
    decreases |s|
  {
    if s == {} then []
    else
      LeastKeyExists(s);
      assert forall a, b :: Less(a, b) ==> !Less(b, a) by {
        forall a, b | Less(a, b) ensures !Less(b, a) { LessAsymmetric(a, b); }
      }
      var m :| m in s && forall k :: k in s && k != m ==> Less(m, k);
      var rest := SortedKeys(s - {m});
      assert |s - {m}| == |s| - 1;
      assert forall j :: 0 <= j < |rest| ==> Less(m, rest[j]) by {
        forall j | 0 <= j < |rest| ensures Less(m, rest[j]) { assert rest[j] in rest; }
      }
      [m] + rest
  }

  /** A listing and another with the same members are empty together. */
  lemma EmptyTogether(a: seq<string>, b: seq<string>)
    requires forall k :: k in a <==> k in b
    ensures a == [] <==> b == []
  {
    if a != [] { assert a[0] in b; }
    if b != [] { assert b[0] in a; }
  }

  /** In a strictly increasing listing the first key is below every other one. */
  lemma HeadIsLeast(a: seq<string>, k: string)
    requires Sorted(a) && k in a && k != a[0]
    ensures Less(a[0], k)
  {
  }

  /** Two strictly increasing listings of the same keys are the same listing. */
  lemma {:induction false} SortedUnique(a: seq<string>, b: seq<string>)
    requires Sorted(a) && Sorted(b)
    requires forall k :: k in a <==> k in b
    ensures a == b
  {
    EmptyTogether(a, b);
    if a != [] {
      assert a[0] in a && b[0] in b;
      assert a[0] == b[0] by {
        if a[0] != b[0] {
          HeadIsLeast(a, b[0]);
          HeadIsLeast(b, a[0]);
          LessAsymmetric(a[0], b[0]);
        }
      }
      assert a == [a[0]] + a[1..] && b == [b[0]] + b[1..];
      forall k ensures k in a[1..] <==> k in b[1..] {
        if k in a[1..] {
          var i :| 0 <= i < |a[1..]| && a[1..][i] == k;
          assert a[i + 1] == k && Less(a[0], k);
          LessIrreflexive(k);
          assert k in a;
          var j :| 0 <= j < |b| && b[j] == k;
          assert j > 0 && b[1..][j - 1] == k;
        }
        if k in b[1..] {
          var i :| 0 <= i < |b[1..]| && b[1..][i] == k;
          assert b[i + 1] == k && Less(b[0], k);
          LessIrreflexive(k);
          assert k in b;
          var j :| 0 <= j < |a| && a[j] == k;
          assert j > 0 && a[1..][j - 1] == k;
        }
      }
      SortedUnique(a[1..], b[1..]);
    }
  }

  /** parts[0] + sep + parts[1] + sep + ... */
  function Join(parts: seq<string>, sep: string): string
  {
    if |parts| == 0 then ""
    else if |parts| == 1 then parts[0]
    else parts[0] + sep + Join(parts[1..], sep)
  }

  /** The prefix of a line at nesting level `depth`: two spaces per level. */
  function Indent(depth: nat): (r: string)
    ensures |r| == 2 * depth
    ensures forall i :: 0 <= i < |r| ==> r[i] == ' '
  {
    if depth == 0 then "" else "  " + Indent(depth - 1)
  }

  /** json.Marshal. */
  function Compact(v: Json, sc: Scalars): string
    decreases v, 1
  {
    match v
    case Null => "null"
    case Bool(b) => if b then "true" else "false"
    case Num(n) => sc.number(n)
    case Str(s) => sc.quote(s)
    case Arr(items) =>
      "[" + Join(seq(|items|, i requires 0 <= i < |items| => Compact(items[i], sc)), ",") + "]"
    case Obj(m) => "{" + Join(CompactMembers(m, SortedKeys(m.Keys), sc), ",") + "}"
  }

  function CompactMembers(m: map<string, Json>, keys: seq<string>, sc: Scalars): seq<string>
    requires forall k :: k in keys ==> k in m
    decreases Obj(m), 0, |keys|
  {
    if keys == [] then []
    else [sc.quote(keys[0]) + ":" + Compact(m[keys[0]], sc)] + CompactMembers(m, keys[1..], sc)
  }

  /** json.MarshalIndent(v, "", "  ") for a value at nesting level `depth`. */
  function Pretty(v: Json, depth: nat, sc: Scalars): string
    decreases v, 1
  {
    match v
    case Null => "null"
    case Bool(b) => if b then "true" else "false"
    case Num(n) => sc.number(n)
    case Str(s) => sc.quote(s)
    case Arr(items) =>
      if items == [] then "[]"
      else
        var lines := seq(|items|, i requires 0 <= i < |items| => Indent(depth + 1) + Pretty(items[i], depth + 1, sc));
        "[\n" + Join(lines, ",\n") + "\n" + Indent(depth) + "]"
    case Obj(m) =>
      if m == map[] then "{}"
      else "{\n" + Join(PrettyMembers(m, SortedKeys(m.Keys), depth, sc), ",\n") + "\n" + Indent(depth) + "}"
  }

  function PrettyMembers(m: map<string, Json>, keys: seq<string>, depth: nat, sc: Scalars): seq<string>
    requires forall k :: k in keys ==> k in m
    decreases Obj(m), 0, |keys|
  {
    if keys == [] then []
    else [Indent(depth + 1) + sc.quote(keys[0]) + ": " + Pretty(m[keys[0]], depth + 1, sc)]
         + PrettyMembers(m, keys[1..], depth, sc)
  }

  /** The encoder library as the formatter sees it. It never fails, and it
      writes the members of every object in increasing key order: one per line
      at a two-space indent for the indented encoding, comma-separated for the
      compact one. */
  function ReferenceCodec(sc: Scalars, formatG10: real -> string): (c: Codec)
    ensures forall v :: c.marshal(v) == Ok(Compact(v, sc))
    ensures forall v :: c.marshalIndent(v) == Ok(Pretty(v, 0, sc))
    ensures c.formatG10 == formatG10
    ensures forall m: map<string, Json>, keys: seq<string> ::
              m != map[] && Sorted(keys) && (forall k :: k in keys <==> k in m) ==>
              c.marshalIndent(Obj(m)) == Ok("{\n" + Join(PrettyMembers(m, keys, 0, sc), ",\n") + "\n}")
    ensures forall m: map<string, Json>, keys: seq<string> ::
              Sorted(keys) && (forall k :: k in keys <==> k in m) ==>
              c.marshal(Obj(m)) == Ok("{" + Join(CompactMembers(m, keys, sc), ",") + "}")
  {
    assert forall m: map<string, Json>, keys: seq<string> ::
             m != map[] && Sorted(keys) && (forall k :: k in keys <==> k in m) ==>
             Pretty(Obj(m), 0, sc) == "{\n" + Join(PrettyMembers(m, keys, 0, sc), ",\n") + "\n}" by {
      forall m: map<string, Json>, keys: seq<string> |
        m != map[] && Sorted(keys) && (forall k :: k in keys <==> k in m)
        ensures Pretty(Obj(m), 0, sc) == "{\n" + Join(PrettyMembers(m, keys, 0, sc), ",\n") + "\n}"
      {
        PrettyObjectInKeyOrder(m, keys, 0, sc);
        assert Indent(0) == "";
      }
    }
    assert forall m: map<string, Json>, keys: seq<string> ::
             Sorted(keys) && (forall k :: k in keys <==> k in m) ==>
             Compact(Obj(m), sc) == "{" + Join(CompactMembers(m, keys, sc), ",") + "}" by {
      forall m: map<string, Json>, keys: seq<string> | Sorted(keys) && (forall k :: k in keys <==> k in m)
        ensures Compact(Obj(m), sc) == "{" + Join(CompactMembers(m, keys, sc), ",") + "}"
      {
        CompactObjectInKeyOrder(m, keys, sc);
      }
    }
    Codec(v => Ok(Compact(v, sc)), v => Ok(Pretty(v, 0, sc)), formatG10)
  }

  /** Whatever order the members were written in, the indented encoding of a
      non-empty object lists them one per line in increasing key order. */
  lemma PrettyObjectInKeyOrder(m: map<string, Json>, keys: seq<string>, depth: nat, sc: Scalars)
    requires m != map[]
    requires Sorted(keys)
    requires forall k :: k in keys <==> k in m
    ensures Pretty(Obj(m), depth, sc)
         == "{\n" + Join(PrettyMembers(m, keys, depth, sc), ",\n") + "\n" + Indent(depth) + "}"
  {
    SortedUnique(keys, SortedKeys(m.Keys));
  }

  /** The same for the compact encoding. */
  lemma CompactObjectInKeyOrder(m: map<string, Json>, keys: seq<string>, sc: Scalars)
    requires Sorted(keys)
    requires forall k :: k in keys <==> k in m
    ensures Compact(Obj(m), sc) == "{" + Join(CompactMembers(m, keys, sc), ",") + "}"
  {
    SortedUnique(keys, SortedKeys(m.Keys));
  }

  /** The member lines of the encoder's object test, in key order. */
  lemma TestObjectMembers(sc: Scalars)
    requires sc.quote("name") == "\"name\"" && sc.quote("age") == "\"age\""
    requires sc.quote("Alice") == "\"Alice\"" && sc.number(30.0) == "30"
    ensures PrettyMembers(map["name" := Str("Alice"), "age" := Num(30.0)], ["age", "name"], 0, sc)
         == ["  \"age\": 30", "  \"name\": \"Alice\""]
  {
    var m := map["name" := Str("Alice"), "age" := Num(30.0)];
    assert m["name"] == Str("Alice") && m["age"] == Num(30.0);
    assert Indent(1) == "  ";
    assert ["age", "name"][1..] == ["name"] && ["name"][1..] == [];
    var last := PrettyMembers(m, ["name"], 0, sc);
    assert last == [Indent(1) + sc.quote("name") + ": " + Pretty(m["name"], 1, sc)] + [];
    assert last[0] == "  \"name\": \"Alice\"";
    var both := PrettyMembers(m, ["age", "name"], 0, sc);
    assert both == [Indent(1) + sc.quote("age") + ": " + Pretty(m["age"], 1, sc)] + last;
    assert both[0] == "  \"age\": 30";
  }

  /** The encoder's object test: {"name": "Alice", "age": 30} comes out with
      "age" first and each member indented by two spaces. */
  lemma PrettyObjectTestCase(sc: Scalars, m: map<string, Json>)
    requires sc.quote("name") == "\"name\"" && sc.quote("age") == "\"age\""
    requires sc.quote("Alice") == "\"Alice\"" && sc.number(30.0) == "30"
    requires m == map["name" := Str("Alice"), "age" := Num(30.0)]
    ensures Pretty(Obj(m), 0, sc) == "{\n  \"age\": 30,\n  \"name\": \"Alice\"\n}"
  {
    var keys := ["age", "name"];
    var joined := Join(PrettyMembers(m, keys, 0, sc), ",\n");
    assert joined == "  \"age\": 30,\n  \"name\": \"Alice\"" by {
      TestObjectMembers(sc);
      assert Join(["  \"age\": 30", "  \"name\": \"Alice\""], ",\n") == "  \"age\": 30,\n  \"name\": \"Alice\"";
    }
    assert Pretty(Obj(m), 0, sc) == "{\n" + joined + "\n" + Indent(0) + "}" by {
      assert Less("age", "name");
      assert forall k :: k in keys <==> k in m;
      assert "age" in m;
      PrettyObjectInKeyOrder(m, keys, 0, sc);
    }
    assert Indent(0) == "";
    TestObjectText(joined, Pretty(Obj(m), 0, sc));
  }

  lemma TestObjectText(joined: string, text: string)
    requires joined == "  \"age\": 30,\n  \"name\": \"Alice\""
    requires text == "{\n" + joined + "\n" + "}"
    ensures text == "{\n  \"age\": 30,\n  \"name\": \"Alice\"\n}"
  {
  }
}

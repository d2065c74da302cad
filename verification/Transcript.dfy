/** Token totals of an agent transcript: the `aggregate` loop of
    tools/agent_token_split.py. Parsing a line is an arbitrary function to an
    optional value, so that everything below holds for every parser outcome. */
module Transcript {
  import opened Prelude
  import opened Text

  datatype Json =
    | Nothing                            // null
    | Bool(b: bool)
    | Number(n: int)
    | Real                               // a number with a fraction or an exponent
    | String(s: string)
    | List(items: seq<Json>)
    | Object(fields: map<string, Json>)

  // None: json.loads raised.
  type Parser = string -> Option<Json>

  const MAX_LINE_CHARS: int := 2 * 1024 * 1024

  // API usage key and the column it is summed into.
  datatype Column = InputTokens | OutputTokens | CacheReadTokens | CacheWriteTokens

  const USAGE_KEYS: seq<(string, Column)> := [
    ("input_tokens", InputTokens), ("output_tokens", OutputTokens),
    ("cache_read_input_tokens", CacheReadTokens), ("cache_creation_input_tokens", CacheWriteTokens)]

  const COLUMNS: set<Column> := {InputTokens, OutputTokens, CacheReadTokens, CacheWriteTokens}

  datatype Summary = Summary(totals: map<Column, int>, model: Option<string>)

  // dict.get
  function Field(fields: map<string, Json>, key: string): Json {
    if key in fields then fields[key] else Nothing
  }

  // A real integer, and a bool is not one.
  function AsInt(value: Json): int {
    match value case Number(n) => n case _ => 0
  }

  method Aggregate(lines: seq<string>, parse: Parser) returns (result: Summary)
    ensures result.totals.Keys == COLUMNS
    ensures forall c | c in COLUMNS :: result.totals[c] == Total(lines, parse, c)
    ensures result.model == LastModel(lines, parse)
  {
    NoLines(parse);
    hide *;
    var totals := map c | c in COLUMNS :: 0;
    var model: Option<string> := None;
    for i := 0 to |lines|
      invariant totals.Keys == COLUMNS
      invariant forall c | c in COLUMNS :: totals[c] == Total(lines[..i], parse, c)
      invariant model == LastModel(lines[..i], parse)
    {
      var raw := lines[i];
      assert lines[..i + 1] == lines[..i] + [raw];
      OneMore(lines[..i], raw, parse);
      MessageReads(raw, parse);
      var m := AcceptedMessage(raw, parse);
      if m.None? { continue; }
      var seen := Field(m.value, "model");
      if seen.String? && seen.s != "" { model := Some(seen.s); }
      var usage := Field(m.value, "usage");
      if !usage.Object? { continue; }
      totals := AddUsage(totals, usage.fields);
    }
    assert lines[..|lines|] == lines;
    result := Summary(totals, model);
  }

  // The guards of the loop, up to the message object.
  method AcceptedMessage(raw: string, parse: Parser) returns (m: Option<map<string, Json>>)
    ensures m == Message(raw, parse)
  {
    hide Strip, Field;
    if |raw| > MAX_LINE_CHARS { return None; }
    var line := Strip(raw);
    if line == "" { return None; }
    var obj := parse(line);
    if obj.None? || !obj.value.Object? { return None; }
    var message := Field(obj.value.fields, "message");
    if !message.Object? { return None; }
    return Some(message.fields);
  }

  // Adds one usage mapping to the totals, key by key.
  method AddUsage(totals: map<Column, int>, usage: map<string, Json>) returns (r: map<Column, int>)
    requires totals.Keys == COLUMNS
    ensures r.Keys == totals.Keys
    ensures forall c | c in COLUMNS :: r[c] == totals[c] + AsInt(Field(usage, KeyOf(c)))
  {
    r := totals;
    for k := 0 to |USAGE_KEYS|
      invariant r.Keys == totals.Keys
      invariant forall c | c in COLUMNS ::
                  r[c] == totals[c] + if Index(c) < k then AsInt(Field(usage, KeyOf(c))) else 0
    {
      var (key, column) := USAGE_KEYS[k];
      assert Index(column) == k && KeyOf(column) == key;
      assert forall c: Column :: Index(c) == k ==> c == column;
      r := r[column := r[column] + AsInt(Field(usage, key))];
    }
  }

  function Index(c: Column): nat {
    match c case InputTokens => 0 case OutputTokens => 1 case CacheReadTokens => 2 case CacheWriteTokens => 3
  }

  function KeyOf(c: Column): string {
    match c
    case InputTokens => "input_tokens"
    case OutputTokens => "output_tokens"
    case CacheReadTokens => "cache_read_input_tokens"
    case CacheWriteTokens => "cache_creation_input_tokens"
  }

  // ----- the specification: line by line

  // The message object of an accepted line.
  function Message(raw: string, parse: Parser): Option<map<string, Json>> {
    if |raw| > MAX_LINE_CHARS || Strip(raw) == "" then None
    else
      match parse(Strip(raw))
      case Some(Object(fields)) =>
        (match Field(fields, "message") case Object(m) => Some(m) case _ => None)
      case _ => None
  }

  function Usage(raw: string, parse: Parser): Option<map<string, Json>> {
    match Message(raw, parse)
    case Some(m) => (match Field(m, "usage") case Object(u) => Some(u) case _ => None)
    case None => None
  }

  function Tokens(raw: string, parse: Parser, c: Column): int {
    match Usage(raw, parse) case Some(u) => AsInt(Field(u, KeyOf(c))) case None => 0
  }

  function Model(raw: string, parse: Parser): Option<string> {
    match Message(raw, parse)
    case Some(m) => (match Field(m, "model") case String(s) => if s == "" then None else Some(s) case _ => None)
    case None => None
  }

  function Total(lines: seq<string>, parse: Parser, c: Column): int {
    if lines == [] then 0 else Tokens(lines[0], parse, c) + Total(lines[1..], parse, c)
  }

  function LastModel(lines: seq<string>, parse: Parser): Option<string> {
    if lines == [] then None else Overlay(LastModel(lines[1..], parse), Model(lines[0], parse))
  }

  lemma MessageReads(raw: string, parse: Parser)
    ensures Message(raw, parse) == None ==>
              Model(raw, parse) == None && forall c :: Tokens(raw, parse, c) == 0
    ensures Message(raw, parse).Some? ==>
              var m := Message(raw, parse).value;
              && Model(raw, parse) == (var s := Field(m, "model");
                                       if s.String? && s.s != "" then Some(s.s) else None)
              && forall c :: Tokens(raw, parse, c) ==
                               var u := Field(m, "usage");
                               if u.Object? then AsInt(Field(u.fields, KeyOf(c))) else 0
  {
    hide Message, AsInt, KeyOf, Field;
  }

  // ----- what the totals keep

  lemma NoLines(parse: Parser)
    ensures forall c :: Total([], parse, c) == 0
    ensures LastModel([], parse) == None
  {
  }

  lemma OneMore(lines: seq<string>, raw: string, parse: Parser)
    ensures forall c: Column :: Total(lines + [raw], parse, c) == Total(lines, parse, c) + Tokens(raw, parse, c)
    ensures LastModel(lines + [raw], parse) ==
            if Model(raw, parse).Some? then Model(raw, parse) else LastModel(lines, parse)
  {
    hide Tokens, Model;
    Split(lines, [raw], parse);
    var one := [raw];
    assert one[1..] == [] && one[0] == raw;
    forall c: Column ensures Total(one, parse, c) == Tokens(raw, parse, c) {
      assert Total(one, parse, c) == Tokens(one[0], parse, c) + Total(one[1..], parse, c);
    }
    assert LastModel(one, parse) == Overlay(LastModel(one[1..], parse), Model(one[0], parse));
  }

  /** Cut a transcript anywhere: the totals add, and the right part's model wins. */
  lemma {:induction false} Split(a: seq<string>, b: seq<string>, parse: Parser)
    ensures forall c: Column :: Total(a + b, parse, c) == Total(a, parse, c) + Total(b, parse, c)
    ensures LastModel(a + b, parse) == Overlay(LastModel(b, parse), LastModel(a, parse))
  {
    hide Tokens, Model;
    if a == [] {
      assert a + b == b;
    } else {
      assert (a + b)[1..] == a[1..] + b;
      Split(a[1..], b, parse);
    }
  }

  /** The order of the lines does not matter to the totals. */
  lemma {:induction false} Permuted(a: seq<string>, b: seq<string>, parse: Parser)
    requires multiset(a) == multiset(b)
    ensures forall c: Column :: Total(a, parse, c) == Total(b, parse, c)
  {
    hide Tokens, Model;
    if a == [] {
      assert |multiset(b)| == 0;
    } else {
      assert a[0] in multiset(b);
      var i :| 0 <= i < |b| && b[i] == a[0];
      var l, r := b[..i], b[i + 1..];
      assert b == l + ([a[0]] + r);
      CutOne(a, b, i);
      Permuted(a[1..], l + r, parse);
      Split(l, r, parse);
      Split(l, [a[0]] + r, parse);
      assert ([a[0]] + r)[1..] == r;
    }
  }

  lemma CutOne(a: seq<string>, b: seq<string>, i: nat)
    requires multiset(a) == multiset(b) && a != [] && i < |b| && b[i] == a[0]
    ensures multiset(a[1..]) == multiset(b[..i] + b[i + 1..])
  {
    assert a == [a[0]] + a[1..];
    assert b == b[..i] + [b[i]] + b[i + 1..];
    assert multiset(a[1..]) == multiset(a) - multiset{a[0]};
    assert multiset(b[..i] + b[i + 1..]) == multiset(b) - multiset{b[i]};
  }

  /** The model is the one of the last line that names any, with or without usage. */
  lemma {:induction false} ModelIff(lines: seq<string>, parse: Parser, m: Option<string>)
    ensures LastModel(lines, parse) == m <==>
            if m.None? then forall i | 0 <= i < |lines| :: Model(lines[i], parse) == None
            else exists i :: 0 <= i < |lines| && Model(lines[i], parse) == m &&
                   forall j | i < j < |lines| :: Model(lines[j], parse) == None
  {
    hide Model;
    if lines != [] {
      var n := |lines| - 1;
      assert lines == lines[..n] + [lines[n]];
      OneMore(lines[..n], lines[n], parse);
      ModelIff(lines[..n], parse, m);
      if Model(lines[n], parse) == None && m.Some? && LastModel(lines, parse) == m {
        var i :| 0 <= i < n && Model(lines[..n][i], parse) == m &&
              forall j | i < j < n :: Model(lines[..n][j], parse) == None;
        assert Model(lines[i], parse) == m;
        assert forall j | i < j < n :: lines[j] == lines[..n][j];
      }
      if Model(lines[n], parse) == None && m.Some? && LastModel(lines, parse) != m {
        forall i | 0 <= i < n && Model(lines[i], parse) == m
          ensures exists j :: i < j < n && Model(lines[j], parse) != None
        {
          assert Model(lines[..n][i], parse) == m;
          var j :| i < j < n && Model(lines[..n][j], parse) != None;
          assert Model(lines[j], parse) != None;
        }
      }
      if Model(lines[n], parse) == None && m.None? {
        assert forall j | 0 <= j < n :: lines[j] == lines[..n][j];
      }
    }
  }

  // A usage entry counts if it is an integer under that key.
  function Entry(usage: map<string, Json>, key: string): int {
    if key in usage && usage[key].Number? then usage[key].n else 0
  }

  /** A line of at most 2 MiB that parses to an object with a message object counts: its
      usage object by the four keys of the API, its model if it is a non-empty string. */
  lemma LineCounts(raw: string, parse: Parser, line: map<string, Json>, message: map<string, Json>)
    requires |raw| <= 2097152 && Strip(raw) != "" && parse(Strip(raw)) == Some(Object(line))
    requires "message" in line && line["message"] == Object(message)
    ensures "usage" in message && message["usage"].Object? ==>
              var usage := message["usage"].fields;
              && Tokens(raw, parse, InputTokens) == Entry(usage, "input_tokens")
              && Tokens(raw, parse, OutputTokens) == Entry(usage, "output_tokens")
              && Tokens(raw, parse, CacheReadTokens) == Entry(usage, "cache_read_input_tokens")
              && Tokens(raw, parse, CacheWriteTokens) == Entry(usage, "cache_creation_input_tokens")
    ensures "usage" !in message || !message["usage"].Object? ==> forall c :: Tokens(raw, parse, c) == 0
    ensures Model(raw, parse) ==
            if "model" in message && message["model"].String? && message["model"].s != ""
            then Some(message["model"].s) else None
  {
    hide Strip;
    MessageReads(raw, parse);
  }

  /** Every other line counts for nothing: longer, blank, unparseable, no object, or
      without a message object. */
  lemma OtherLines(raw: string, parse: Parser)
    ensures || |raw| > 2097152 || Strip(raw) == "" || parse(Strip(raw)) == None || !parse(Strip(raw)).value.Object?
            || "message" !in parse(Strip(raw)).value.fields
            || !parse(Strip(raw)).value.fields["message"].Object? ==>
              Model(raw, parse) == None && forall c :: Tokens(raw, parse, c) == 0
  {
    hide Strip;
    MessageReads(raw, parse);
  }

  /** A line that is not accepted might as well not be there. */
  lemma SkippedLine(a: seq<string>, raw: string, b: seq<string>, parse: Parser)
    requires Message(raw, parse) == None
    ensures forall c: Column :: Total(a + [raw] + b, parse, c) == Total(a + b, parse, c)
    ensures LastModel(a + [raw] + b, parse) == LastModel(a + b, parse)
  {
    OneMore(a, raw, parse);
    Split(a + [raw], b, parse);
    Split(a, b, parse);
  }
}

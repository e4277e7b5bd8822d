/** The generator's files: printing a version entry, reading it back, and when a file may be written. */
module Versions {
  import opened Text
  import opened Scan
  import opened Words
  import opened Literals
  import opened Wrappers

  // ----- `json.dumps(text, ensure_ascii=True)`

  // The characters written as they are.
  predicate IsPlain(c: char) {
    ' ' <= c <= '~' && c != '"' && c != '\\'
  }

  function HexDigit(n: nat): char
    requires n < 16
  {
    if n < 10 then ('0' as int + n) as char else ('a' as int + n - 10) as char
  }

  function Hex4(n: nat): string
    requires n < 0x10000
  {
    [HexDigit(n / 4096), HexDigit(n / 256 % 16), HexDigit(n / 16 % 16), HexDigit(n % 16)]
  }

  // A character beyond the first plane is written as two surrogates.
  function DumpedChar(c: char): string {
    if IsPlain(c) then [c]
    else if c == '"' then "\\\""
    else if c == '\\' then "\\\\"
    else if c == '\n' then "\\n"
    else if c == '\r' then "\\r"
    else if c == '\t' then "\\t"
    else if c == '\U{08}' then "\\b"
    else if c == '\U{0C}' then "\\f"
    else
      var n := c as int;
      if n < 0x10000 then "\\u" + Hex4(n)
      else "\\u" + Hex4(0xD800 + (n - 0x10000) / 0x400 % 0x400) + "\\u" + Hex4(0xDC00 + (n - 0x10000) % 0x400)
  }

  function DumpedChars(text: string): string {
    if text == "" then "" else DumpedChar(text[0]) + DumpedChars(text[1..])
  }

  function Dumped(text: string): string {
    "\"" + DumpedChars(text) + "\""
  }

  predicate AllPlain(text: string) {
    forall i :: 0 <= i < |text| ==> IsPlain(text[i])
  }

  // ----- the file

  datatype Entry = Entry(
    name: string, type_: string, chOverride: Option<string>, attribute: seq<string>, useCase: Option<string>,
    expr: string, comment: Option<string>, codec: Option<string>)

  datatype Prose = Prose(providerName: string, describe: string, recordPath: string)
  datatype Schema = Schema(store: string, columns: seq<Entry>)

  function OptionLine(key: string, value: Option<string>): seq<string> {
    match value
    case None => []
    case Some(text) => [key + text]
  }

  function DumpedOption(value: Option<string>): Option<string> {
    match value
    case None => None
    case Some(text) => Some(Dumped(text))
  }

  // `", ".join(names)`
  function Listed(names: seq<string>): string {
    if names == [] then "" else if |names| == 1 then names[0] else names[0] + ", " + Listed(names[1..])
  }

  function EntryLines(e: Entry): seq<string> {
    ["      - name: " + e.name, "        type: " + e.type_]
    + OptionLine("        ch_override: ", DumpedOption(e.chOverride))
    + (if e.attribute == [] then [] else ["        attribute: [" + Listed(e.attribute) + "]"])
    + OptionLine("        use_case: ", e.useCase)
    + ["        expr: " + Dumped(e.expr)]
    + OptionLine("        comment: ", DumpedOption(e.comment))
    + OptionLine("        codec: ", DumpedOption(e.codec))
    + ["        _field_type: base"]
  }

  function ColumnLines(columns: seq<Entry>, first: bool): seq<string>
    decreases |columns|
  {
    if columns == [] then []
    else (if first then [] else [""]) + EntryLines(columns[0]) + ColumnLines(columns[1..], false)
  }

  function Where(recordPath: string): string {
    if recordPath != "" then "under `" + recordPath + "`" else "at the top level of the payload"
  }

  // The long fixed lines of the header, joined from parts short enough to be looked through one character at
  // a time.
  function UnionLine(): string {
    "# Columns are the union of keys" + (" across the rows of a live" + " export, typed from")
  }

  function SourceLine(): string {
    "# expression reads from. Generated" + (" by scripts/generate_meta" + "_schemas.py: a")
  }

  function ChangeLine(): string {
    "# changed export becomes a new" + (" version entry, never an edit" + " of a published one.")
  }

  function HeadLines(s: Schema, p: Prose, version: string): seq<string> {
    [ "# Meta schema: " + p.providerName + " " + s.store,
      "#",
      "# " + p.describe,
      "#",
      UnionLine(),
      "# the values observed; the record sits " + Where(p.recordPath) + ", which is where every",
      SourceLine(),
      ChangeLine(),
      "",
      "current: " + Dumped(version),
      "resource_type: core",
      "",
      "versions:" ]
  }

  function VersionText(version: string): string { "  " + Dumped(version) + ":" }

  function DateText(date: string): string { "    date: " + Dumped(date) }

  function FootLines(s: Schema, p: Prose): seq<string> {
    [ "    type: model",
      "    summary: " + Dumped("Initial " + p.providerName + " " + s.store + " schema, from a live export"),
      "    columns:" ]
    + ColumnLines(s.columns, true)
  }

  function Lines(s: Schema, p: Prose, version: string, date: string): seq<string> {
    HeadLines(s, p, version) + ([VersionText(version), DateText(date)] + FootLines(s, p))
  }

  function Render(s: Schema, p: Prose, version: string, date: string): string {
    JoinLines(Lines(s, p, version, date)) + "\n"
  }

  // ----- reading versions back

  // `^  "(?P<version>[^"]+)":\s*$` and `^    date:\s*"(?P<date>[^"]+)"\s*$`, line by line
  datatype Pattern = VersionLine | DateLine

  function QuoteFreeLen(t: string): (n: nat)
    ensures n <= |t| && (forall i :: 0 <= i < n ==> t[i] != '"') && (n < |t| ==> t[n] == '"')
  {
    if t == "" || t[0] == '"' then 0 else 1 + QuoteFreeLen(t[1..])
  }

  // The last line end among the first `w` characters.
  function LastBreak(t: string, w: nat): (n: Option<nat>)
    requires w <= |t|
    ensures n.Some? ==> n.value <= |t|
  {
    if w == 0 then None else if t[w - 1] == '\n' then Some(w - 1) else LastBreak(t, w - 1)
  }

  // `\s*$`: as much whitespace as leads to a line end.
  function TailLen(t: string): (n: Option<nat>)
    ensures n.Some? ==> n.value <= |t|
  {
    var w := SpaceLen(t);
    if w == |t| then Some(w) else LastBreak(t, w)
  }

  datatype Found = NotFound | Found(text: string, len: nat)

  // `"([^"]+)"` and then `close`, to the end of a line.
  function QuotedTo(t: string, close: string): (f: Found)
    ensures f.Found? ==> 0 < f.len <= |t|
  {
    if t == "" || t[0] != '"' then NotFound
    else
      var n := QuoteFreeLen(t[1..]);
      var r := t[1 + n..];
      if n == 0 || r == "" || !(close <= r[1..]) then NotFound
      else match TailLen(r[1 + |close|..])
        case None => NotFound
        case Some(k) => Found(t[1..1 + n], 2 + n + |close| + k)
  }

  function Prefix(p: Pattern): string {
    match p case VersionLine => "  " case DateLine => "    date:"
  }

  function FoundAt(p: Pattern, t: string): (f: Found)
    ensures f.Found? ==> 0 < f.len <= |t|
  {
    var k := |Prefix(p)|;
    if !(Prefix(p) <= t) then NotFound
    else match p
      case VersionLine =>
        var f := QuotedTo(t[k..], ":");
        (match f case NotFound => NotFound case Found(text, len) => Found(text, k + len))
      case DateLine =>
        var s := SpaceLen(t[k..]);
        var f := QuotedTo(t[k + s..], "");
        (match f case NotFound => NotFound case Found(text, len) => Found(text, k + s + len))
  }

  // `finditer`: every match, left to right.
  function FindAll(p: Pattern, t: string, atStart: bool): seq<string>
    decreases |t|
  {
    if t == "" then []
    else
      var f := if atStart then FoundAt(p, t) else NotFound;
      match f
      case NotFound => FindAll(p, t[1..], t[0] == '\n')
      case Found(text, len) => [text] + FindAll(p, t[len..], t[len - 1] == '\n')
  }

  // Each version with the date at its place; a later entry of the same version replaces an earlier one.
  function Paired(versions: seq<string>, dates: seq<string>): map<string, Option<string>> {
    if versions == [] then map[]
    else
      var k := |versions| - 1;
      Paired(versions[..k], dates)[versions[k] := if k < |dates| then Some(dates[k]) else None]
  }

  // `read_text`: a carriage return, with or without its newline, is read as a newline.
  function ReadText(file: string): string
    decreases |file|
  {
    if file == "" then ""
    else if file[0] == '\r' then "\n" + ReadText(file[if |file| > 1 && file[1] == '\n' then 2 else 1..])
    else [file[0]] + ReadText(file[1..])
  }

  function Held(file: string): map<string, Option<string>> {
    Paired(FindAll(VersionLine, ReadText(file), true), FindAll(DateLine, ReadText(file), true))
  }

  method ExistingVersions(file: Option<string>) returns (found: map<string, Option<string>>)
    ensures found == if file.None? then map[] else Held(file.value)
  {
    hide FindAll, ReadText;
    if file.None? {
      return map[];
    }
    var text := ReadText(file.value);
    var versions := FindAll(VersionLine, text, true);
    var dates := FindAll(DateLine, text, true);
    found := map[];
    for index := 0 to |versions|
      invariant found == Paired(versions[..index], dates)
    {
      assert versions[..index + 1][..index] == versions[..index];
      found := found[versions[index] := if index < |dates| then Some(dates[index]) else None];
    }
    assert versions[..|versions|] == versions;
  }

  // ----- carriage returns

  // No line ends inside it.
  predicate Unbroken(t: string) {
    '\n' !in t && '\r' !in t
  }

  lemma {:induction false} ReadTextHasNone(file: string)
    ensures '\r' !in ReadText(file)
    decreases |file|
  {
    if file != "" {
      ReadTextHasNone(file[if file[0] == '\r' && |file| > 1 && file[1] == '\n' then 2 else 1..]);
    }
  }

  // A file is read as it was written exactly when it holds no carriage return.
  lemma {:induction false} ReadAsWritten(file: string)
    ensures ReadText(file) == file <==> '\r' !in file
  {
    ReadTextHasNone(file);
    if '\r' !in file && file != "" {
      assert '\r' !in file[1..];
      ReadAsWritten(file[1..]);
      assert file == [file[0]] + file[1..];
    }
  }

  // ----- lines that are not entries

  function Unlines(lines: seq<string>): string {
    if lines == [] then "" else lines[0] + "\n" + Unlines(lines[1..])
  }

  lemma {:induction false} JoinedIsUnlines(lines: seq<string>)
    requires lines != []
    ensures JoinLines(lines) + "\n" == Unlines(lines)
  {
    if |lines| == 1 {
      assert Unlines(lines[1..]) == "";
      assert lines[0] + "\n" + "" == lines[0] + "\n";
    } else {
      JoinedIsUnlines(lines[1..]);
      assert lines[0] + "\n" + JoinLines(lines[1..]) + "\n" == lines[0] + "\n" + (JoinLines(lines[1..]) + "\n");
    }
  }

  lemma {:induction false} UnlinesConcat(a: seq<string>, b: seq<string>)
    ensures Unlines(a + b) == Unlines(a) + Unlines(b)
  {
    if a == [] {
      assert a + b == b;
    } else {
      assert (a + b)[1..] == a[1..] + b;
      UnlinesConcat(a[1..], b);
      assert a[0] + "\n" + (Unlines(a[1..]) + Unlines(b)) == a[0] + "\n" + Unlines(a[1..]) + Unlines(b);
    }
  }

  // What a line of the file must begin with to be read as an entry.
  function Opening(p: Pattern): string {
    match p case VersionLine => "  \"" case DateLine => "    date:"
  }

  predicate Dull(p: Pattern, line: string) {
    '\n' !in line && !(Opening(p) <= line)
  }

  lemma {:induction false} MidLine(p: Pattern, line: string, rest: string)
    requires '\n' !in line
    ensures FindAll(p, line + "\n" + rest, false) == FindAll(p, rest, true)
  {
    var t := line + "\n" + rest;
    if line == "" {
      assert t[0] == '\n' && t[1..] == rest;
    } else {
      assert t[0] == line[0] && t[1..] == line[1..] + "\n" + rest;
      MidLine(p, line[1..], rest);
    }
  }

  lemma OpeningNeeded(p: Pattern, t: string)
    requires FoundAt(p, t).Found?
    ensures Opening(p) <= t
  {
    if p == VersionLine {
      assert t[2..][0] == t[2] == '"';
      assert t[..3] == t[..2] + [t[2]];
    }
  }

  lemma DullLine(p: Pattern, line: string, rest: string)
    requires Dull(p, line)
    ensures FindAll(p, line + "\n" + rest, true) == FindAll(p, rest, true)
  {
    var t := line + "\n" + rest;
    assert !(Opening(p) <= t) by {
      assert line + "\n" + rest == line + ("\n" + rest);
      if |Opening(p)| > |line| {
        assert t[|line|] == '\n';
        NoBreakInOpening(p);
        Differs(Opening(p), t, |line|);
      } else {
        assert t[..|Opening(p)|] == line[..|Opening(p)|];
      }
    }
    if FoundAt(p, t).Found? {
      OpeningNeeded(p, t);
    }
    hide FoundAt;
    if line == "" {
      assert t[0] == '\n' && t[1..] == rest;
    } else {
      assert t[0] == line[0] && t[1..] == line[1..] + "\n" + rest;
      MidLine(p, line[1..], rest);
    }
  }

  lemma NoBreakInOpening(p: Pattern)
    ensures '\n' !in Opening(p)
  {
  }

  // ----- the entry's own lines

  lemma {:induction false} QuoteFreeIs(a: string, x: string)
    requires '"' !in a && x != "" && x[0] == '"'
    ensures QuoteFreeLen(a + x) == |a|
  {
    if a == "" {
      assert a + x == x;
    } else {
      assert (a + x)[0] == a[0] && (a + x)[1..] == a[1..] + x;
      QuoteFreeIs(a[1..], x);
    }
  }

  lemma {:induction false} QuoteFreeLocal(a: string, x: string)
    requires '"' in a
    ensures QuoteFreeLen(a + x) == QuoteFreeLen(a) < |a|
  {
    assert (a + x)[0] == a[0] && (a + x)[1..] == a[1..] + x;
    if a[0] != '"' {
      QuoteFreeLocal(a[1..], x);
    }
  }

  // The tail of an entry's line: nothing, and then the next line's indent.
  lemma LineEnds(rest: string, s: nat)
    requires |rest| > s + 1 && rest[0] == '\n' && (forall i :: 1 <= i <= s ==> rest[i] == ' ') && !IsSpace(rest[s + 1])
    ensures TailLen(rest) == Some(0)
  {
    SpaceLenIs(rest, s + 1);
    LastBreakIs(rest, s + 1);
  }

  lemma {:induction false} LastBreakIs(t: string, w: nat)
    requires 0 < w <= |t| && t[0] == '\n' && forall i :: 1 <= i < w ==> t[i] != '\n'
    ensures LastBreak(t, w) == Some(0)
  {
    if w > 1 {
      LastBreakIs(t, w - 1);
    }
  }

  lemma {:induction false} NoBreakBefore(t: string, w: nat)
    requires w <= |t| && forall i :: 0 <= i < w ==> t[i] != '\n'
    ensures LastBreak(t, w) == None
  {
    if w > 0 {
      NoBreakBefore(t, w - 1);
    }
  }

  lemma TailNone(a: string, x: string)
    requires '\n' !in a && x != "" && !IsSpace(x[0])
    ensures TailLen(a + x) == None
  {
    var t := a + x;
    assert t[|a|] == x[0];
    SpaceLenLocal(t, "", |a|);
    assert t + "" == t;
    var w := SpaceLen(t);
    assert forall i :: 0 <= i < w ==> t[i] == a[i];
    NoBreakBefore(t, w);
  }

  // ----- dumped texts

  lemma HexIsPlain(n: nat)
    requires n < 16
    ensures IsPlain(HexDigit(n))
  {
  }

  lemma Hex4IsPlain(n: nat)
    requires n < 0x10000
    ensures AllPlain(Hex4(n)) && |Hex4(n)| == 4
  {
    HexIsPlain(n / 4096);
    HexIsPlain(n / 256 % 16);
    HexIsPlain(n / 16 % 16);
    HexIsPlain(n % 16);
  }

  // Every character of a dumped text is printable, and only a quote is written with one.
  predicate IsDumpedChar(c: char) {
    ' ' <= c <= '~'
  }

  lemma CharIsDumped(c: char)
    ensures var d := DumpedChar(c);
            |d| >= 1 && (forall x <- d :: IsDumpedChar(x)) && ('"' in d <==> c == '"') && (|d| == 1 <==> IsPlain(c))
              && (IsPlain(c) ==> d == [c])
  {
    var n := c as int;
    if n < 0x10000 {
      Hex4IsPlain(n);
      PlainIsDumped(Hex4(n));
    } else {
      Hex4IsPlain(0xD800 + (n - 0x10000) / 0x400 % 0x400);
      Hex4IsPlain(0xDC00 + (n - 0x10000) % 0x400);
      PlainIsDumped(Hex4(0xD800 + (n - 0x10000) / 0x400 % 0x400));
      PlainIsDumped(Hex4(0xDC00 + (n - 0x10000) % 0x400));
    }
    hide Hex4;
  }

  lemma PlainIsDumped(t: string)
    requires AllPlain(t)
    ensures (forall x <- t :: IsDumpedChar(x)) && '"' !in t
  {
  }

  lemma {:induction false} CharsAreDumped(text: string)
    ensures var d := DumpedChars(text);
            |d| >= |text| && (forall x <- d :: IsDumpedChar(x)) && ('"' in d <==> '"' in text)
              && (|d| == |text| <==> AllPlain(text))
            && (AllPlain(text) ==> d == text)
  {
    hide DumpedChar, IsPlain, IsDumpedChar;
    if text != "" {
      var c, rest := text[0], text[1..];
      CharIsDumped(c);
      CharsAreDumped(rest);
      assert text == [c] + rest;
      assert AllPlain(text) <==> IsPlain(c) && AllPlain(rest) by {
        assert forall i :: 0 <= i < |rest| ==> rest[i] == text[i + 1];
        assert forall i :: 1 <= i < |text| ==> text[i] == rest[i - 1];
      }
    }
  }

  // ----- the entry's own lines

  // A quoted text is read back when it is neither empty nor holds a quote.
  predicate Readable(text: string) {
    text != "" && '"' !in text
  }

  lemma QuotedReads(text: string, close: string, rest: string)
    requires Readable(text) && TailLen("\n" + rest) == Some(0)
    ensures QuotedTo("\"" + (DumpedChars(text) + ("\"" + (close + ("\n" + rest)))), close)
         == Found(DumpedChars(text), 2 + |DumpedChars(text)| + |close|)
  {
    CharsAreDumped(text);
    hide TailLen, DumpedChars;
    var d, n := DumpedChars(text), |DumpedChars(text)|;
    var r := "\"" + (close + ("\n" + rest));
    var t := "\"" + (d + r);
    QuoteFreeIs(d, r);
    assert t[1..] == d + r && t[1..1 + n] == d;
    assert t[1 + n..] == r && r[1..] == close + ("\n" + rest);
    assert r[1 + |close|..] == "\n" + rest;
  }

  lemma QuotedEmpty(q: string, close: string)
    requires q != "" && q[0] == '"'
    ensures QuotedTo("\"" + ("" + q), close) == NotFound
  {
    assert "" + q == q && ("\"" + q)[1..] == q && QuoteFreeLen(q) == 0;
  }

  // A quote inside the text is not followed by the end of a line.
  lemma QuotedBroken(d: string, q: string, close: string)
    requires '"' in d && '\n' !in d && q != "" && q[0] == '"' && (close == "" || close == ":")
    ensures QuotedTo("\"" + (d + q), close) == NotFound
  {
    QuoteFreeLocal(d, q);
    var n, t := QuoteFreeLen(d), "\"" + (d + q);
    var v := d[n + 1..];
    assert t[1..] == d + q;
    assert t[1 + n..][1..] == v + q;
    assert !IsSpace(q[0]);
    hide TailLen, QuoteFreeLen, IsSpace;
    if close <= v + q {
      BreaksAfter(v, q, close);
      assert t[1 + n..][1 + |close|..] == (v + q)[|close|..];
    }
  }

  lemma BreaksAfter(v: string, q: string, close: string)
    requires '\n' !in v && q != "" && q[0] == '"' && (close == "" || close == ":") && close <= v + q
    ensures TailLen((v + q)[|close|..]) == None
  {
    assert close == ":" ==> v != "" by {
      assert v == "" ==> (v + q)[0] == '"';
    }
    var k := |close|;
    assert (v + q)[k..] == v[k..] + q;
    assert forall x <- v[k..] :: x in v;
    TailNone(v[k..], q);
  }

  lemma QuotedFails(text: string, close: string, rest: string)
    requires !Readable(text) && (close == "" || close == ":")
    ensures QuotedTo("\"" + (DumpedChars(text) + ("\"" + (close + ("\n" + rest)))), close) == NotFound
  {
    DumpedHasNoBreak(text);
    CharsAreDumped(text);
    var q := "\"" + (close + ("\n" + rest));
    assert q[0] == '"';
    hide QuotedTo, DumpedChar, IsDumpedChar;
    if text == "" {
      QuotedEmpty(q, close);
    } else {
      QuotedBroken(DumpedChars(text), q, close);
    }
  }

  // What a line of the file is read as.
  function ReadAs(text: string): seq<string> {
    if Readable(text) then [DumpedChars(text)] else []
  }

  lemma MatchedLine(p: Pattern, line: string, text: string, rest: string)
    requires line != "" && Unbroken(line)
    requires FoundAt(p, line + "\n" + rest) == if Readable(text) then Found(DumpedChars(text), |line|) else NotFound
    ensures FindAll(p, line + "\n" + rest, true) == ReadAs(text) + FindAll(p, rest, true)
  {
    hide FoundAt, DumpedChars, Readable;
    var t := line + "\n" + rest;
    if Readable(text) {
      assert t[|line|..] == "\n" + rest && t[|line| - 1] == line[|line| - 1] != '\n';
      assert ("\n" + rest)[0] == '\n' && ("\n" + rest)[1..] == rest;
    } else {
      assert t[0] == line[0] && t[1..] == line[1..] + "\n" + rest;
      MidLine(p, line[1..], rest);
      assert [] + FindAll(p, rest, true) == FindAll(p, rest, true);
    }
  }

  lemma DumpedHasNoBreak(text: string)
    ensures '\n' !in DumpedChars(text) && Unbroken(Dumped(text))
  {
    CharsAreDumped(text);
    assert forall x <- DumpedChars(text) :: x != '\n' && x != '\r';
    hide DumpedChars;
  }

  ghost predicate Indented(rest: string) {
    |rest| > 4 && rest[..4] == "    " && !IsSpace(rest[4])
  }

  lemma IndentEnds(rest: string)
    requires Indented(rest)
    ensures TailLen("\n" + rest) == Some(0)
  {
    var t := "\n" + rest;
    assert rest[0] == rest[..4][0] && rest[1] == rest[..4][1] && rest[2] == rest[..4][2] && rest[3] == rest[..4][3];
    assert t[1] == rest[0] && t[2] == rest[1] && t[3] == rest[2] && t[4] == rest[3] && t[5] == rest[4];
    LineEnds(t, 4);
  }

  // The text of an entry's line from the quote on.
  function FromQuote(text: string, close: string, rest: string): string {
    "\"" + (DumpedChars(text) + ("\"" + (close + ("\n" + rest))))
  }

  lemma QuotedIs(text: string, close: string, rest: string)
    requires Indented(rest) && (close == "" || close == ":")
    ensures QuotedTo(FromQuote(text, close, rest), close)
         == if Readable(text) then Found(DumpedChars(text), 2 + |DumpedChars(text)| + |close|) else NotFound
  {
    hide QuotedTo, TailLen, Readable, DumpedChars, Indented;
    IndentEnds(rest);
    if Readable(text) {
      QuotedReads(text, close, rest);
    } else {
      QuotedFails(text, close, rest);
    }
  }

  lemma VersionLineIs(version: string, rest: string)
    ensures VersionText(version) + "\n" + rest == "  " + FromQuote(version, ":", rest)
    ensures |VersionText(version)| == 5 + |DumpedChars(version)| && Unbroken(VersionText(version))
  {
    DumpedHasNoBreak(version);
    hide DumpedChars;
    assert "\"" + ":" == "\":";
  }

  lemma VersionFound(q: string)
    ensures FoundAt(VersionLine, "  " + q)
        == match QuotedTo(q, ":") case NotFound => NotFound case Found(text, len) => Found(text, 2 + len)
  {
    hide QuotedTo;
    assert ("  " + q)[2..] == q && "  " <= "  " + q;
  }

  lemma VersionIsRead(version: string, rest: string)
    requires Indented(rest)
    ensures FindAll(VersionLine, VersionText(version) + "\n" + rest, true)
        == ReadAs(version) + FindAll(VersionLine, rest, true)
  {
    hide *;
    VersionLineIs(version, rest);
    QuotedIs(version, ":", rest);
    VersionFound(FromQuote(version, ":", rest));
    MatchedLine(VersionLine, VersionText(version), version, rest);
  }

  lemma DateLineIs(date: string, rest: string)
    ensures DateText(date) + "\n" + rest == "    date:" + (" " + FromQuote(date, "", rest))
    ensures |DateText(date)| == 12 + |DumpedChars(date)| && Unbroken(DateText(date))
  {
    DumpedHasNoBreak(date);
    hide DumpedChars;
    assert "    date: " == "    date:" + " ";
    assert "" + ("\n" + rest) == "\n" + rest;
  }

  lemma DateFound(q: string)
    requires q != "" && q[0] == '"'
    ensures FoundAt(DateLine, "    date:" + (" " + q))
        == match QuotedTo(q, "") case NotFound => NotFound case Found(text, len) => Found(text, 10 + len)
  {
    hide QuotedTo;
    var r := " " + q;
    var t := "    date:" + r;
    assert t[9..] == r && "    date:" <= t && r[1] == q[0];
    SpaceLenIs(r, 1);
    hide SpaceLen;
    assert t[9 + 1..] == q;
  }

  lemma DateIsRead(date: string, rest: string)
    requires Indented(rest)
    ensures FindAll(DateLine, DateText(date) + "\n" + rest, true) == ReadAs(date) + FindAll(DateLine, rest, true)
  {
    assert FromQuote(date, "", rest)[0] == '"';
    hide *;
    DateLineIs(date, rest);
    QuotedIs(date, "", rest);
    DateFound(FromQuote(date, "", rest));
    MatchedLine(DateLine, DateText(date), date, rest);
  }

  // ----- the rest of the file

  // A column's name may end in the line break that the name check lets through.
  ghost predicate IsEntry(e: Entry) {
    && e.name != "" && '\n' !in e.name[..|e.name| - 1] && '\n' !in e.type_
    && (e.useCase.Some? ==> '\n' !in e.useCase.value) && forall a <- e.attribute :: '\n' !in a
  }

  ghost predicate EntryHasReturn(e: Entry) {
    || '\r' in e.name || '\r' in e.type_
    || (e.useCase.Some? && '\r' in e.useCase.value) || exists a <- e.attribute :: '\r' in a
  }

  // What is printed as it is: a line each.
  ghost predicate IsProse(s: Schema, p: Prose) {
    && '\n' !in p.providerName && '\n' !in p.describe && '\n' !in p.recordPath && '\n' !in s.store
    && forall e <- s.columns :: IsEntry(e)
  }

  ghost predicate HasReturn(s: Schema, p: Prose) {
    || '\r' in p.providerName || '\r' in p.describe || '\r' in p.recordPath || '\r' in s.store
    || exists e <- s.columns :: EntryHasReturn(e)
  }

  // A line, or a line and the break at its end, that no pattern begins at.
  ghost predicate Skipped(l: string) {
    var body := if l != "" && l[|l| - 1] == '\n' then l[..|l| - 1] else l;
    Unbroken(body) && !("  \"" <= l) && !("    date:" <= l)
  }

  lemma SkippedIsDull(p: Pattern, l: string)
    requires Skipped(l)
    ensures Dull(p, "")
    ensures if l != "" && l[|l| - 1] == '\n' then Dull(p, l[..|l| - 1]) && l == l[..|l| - 1] + "\n" else Dull(p, l)
  {
    if l != "" && l[|l| - 1] == '\n' {
      var body := l[..|l| - 1];
      assert Opening(p) <= body ==> Opening(p) <= l;
    }
  }

  lemma SkippedLine(p: Pattern, l: string, rest: string)
    requires Skipped(l)
    ensures FindAll(p, l + "\n" + rest, true) == FindAll(p, rest, true)
  {
    hide *;
    SkippedIsDull(p, l);
    if l != "" && l[|l| - 1] == '\n' {
      var body, more := l[..|l| - 1], "" + "\n" + rest;
      DullLine(p, body, more);
      DullLine(p, "", rest);
      assert l + "\n" + rest == body + "\n" + more;
    } else {
      DullLine(p, l, rest);
    }
  }

  lemma {:induction false} SkippedLines(p: Pattern, lines: seq<string>, rest: string)
    requires forall l <- lines :: Skipped(l)
    ensures FindAll(p, Unlines(lines) + rest, true) == FindAll(p, rest, true)
  {
    hide Skipped, FindAll;
    if lines == [] {
      assert Unlines(lines) + rest == rest;
    } else {
      assert lines[0] in lines;
      SkippedLine(p, lines[0], Unlines(lines[1..]) + rest);
      SkippedLines(p, lines[1..], rest);
      assert lines[0] + "\n" + Unlines(lines[1..]) + rest == lines[0] + "\n" + (Unlines(lines[1..]) + rest);
    }
  }

  // A line that begins with something else is skipped.
  lemma StartIsSkipped(head: string, tail: string)
    requires Unbroken(head) && Unbroken(tail) && |head| > 4
    requires head[0] != ' ' || (head[2] != '"' && head[4] != 'd')
    ensures Skipped(head + tail)
  {
    var l := head + tail;
    assert l[0] == head[0] && l[2] == head[2] && l[4] == head[4];
    NoBreakConcat(head, tail);
    assert forall i :: 0 <= i < |l| ==> l[i] in l;
    assert "  \""[2] == '"' && "    date:"[4] == 'd';
    assert l != "" ==> l[|l| - 1] != '\n';
  }

  ghost predicate AllSkipped(lines: seq<string>) {
    forall l <- lines :: Skipped(l)
  }

  lemma NoBreakConcat(a: string, b: string)
    requires Unbroken(a) && Unbroken(b)
    ensures Unbroken(a + b)
  {
  }

  // One line that begins with `head`.
  lemma OneSkipped(head: string, tail: string)
    requires Unbroken(head) && Unbroken(tail) && |head| > 4
    requires head[0] != ' ' || (head[2] != '"' && head[4] != 'd')
    ensures AllSkipped([head + tail])
  {
    StartIsSkipped(head, tail);
    hide Skipped;
  }

  lemma BlankIsSkipped()
    ensures AllSkipped([""]) && AllSkipped(["#"])
  {
  }

  lemma NameSkipped(name: string)
    requires name != "" && Unbroken(name[..|name| - 1]) && '\r' !in name
    ensures AllSkipped(["      - name: " + name])
  {
    var head, body := "      - name: ", name[..|name| - 1];
    var l := head + name;
    assert l[2] == ' ' && l[4] == ' ';
    if name[|name| - 1] == '\n' {
      assert l[..|l| - 1] == head + body && l[|l| - 1] == '\n';
      NoBreakConcat(head, body);
    } else {
      assert name == body + [name[|name| - 1]] && name[|name| - 1] in name;
      OneSkipped(head, name);
    }
  }

  lemma OptionSkipped(key: string, value: Option<string>)
    requires Unbroken(key) && |key| > 4 && key[0] == ' ' && key[2] != '"' && key[4] != 'd'
    requires value.Some? ==> Unbroken(value.value)
    ensures AllSkipped(OptionLine(key, value))
  {
    if value.Some? {
      OneSkipped(key, value.value);
    }
  }

  lemma DumpedOptionBreaks(value: Option<string>)
    ensures var d := DumpedOption(value); d.Some? ==> Unbroken(d.value)
  {
    if value.Some? {
      DumpedHasNoBreak(value.value);
    }
  }

  lemma {:induction false} ListedBreaks(names: seq<string>)
    requires forall n <- names :: Unbroken(n)
    ensures Unbroken(Listed(names))
  {
    if |names| > 1 {
      ListedBreaks(names[1..]);
      NoBreakConcat(", ", Listed(names[1..]));
      assert names[0] + ", " + Listed(names[1..]) == names[0] + (", " + Listed(names[1..]));
      NoBreakConcat(names[0], ", " + Listed(names[1..]));
    }
  }

  lemma AttributeSkipped(attribute: seq<string>)
    requires forall a <- attribute :: Unbroken(a)
    ensures AllSkipped(["        attribute: [" + Listed(attribute) + "]"])
  {
    ListedBreaks(attribute);
    NoBreakConcat(Listed(attribute), "]");
    OneSkipped("        attribute: [", Listed(attribute) + "]");
    assert "        attribute: [" + (Listed(attribute) + "]") == "        attribute: [" + Listed(attribute) + "]";
  }

  lemma TypeSkipped(e: Entry)
    requires IsEntry(e) && !EntryHasReturn(e)
    ensures AllSkipped(["        type: " + e.type_]) && AllSkipped(["        _field_type: base"])
  {
    OneSkipped("        type: ", e.type_);
    OneSkipped("        _field_type: base", "");
    assert "        _field_type: base" + "" == "        _field_type: base";
  }

  lemma TypingSkipped(e: Entry)
    requires IsEntry(e) && !EntryHasReturn(e)
    ensures AllSkipped(OptionLine("        ch_override: ", DumpedOption(e.chOverride)))
    ensures AllSkipped(OptionLine("        use_case: ", e.useCase))
  {
    DumpedOptionBreaks(e.chOverride);
    OptionSkipped("        ch_override: ", DumpedOption(e.chOverride));
    OptionSkipped("        use_case: ", e.useCase);
  }

  lemma ReadingSkipped(e: Entry)
    ensures AllSkipped(["        expr: " + Dumped(e.expr)])
    ensures AllSkipped(OptionLine("        comment: ", DumpedOption(e.comment)))
    ensures AllSkipped(OptionLine("        codec: ", DumpedOption(e.codec)))
  {
    DumpedHasNoBreak(e.expr);
    DumpedOptionBreaks(e.comment);
    DumpedOptionBreaks(e.codec);
    hide Dumped, DumpedOption;
    OneSkipped("        expr: ", Dumped(e.expr));
    OptionSkipped("        comment: ", DumpedOption(e.comment));
    OptionSkipped("        codec: ", DumpedOption(e.codec));
  }

  lemma EntrySkipped(e: Entry)
    requires IsEntry(e) && !EntryHasReturn(e)
    ensures AllSkipped(EntryLines(e))
  {
    EntryNames(e);
    hide *;
    NameSkipped(e.name);
    TypeSkipped(e);
    TypingSkipped(e);
    AttributeSkipped(e.attribute);
    ReadingSkipped(e);
    EntryParts(e);
  }

  lemma EntryNames(e: Entry)
    requires IsEntry(e) && !EntryHasReturn(e)
    ensures e.name != "" && Unbroken(e.name[..|e.name| - 1]) && '\r' !in e.name
        && forall a <- e.attribute :: Unbroken(a)
  {
  }

  lemma EntryParts(e: Entry)
    requires AllSkipped(["      - name: " + e.name]) && AllSkipped(["        type: " + e.type_])
    requires AllSkipped(OptionLine("        ch_override: ", DumpedOption(e.chOverride)))
    requires AllSkipped(["        attribute: [" + Listed(e.attribute) + "]"])
    requires AllSkipped(OptionLine("        use_case: ", e.useCase))
    requires AllSkipped(["        expr: " + Dumped(e.expr)])
    requires AllSkipped(OptionLine("        comment: ", DumpedOption(e.comment)))
    requires AllSkipped(OptionLine("        codec: ", DumpedOption(e.codec)))
    requires AllSkipped(["        _field_type: base"])
    ensures AllSkipped(EntryLines(e))
  {
    hide Skipped, OptionLine, DumpedOption, Listed, Dumped;
  }

  lemma {:induction false} ColumnsSkipped(columns: seq<Entry>, first: bool)
    requires forall e <- columns :: IsEntry(e) && !EntryHasReturn(e)
    ensures AllSkipped(ColumnLines(columns, first))
    decreases |columns|
  {
    hide Skipped, EntryLines, IsEntry, EntryHasReturn;
    if columns != [] {
      BlankIsSkipped();
      EntrySkipped(columns[0]);
      ColumnsSkipped(columns[1..], false);
    }
  }

  lemma SummarySkipped(text: string)
    ensures AllSkipped(["    summary: " + Dumped(text)])
  {
    DumpedHasNoBreak(text);
    hide Dumped;
    OneSkipped("    summary: ", Dumped(text));
  }

  lemma TypeModelSkipped()
    ensures AllSkipped(["    type: model"]) && AllSkipped(["    columns:"])
  {
    OneSkipped("    type: model", "");
    OneSkipped("    columns:", "");
    assert "    type: model" + "" == "    type: model" && "    columns:" + "" == "    columns:";
  }

  lemma FootSkipped(s: Schema, p: Prose)
    requires IsProse(s, p) && !HasReturn(s, p)
    ensures AllSkipped(FootLines(s, p))
  {
    TypeModelSkipped();
    SummarySkipped("Initial " + p.providerName + " " + s.store + " schema, from a live export");
    ColumnsSkipped(s.columns, true);
    hide Skipped, ColumnLines, Dumped;
  }

  lemma WhereBreaks(recordPath: string)
    requires Unbroken(recordPath)
    ensures Unbroken(Where(recordPath))
  {
  }

  lemma HeadSkipped(s: Schema, p: Prose, version: string)
    requires IsProse(s, p) && !HasReturn(s, p)
    ensures AllSkipped(HeadLines(s, p, version))
  {
    BlankIsSkipped();
    TitleSkipped(p.providerName, s.store);
    DescribeSkipped(p.describe);
    WhereSkipped(p.recordPath);
    FixedSkipped();
    CurrentSkipped(version);
    hide Skipped, Dumped, Where, UnionLine, SourceLine, ChangeLine;
  }

  lemma CurrentSkipped(version: string)
    ensures AllSkipped(["current: " + Dumped(version)])
  {
    DumpedHasNoBreak(version);
    hide Dumped;
    OneSkipped("current: ", Dumped(version));
  }

  lemma TitleSkipped(providerName: string, store: string)
    requires Unbroken(providerName) && Unbroken(store)
    ensures AllSkipped(["# Meta schema: " + providerName + " " + store])
  {
    NoBreakConcat(" ", store);
    NoBreakConcat(providerName, " " + store);
    OneSkipped("# Meta schema: ", providerName + " " + store);
    hide AllSkipped;
    assert providerName + (" " + store) == providerName + " " + store;
    assert "# Meta schema: " + (providerName + " " + store) == "# Meta schema: " + providerName + " " + store;
  }

  lemma DescribeSkipped(describe: string)
    requires Unbroken(describe)
    ensures AllSkipped(["# " + describe])
  {
    var l := "# " + describe;
    assert l[0] == '#';
    NoBreakConcat("# ", describe);
    assert forall i :: 0 <= i < |l| ==> l[i] in l;
  }

  lemma WhereSkipped(recordPath: string)
    requires Unbroken(recordPath)
    ensures AllSkipped(["# the values observed; the record sits " + Where(recordPath) + ", which is where every"])
  {
    var head, tail := "# the values observed; the record sits ", ", which is where every";
    WhereBreaks(recordPath);
    WhereHead();
    WhereTail();
    hide Unbroken;
    hide Where;
    NoBreakConcat(Where(recordPath), tail);
    OneSkipped(head, Where(recordPath) + tail);
    hide AllSkipped;
    assert head + (Where(recordPath) + tail) == head + Where(recordPath) + tail;
  }

  lemma WhereHead()
    ensures Unbroken("# the values observed; the record sits ")
  {
  }

  lemma WhereTail()
    ensures Unbroken(", which is where every")
  {
  }

  lemma FixedSkipped()
    ensures AllSkipped([UnionLine()]) && AllSkipped([SourceLine()]) && AllSkipped([ChangeLine()])
    ensures AllSkipped(["resource_type: core"]) && AllSkipped(["versions:"])
  {
    UnionSkipped();
    SourceSkipped();
    ChangeSkipped();
    FixedLine("resource_type: core", "", "");
    FixedLine("versions:", "", "");
    assert "resource_type: core" + ("" + "") == "resource_type: core" && "versions:" + ("" + "") == "versions:";
  }

  lemma UnionSkipped()
    ensures AllSkipped([UnionLine()])
  {
    FixedLine("# Columns are the union of keys", " across the rows of a live", " export, typed from");
  }

  lemma SourceSkipped()
    ensures AllSkipped([SourceLine()])
  {
    FixedLine("# expression reads from. Generated", " by scripts/generate_meta", "_schemas.py: a");
  }

  lemma ChangeSkipped()
    ensures AllSkipped([ChangeLine()])
  {
    FixedLine("# changed export becomes a new", " version entry, never an edit", " of a published one.");
  }

  lemma FixedLine(a: string, b: string, c: string)
    requires |a| > 4 && a[0] != ' ' && Unbroken(a) && Unbroken(b) && Unbroken(c)
    ensures AllSkipped([a + (b + c)])
  {
    NoBreakConcat(b, c);
    OneSkipped(a, b + c);
  }

  // ----- what a generated file is read as

  lemma FootIsIndented(s: Schema, p: Prose)
    ensures Indented(Unlines(FootLines(s, p)))
  {
    var first, rest := "    type: model", FootLines(s, p)[1..];
    assert FootLines(s, p) == [first] + rest;
    var t := Unlines(FootLines(s, p));
    assert t == first + "\n" + Unlines(rest);
    hide Unlines, FootLines;
    assert t[..4] == first[..4] && t[4] == first[4] == 't';
    assert first[..4] == "    ";
  }

  lemma DateIsIndented(date: string, rest: string)
    ensures Indented(DateText(date) + "\n" + rest)
  {
    var t := DateText(date) + "\n" + rest;
    assert t[0] == ' ' && t[1] == ' ' && t[2] == ' ' && t[3] == ' ' && t[4] == 'd';
    assert t[..4] == "    ";
  }

  lemma DateIsNoVersion(date: string)
    ensures Dull(VersionLine, DateText(date))
  {
    DumpedHasNoBreak(date);
    var l := DateText(date);
    assert l[2] == ' ' && "  \""[2] == '"';
    NoBreakConcat("    date: ", Dumped(date));
    Differs("  \"", l, 2);
  }

  lemma VersionIsNoDate(version: string)
    ensures Dull(DateLine, VersionText(version))
  {
    DumpedHasNoBreak(version);
    var l := VersionText(version);
    NoBreakConcat("  ", Dumped(version));
    NoBreakConcat("  " + Dumped(version), ":");
    assert l[2] == '"' && "    date:"[2] == ' ';
    Differs("    date:", l, 2);
  }

  // The lines of the file, from the version's on.
  lemma RenderIs(s: Schema, p: Prose, version: string, date: string)
    ensures Render(s, p, version, date)
         == Unlines(HeadLines(s, p, version)) + (VersionText(version) + "\n"
           + (DateText(date) + "\n" + Unlines(FootLines(s, p))))
  {
    hide HeadLines, FootLines, VersionText, DateText, JoinLines;
    var pair := [VersionText(version), DateText(date)];
    JoinedIsUnlines(Lines(s, p, version, date));
    UnlinesConcat(HeadLines(s, p, version), pair + FootLines(s, p));
    var tail := pair + FootLines(s, p);
    assert tail[0] == VersionText(version) && tail[1..][0] == DateText(date) && tail[1..][1..] == FootLines(s, p);
  }

  lemma {:induction false} SkippedHasNoReturn(lines: seq<string>)
    requires AllSkipped(lines)
    ensures '\r' !in Unlines(lines)
  {
    if lines != [] {
      assert lines[0] in lines;
      assert '\r' !in lines[0] by { OneHasNoReturn(lines[0]); }
      SkippedHasNoReturn(lines[1..]);
    }
  }

  lemma OneHasNoReturn(l: string)
    requires Skipped(l)
    ensures '\r' !in l
  {
    if l != "" && l[|l| - 1] == '\n' {
      assert l == l[..|l| - 1] + "\n";
    }
  }

  // A generated file holds no carriage return, so it is read as it was written.
  lemma RenderIsRead(s: Schema, p: Prose, version: string, date: string)
    requires IsProse(s, p) && !HasReturn(s, p)
    ensures ReadText(Render(s, p, version, date)) == Render(s, p, version, date)
  {
    hide *;
    RenderIs(s, p, version, date);
    HeadSkipped(s, p, version);
    FootSkipped(s, p);
    SkippedHasNoReturn(HeadLines(s, p, version));
    SkippedHasNoReturn(FootLines(s, p));
    VersionLineIs(version, "");
    DateLineIs(date, "");
    UnbrokenIs(VersionText(version));
    UnbrokenIs(DateText(date));
    ReadAsWritten(Render(s, p, version, date));
  }

  lemma UnbrokenIs(t: string)
    requires Unbroken(t)
    ensures '\r' !in t
  {
  }

  lemma VersionsOfRender(s: Schema, p: Prose, version: string, date: string)
    requires IsProse(s, p) && !HasReturn(s, p)
    ensures FindAll(VersionLine, Render(s, p, version, date), true) == ReadAs(version)
  {
    hide *;
    var foot := Unlines(FootLines(s, p));
    var rest := DateText(date) + "\n" + foot;
    RenderIs(s, p, version, date);
    HeadSkipped(s, p, version);
    AllSkippedLines(VersionLine, HeadLines(s, p, version), VersionText(version) + "\n" + rest);
    DateIsIndented(date, foot);
    VersionIsRead(version, rest);
    DateIsNoVersion(date);
    DullLine(VersionLine, DateText(date), foot);
    FootFindsNothing(VersionLine, s, p);
    assert ReadAs(version) + [] == ReadAs(version);
  }

  lemma DatesOfRender(s: Schema, p: Prose, version: string, date: string)
    requires IsProse(s, p) && !HasReturn(s, p)
    ensures FindAll(DateLine, Render(s, p, version, date), true) == ReadAs(date)
  {
    hide *;
    var foot := Unlines(FootLines(s, p));
    var rest := DateText(date) + "\n" + foot;
    RenderIs(s, p, version, date);
    HeadSkipped(s, p, version);
    AllSkippedLines(DateLine, HeadLines(s, p, version), VersionText(version) + "\n" + rest);
    VersionIsNoDate(version);
    DullLine(DateLine, VersionText(version), rest);
    FootIsIndented(s, p);
    DateIsRead(date, foot);
    FootFindsNothing(DateLine, s, p);
    assert ReadAs(date) + [] == ReadAs(date);
  }

  lemma AllSkippedLines(p: Pattern, lines: seq<string>, rest: string)
    requires AllSkipped(lines)
    ensures FindAll(p, Unlines(lines) + rest, true) == FindAll(p, rest, true)
  {
    hide Skipped, FindAll, Unlines;
    SkippedLines(p, lines, rest);
  }

  lemma FootFindsNothing(p: Pattern, s: Schema, q: Prose)
    requires IsProse(s, q) && !HasReturn(s, q)
    ensures FindAll(p, Unlines(FootLines(s, q)), true) == []
  {
    hide IsProse, HasReturn, Skipped, FootLines, Unlines;
    FootSkipped(s, q);
    SkippedLines(p, FootLines(s, q), "");
    assert Unlines(FootLines(s, q)) + "" == Unlines(FootLines(s, q));
    assert FindAll(p, "", true) == [];
  }

  // What a generated file holds.
  lemma HeldOfRender(s: Schema, p: Prose, version: string, date: string)
    requires IsProse(s, p) && !HasReturn(s, p)
    ensures Held(Render(s, p, version, date))
         == if Readable(version) then map[DumpedChars(version) := if Readable(date) then Some(DumpedChars(date))
           else None] else map[]
  {
    RenderIsRead(s, p, version, date);
    VersionsOfRender(s, p, version, date);
    DatesOfRender(s, p, version, date);
    hide Render, ReadText, FindAll, DumpedChars, Readable;
    var versions := ReadAs(version);
    if Readable(version) {
      assert versions[..0] == [] && Paired([], ReadAs(date)) == map[];
    }
  }

  // Neither empty nor in need of any escape.
  predicate IsPlainText(t: string) {
    t != "" && AllPlain(t)
  }

  lemma DumpedIsSame(t: string)
    ensures Readable(t) && DumpedChars(t) == t <==> IsPlainText(t)
  {
    CharsAreDumped(t);
    assert AllPlain(t) ==> '"' !in t by {
      assert forall i :: 0 <= i < |t| ==> t[i] in t;
    }
  }

  // Reading a generated file gives back the version and the date printed in it exactly when both are plain.
  lemma VersionsReadBack(s: Schema, p: Prose, version: string, date: string)
    requires IsProse(s, p) && !HasReturn(s, p)
    ensures Held(Render(s, p, version, date)) == map[version := Some(date)]
        <==> IsPlainText(version) && IsPlainText(date)
  {
    HeldOfRender(s, p, version, date);
    DumpedIsSame(version);
    DumpedIsSame(date);
    hide Held, Render, DumpedChars, Readable, IsPlainText;
    var held := Held(Render(s, p, version, date));
    if held == map[version := Some(date)] {
      assert version in held && held[version] == Some(date);
    }
  }

  // ----- writing

  datatype Outcome = Failed | Unchanged | Changed

  // One store of one run: its schema, or None where its dump could not be turned into one.
  datatype Job = Job(store: string, schema: Option<Schema>, prose: Prose, version: string, date: string, today: string,
    dryRun: bool)

  type Files = map<string, string>

  function HeldBy(files: Files, store: string): map<string, Option<string>> {
    if store in files then Held(files[store]) else map[]
  }

  // The date given, else the date the file holds for the version, else today's.
  function DateFor(held: map<string, Option<string>>, job: Job): string {
    if job.date != "" then job.date
    else if job.version in held && held[job.version].Some? && held[job.version].value != "" then held[job.version].value
    else job.today
  }

  function TextFor(files: Files, job: Job): string
    requires job.schema.Some?
  {
    Render(job.schema.value, job.prose, job.version, DateFor(HeldBy(files, job.store), job))
  }

  function OutcomeOf(files: Files, job: Job): Outcome {
    if job.schema.None? then Failed
    else
      var held := HeldBy(files, job.store);
      if exists v :: v in held && v != job.version then Failed
      else
        var text := TextFor(files, job);
        var current := if job.store in files then Some(ReadText(files[job.store])) else None;
        if current.Some? && current.value != text && job.version in held then Failed
        else if current == Some(text) then Unchanged
        else Changed
  }

  function Run(files: Files, job: Job): Files {
    if OutcomeOf(files, job) == Changed && !job.dryRun then files[job.store := TextFor(files, job)] else files
  }

  function RunAll(files: Files, jobs: seq<Job>): Files
    decreases |jobs|
  {
    if jobs == [] then files else RunAll(Run(files, jobs[0]), jobs[1..])
  }

  function Count(files: Files, jobs: seq<Job>, o: Outcome): nat
    decreases |jobs|
  {
    if jobs == [] then 0
    else (if OutcomeOf(files, jobs[0]) == o then 1 else 0) + Count(Run(files, jobs[0]), jobs[1..], o)
  }

  // The loop over the stores, with its two counters.
  method Generate(files: Files, jobs: seq<Job>) returns (after: Files, changed: nat, failed: nat)
    ensures after == RunAll(files, jobs)
    ensures changed == Count(files, jobs, Changed) && failed == Count(files, jobs, Failed)
  {
    hide OutcomeOf, Held, Render, DateFor, ReadText;
    after, changed, failed := files, 0, 0;
    assert jobs[0..] == jobs;
    for i := 0 to |jobs|
      invariant RunAll(files, jobs) == RunAll(after, jobs[i..])
      invariant Count(files, jobs, Changed) == changed + Count(after, jobs[i..], Changed)
      invariant Count(files, jobs, Failed) == failed + Count(after, jobs[i..], Failed)
    {
      var job := jobs[i];
      assert jobs[i..][0] == job && jobs[i..][1..] == jobs[i + 1..];
      var outcome := OutcomeOf(after, job);
      ChangedHasSchema(after, job);
      if outcome == Failed {
        failed := failed + 1;
        continue;
      }
      if outcome == Unchanged {
        continue;
      }
      changed := changed + 1;
      if !job.dryRun {
        after := after[job.store := TextFor(after, job)];
      }
    }
  }

  lemma ChangedHasSchema(files: Files, job: Job)
    ensures OutcomeOf(files, job) != Failed ==> job.schema.Some?
  {
    hide Held, Render, DateFor, ReadText;
  }

  lemma HeldIsKept(files: Files, job: Job, store: string)
    requires store in files && Held(files[store]) != map[]
    ensures store in Run(files, job) && Run(files, job)[store] == files[store]
  {
    hide Held, Render, DateFor, ReadText;
    var v := SomeKey(Held(files[store]));
    assert job.store == store && v == job.version ==> job.version in HeldBy(files, store);
    assert job.store == store ==> OutcomeOf(files, job) != Changed;
  }

  lemma SomeKey<K, V>(m: map<K, V>) returns (k: K)
    requires m != map[]
    ensures k in m
  {
    assert m.Keys != {};
    k :| k in m.Keys;
  }

  // A file that holds a version is never written again, whatever is run, in whatever order.
  lemma {:induction false} PublishedVersionsStay(files: Files, jobs: seq<Job>, store: string)
    requires store in files && Held(files[store]) != map[]
    ensures store in RunAll(files, jobs) && RunAll(files, jobs)[store] == files[store]
    decreases |jobs|
  {
    hide Held, Run;
    if jobs != [] {
      HeldIsKept(files, jobs[0], store);
      PublishedVersionsStay(Run(files, jobs[0]), jobs[1..], store);
    }
  }

  // A generated file is protected by that exactly when its version is neither empty nor holds a quote.
  lemma GeneratedIsPublished(s: Schema, p: Prose, version: string, date: string)
    requires IsProse(s, p) && !HasReturn(s, p)
    ensures Held(Render(s, p, version, date)) != map[] <==> Readable(version)
  {
    HeldOfRender(s, p, version, date);
    hide Held, Render, DumpedChars, Readable;
    if Readable(version) {
      var held := Held(Render(s, p, version, date));
      assert DumpedChars(version) in held;
    }
  }

  // ----- running again

  lemma {:induction false} PlainFromPlain(text: string)
    ensures AllPlain(DumpedChars(text)) <==> AllPlain(text)
  {
    if text != "" {
      var c, rest := text[0], text[1..];
      PlainFromPlain(rest);
      CharIsDumped(c);
      var d, more := DumpedChar(c), DumpedChars(rest);
      assert IsPlain(c) || d[0] == '\\';
      hide DumpedChar, IsPlain;
      assert forall i :: 0 <= i < |rest| ==> rest[i] == text[i + 1];
      assert forall i :: 0 <= i < |d| ==> (d + more)[i] == d[i];
      assert forall i :: 0 <= i < |more| ==> (d + more)[i + |d|] == more[i];
      assert !IsPlain('\\') by { BackslashIsNotPlain(); }
      if AllPlain(text) {
        assert forall i :: 0 <= i < |d + more| ==> IsPlain((d + more)[i]);
      }
      if AllPlain(d + more) {
        assert IsPlain((d + more)[0]);
        assert forall i :: 0 <= i < |more| ==> IsPlain(more[i]);
      }
    }
  }

  lemma BackslashIsNotPlain()
    ensures !IsPlain('\\')
  {
  }

  // No other date is printed as a plain one is.
  lemma PlainDateShows(s: Schema, p: Prose, version: string, date: string, other: string)
    requires IsProse(s, p) && !HasReturn(s, p) && IsPlainText(date)
    ensures Render(s, p, version, date) == Render(s, p, version, other) <==> date == other
  {
    DatesOfRender(s, p, version, date);
    DatesOfRender(s, p, version, other);
    DumpedIsSame(date);
    DumpedIsSame(other);
    PlainFromPlain(other);
    hide Render, FindAll, DumpedChars, Readable, IsProse, HasReturn;
    if Render(s, p, version, date) == Render(s, p, version, other) {
      assert ReadAs(other) == [date];
    }
  }

  // Nor is a date that needs an escape printed as the text its print is read as.
  lemma EscapedDateShows(s: Schema, p: Prose, version: string, date: string)
    requires IsProse(s, p) && !HasReturn(s, p) && Readable(date) && !IsPlainText(date)
    ensures Render(s, p, version, date) != Render(s, p, version, DumpedChars(date))
  {
    var d := DumpedChars(date);
    DatesOfRender(s, p, version, date);
    DatesOfRender(s, p, version, d);
    CharsAreDumped(date);
    CharsAreDumped(d);
    PlainFromPlain(date);
    hide Render, FindAll, DumpedChars, IsProse, HasReturn;
    assert ReadAs(date) == [d] && ReadAs(d) == [DumpedChars(d)];
  }

  // What the file of a job that was just written is read as.
  lemma WrittenIsHeld(files: Files, job: Job)
    requires OutcomeOf(files, job) == Changed && !job.dryRun && job.schema.Some?
    requires IsProse(job.schema.value, job.prose) && !HasReturn(job.schema.value, job.prose)
    ensures var after, date := Run(files, job), DateFor(HeldBy(files, job.store), job);
            && job.store in after
            && ReadText(after[job.store]) == Render(job.schema.value, job.prose, job.version, date)
            && HeldBy(after, job.store)
               == if !Readable(job.version) then map[]
                  else map[DumpedChars(job.version) := if Readable(date) then Some(DumpedChars(date)) else None]
  {
    var date := DateFor(HeldBy(files, job.store), job);
    HeldOfRender(job.schema.value, job.prose, job.version, date);
    RenderIsRead(job.schema.value, job.prose, job.version, date);
    hide Held, Render, ReadText, DateFor, DumpedChars, Readable, OutcomeOf, IsProse, HasReturn;
  }

  // Running a job again, with no date given, writes nothing and finds nothing wrong exactly when no carriage
  // return stands in what it prints, the date it printed needs no escape, and the version needs none either, or
  // is not read at all and the day is the one that was printed.
  lemma RerunChangesNothing(files: Files, job: Job, later: Job)
    requires OutcomeOf(files, job) == Changed && !job.dryRun
    requires job.schema.Some? && IsProse(job.schema.value, job.prose)
    requires later == job.(date := "", today := later.today, dryRun := later.dryRun) && IsPlainText(later.today)
    ensures var date := DateFor(HeldBy(files, job.store), job);
            OutcomeOf(Run(files, job), later) == Unchanged
            <==> !HasReturn(job.schema.value, job.prose) && IsPlainText(date)
                 && (IsPlainText(job.version) || (!Readable(job.version) && date == later.today))
    ensures OutcomeOf(Run(files, job), later) == Unchanged ==> Run(Run(files, job), later) == Run(files, job)
  {
    hide IsProse, HasReturn;
    if HasReturn(job.schema.value, job.prose) {
      ReturnNeverSettles(Run(files, job), later);
    } else {
      WrittenIsHeld(files, job);
      var date := DateFor(HeldBy(files, job.store), job);
      hide *;
      if Readable(job.version) {
        RerunOfReadable(Run(files, job), later, date);
      } else {
        RerunOfUnreadable(Run(files, job), later, date);
      }
    }
    RunUnchanged(Run(files, job), later);
  }

  lemma RunUnchanged(files: Files, job: Job)
    ensures OutcomeOf(files, job) == Unchanged ==> Run(files, job) == files
  {
    hide OutcomeOf, TextFor;
  }

  lemma RerunOfReadable(files: Files, job: Job, date: string)
    requires job.schema.Some? && IsProse(job.schema.value, job.prose) && !HasReturn(job.schema.value, job.prose)
    requires job.date == "" && IsPlainText(job.today) && job.store in files && Readable(job.version)
    requires ReadText(files[job.store]) == Render(job.schema.value, job.prose, job.version, date)
    requires HeldBy(files, job.store) == map[DumpedChars(job.version) := if Readable(date) then Some(DumpedChars(date))
        else None]
    ensures OutcomeOf(files, job) == Unchanged <==> IsPlainText(date) && IsPlainText(job.version)
  {
    var held := HeldBy(files, job.store);
    DumpedIsSame(job.version);
    DumpedIsSame(date);
    hide IsProse, HasReturn, Render, ReadText, DumpedChars, Readable, IsPlainText, HeldBy;
    if IsPlainText(job.version) {
      assert DumpedChars(job.version) == job.version;
      if Readable(date) {
        assert DumpedChars(date) != "" by { DumpedNotEmpty(date); }
        assert DateFor(held, job) == DumpedChars(date);
        if !IsPlainText(date) {
          EscapedDateShows(job.schema.value, job.prose, job.version, date);
        }
      } else {
        assert DateFor(held, job) == job.today;
        DumpedIsSame(job.today);
        PlainDateShows(job.schema.value, job.prose, job.version, job.today, date);
      }
    } else {
      assert DumpedChars(job.version) in held && DumpedChars(job.version) != job.version;
    }
  }

  lemma DumpedNotEmpty(text: string)
    requires Readable(text)
    ensures DumpedChars(text) != ""
  {
    CharsAreDumped(text);
  }

  lemma RerunOfUnreadable(files: Files, job: Job, date: string)
    requires job.schema.Some? && IsProse(job.schema.value, job.prose) && !HasReturn(job.schema.value, job.prose)
    requires job.date == "" && IsPlainText(job.today) && job.store in files && !Readable(job.version)
    requires ReadText(files[job.store]) == Render(job.schema.value, job.prose, job.version, date)
    requires HeldBy(files, job.store) == map[]
    ensures OutcomeOf(files, job) == Unchanged <==> IsPlainText(date) && !IsPlainText(job.version) && date == job.today
  {
    DumpedIsSame(job.version);
    hide IsProse, HasReturn, Render, ReadText, DumpedChars, Readable, IsPlainText, HeldBy;
    PlainDateShows(job.schema.value, job.prose, job.version, job.today, date);
  }

  // A version that holds a quote protects nothing: a changed export rewrites the file it was printed in.
  lemma UnreadableVersionIsRewritten(files: Files, s: Schema, job: Job, date: string)
    requires job.schema.Some? && IsProse(s, job.prose) && !HasReturn(s, job.prose) && !Readable(job.version)
        && !job.dryRun
    requires job.store in files && files[job.store] == Render(s, job.prose, job.version, date)
    requires Render(job.schema.value, job.prose, job.version, if job.date != "" then job.date
        else job.today) != files[job.store]
    ensures OutcomeOf(files, job) == Changed
    ensures Run(files, job)[job.store] == Render(job.schema.value, job.prose, job.version, if job.date != ""
        then job.date else job.today)
  {
    HeldOfRender(s, job.prose, job.version, date);
    RenderIsRead(s, job.prose, job.version, date);
    hide Held, Render, ReadText, DumpedChars, Readable;
  }

  // ----- carriage returns in the prose

  lemma {:induction false} InJoined(lines: seq<string>, l: string, c: char)
    requires l in lines && c in l
    ensures c in JoinLines(lines)
  {
    if |lines| > 1 && l != lines[0] {
      InJoined(lines[1..], l, c);
    }
  }

  lemma EntryShowsReturn(e: Entry)
    requires EntryHasReturn(e)
    ensures exists l <- EntryLines(e) :: '\r' in l
  {
    var lines := EntryLines(e);
    if '\r' in e.name {
      assert '\r' in lines[0];
    } else if '\r' in e.type_ {
      assert '\r' in lines[1];
    } else if e.useCase.Some? && '\r' in e.useCase.value {
      var l := "        use_case: " + e.useCase.value;
      assert l in lines && '\r' in l;
    } else {
      var a :| a in e.attribute && '\r' in a;
      InListed(e.attribute, a, '\r');
      var l := "        attribute: [" + Listed(e.attribute) + "]";
      assert l in lines && '\r' in l;
    }
  }

  lemma {:induction false} InListed(names: seq<string>, n: string, c: char)
    requires n in names && c in n
    ensures c in Listed(names)
  {
    if |names| > 1 && n != names[0] {
      InListed(names[1..], n, c);
    }
  }

  lemma {:induction false} ColumnsShowReturn(columns: seq<Entry>, first: bool)
    requires exists e <- columns :: EntryHasReturn(e)
    ensures exists l <- ColumnLines(columns, first) :: '\r' in l
    decreases |columns|
  {
    hide EntryHasReturn, EntryLines;
    if EntryHasReturn(columns[0]) {
      EntryShowsReturn(columns[0]);
      var l :| l in EntryLines(columns[0]) && '\r' in l;
      assert l in ColumnLines(columns, first);
    } else {
      ColumnsShowReturn(columns[1..], false);
      var l :| l in ColumnLines(columns[1..], false) && '\r' in l;
      assert l in ColumnLines(columns, first);
    }
  }

  lemma HeadShowsReturn(s: Schema, p: Prose, version: string)
    requires '\r' in p.providerName || '\r' in p.describe || '\r' in p.recordPath || '\r' in s.store
    ensures exists l <- HeadLines(s, p, version) :: '\r' in l
  {
    hide UnionLine, SourceLine, ChangeLine, Dumped;
    var lines := HeadLines(s, p, version);
    if '\r' in p.describe {
      assert '\r' in lines[2];
    } else if '\r' in p.recordPath {
      assert '\r' in Where(p.recordPath);
      assert '\r' in lines[5];
    } else {
      assert '\r' in lines[0];
    }
  }

  // A carriage return in the prose is printed as it is.
  lemma RenderShowsReturn(s: Schema, p: Prose, version: string, date: string)
    requires HasReturn(s, p)
    ensures '\r' in Render(s, p, version, date)
  {
    var lines := Lines(s, p, version, date);
    hide HeadLines, ColumnLines, VersionText, DateText, EntryHasReturn, Dumped, JoinLines;
    var l: string;
    if exists e <- s.columns :: EntryHasReturn(e) {
      ColumnsShowReturn(s.columns, true);
      l :| l in ColumnLines(s.columns, true) && '\r' in l;
      assert l in FootLines(s, p);
    } else {
      HeadShowsReturn(s, p, version);
      l :| l in HeadLines(s, p, version) && '\r' in l;
    }
    assert l in lines;
    InJoined(lines, l, '\r');
  }

  // A job with a carriage return in its prose never finds its file unchanged, however often it is written.
  lemma ReturnNeverSettles(files: Files, job: Job)
    requires job.schema.Some? && HasReturn(job.schema.value, job.prose)
    ensures OutcomeOf(files, job) != Unchanged
  {
    RenderShowsReturn(job.schema.value, job.prose, job.version, DateFor(HeldBy(files, job.store), job));
    if job.store in files {
      ReadTextHasNone(files[job.store]);
    }
    hide Held, Render, DateFor, ReadText, HasReturn;
  }

  lemma NewStoreIsWritten(files: Files, job: Job)
    requires job.schema.Some? && job.store !in files
    ensures OutcomeOf(files, job) == Changed
  {
    hide Render, DateFor;
  }

  function ReturnProse(): Prose { Prose("p", "a\rb", "") }

  lemma ReturnProseIs(s: Schema)
    requires s == Schema("s", [])
    ensures IsProse(s, ReturnProse()) && HasReturn(s, ReturnProse())
  {
    assert "a\rb"[1] == '\r';
    assert '\n' !in "p" && '\n' !in "a\rb" && '\n' !in "" && '\n' !in "s";
  }

  // A new store, described in a text with a carriage return in it: it is written, and the next run on the same
  // day does not leave it at that.
  lemma DescriptionNeverSettles(job: Job)
    requires job == Job("s", Some(Schema("s", [])), ReturnProse(), "1.0.0", "", "2024-05-01", false)
    ensures IsProse(job.schema.value, job.prose)
    ensures OutcomeOf(map[], job) == Changed && OutcomeOf(Run(map[], job), job) != Unchanged
  {
    hide OutcomeOf, Run, HasReturn, IsProse, ReturnProse;
    ReturnProseIs(job.schema.value);
    NewStoreIsWritten(map[], job);
    ReturnNeverSettles(Run(map[], job), job);
  }
}

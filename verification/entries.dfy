/** Reading a printed version entry back: its columns field by field, and its strings as JSON reads them. */
module Entries {
  import opened Text
  import opened Words
  import opened Wrappers
  import opened Versions

  // ----- a JSON string

  function HexValue(c: char): Option<nat> {
    if '0' <= c <= '9' then Some(c as nat - '0' as nat)
    else if 'a' <= c <= 'f' then Some(c as nat - 'a' as nat + 10)
    else None
  }

  // Four hexadecimal digits.
  function Unit(t: string): (n: Option<nat>)
    ensures n.Some? ==> n.value < 0x10000 && |t| >= 4
  {
    if |t| < 4 then None
    else match (HexValue(t[0]), HexValue(t[1]), HexValue(t[2]), HexValue(t[3]))
      case (Some(a), Some(b), Some(c), Some(d)) =>
        if a < 16 && b < 16 && c < 16 && d < 16 then Some(a * 4096 + b * 256 + c * 16 + d) else None
      case _ => None
  }

  function Before(c: char, t: Option<string>): Option<string> {
    match t case None => None case Some(x) => Some([c] + x)
  }

  // The rest of a JSON string behind its opening quote; two surrogates are one character.
  function Parsed(t: string): Option<string>
    decreases |t|
  {
    if t == "\"" then Some("")
    else if t == "" || t[0] == '"' then None
    else if t[0] != '\\' then Before(t[0], Parsed(t[1..]))
    else if |t| < 2 then None
    else match t[1]
      case '"' => Before('"', Parsed(t[2..]))
      case '\\' => Before('\\', Parsed(t[2..]))
      case 'n' => Before('\n', Parsed(t[2..]))
      case 'r' => Before('\r', Parsed(t[2..]))
      case 't' => Before('\t', Parsed(t[2..]))
      case 'b' => Before('\U{08}', Parsed(t[2..]))
      case 'f' => Before('\U{0C}', Parsed(t[2..]))
      case 'u' =>
        (match Unit(t[2..])
         case None => None
         case Some(n) =>
           if n < 0xD800 || 0xE000 <= n then Before(n as char, Parsed(t[6..]))
           else if 0xDC00 <= n || |t| < 12 || t[6] != '\\' || t[7] != 'u' then None
           else match Unit(t[8..])
             case None => None
             case Some(m) =>
               if m < 0xDC00 || 0xE000 <= m then None
               else Before((0x10000 + (n - 0xD800) * 0x400 + (m - 0xDC00)) as char, Parsed(t[12..])))
      case _ => None
  }

  function Undumped(t: string): Option<string> {
    if t == "" || t[0] != '"' then None else Parsed(t[1..])
  }

  lemma HexReads(n: nat)
    requires n < 16
    ensures HexValue(HexDigit(n)) == Some(n)
  {
  }

  lemma UnitReads(n: nat, rest: string)
    requires n < 0x10000
    ensures Unit(Hex4(n) + rest) == Some(n) && (Hex4(n) + rest)[4..] == rest
  {
    var a, b, c, d := n / 4096, n / 256 % 16, n / 16 % 16, n % 16;
    HexReads(a);
    HexReads(b);
    HexReads(c);
    HexReads(d);
    var t := Hex4(n) + rest;
    assert Hex4(n) == [HexDigit(a), HexDigit(b), HexDigit(c), HexDigit(d)];
    hide HexDigit, HexValue, Hex4;
    assert t[0] == HexDigit(a) && t[1] == HexDigit(b) && t[2] == HexDigit(c) && t[3] == HexDigit(d);
    Digits(n);
  }

  lemma Digits(n: nat)
    requires n < 0x10000
    ensures n / 4096 * 4096 + n / 256 % 16 * 256 + n / 16 % 16 * 16 + n % 16 == n
  {
    assert n / 256 / 16 == n / 4096 && n / 16 / 16 == n / 256;
  }

  lemma OneUnit(n: nat, rest: string)
    requires n < 0x10000 && (n < 0xD800 || 0xE000 <= n)
    ensures Parsed("\\u" + Hex4(n) + rest) == Before(n as char, Parsed(rest))
  {
    var t, x := "\\u" + Hex4(n) + rest, Hex4(n) + rest;
    UnitReads(n, rest);
    hide Hex4, Unit;
    assert t[0] == '\\' && t[1] == 'u' && t[2..] == x && t[6..] == x[4..] == rest;
  }

  lemma ParsedPair(t: string, high: nat, low: nat)
    requires |t| > 12 && t[0] == '\\' && t[1] == 'u' && t[6] == '\\' && t[7] == 'u'
    requires Unit(t[2..]) == Some(high) && Unit(t[8..]) == Some(low)
    requires 0xD800 <= high < 0xDC00 && 0xDC00 <= low < 0xE000
    ensures Parsed(t) == Before((0x10000 + (high - 0xD800) * 0x400 + (low - 0xDC00)) as char, Parsed(t[12..]))
  {
    hide Unit;
  }

  lemma Surrogates(n: nat)
    requires 0x10000 <= n < 0x110000
    ensures var high, low := 0xD800 + (n - 0x10000) / 0x400 % 0x400, 0xDC00 + (n - 0x10000) % 0x400;
            && 0xD800 <= high < 0xDC00 && 0xDC00 <= low < 0xE000
            && 0x10000 + (high - 0xD800) * 0x400 + (low - 0xDC00) == n
  {
  }

  lemma PairParts(x: string, y: string, rest: string)
    requires |x| == 4 && |y| == 4 && rest != ""
    ensures var t := "\\u" + x + "\\u" + y + rest;
            && |t| > 12 && t[0] == '\\' && t[1] == 'u' && t[6] == '\\' && t[7] == 'u'
            && t[2..] == x + ("\\u" + (y + rest)) && t[8..] == y + rest && t[12..] == rest
  {
  }

  lemma TwoUnits(n: nat, rest: string)
    requires 0x10000 <= n < 0x110000 && rest != ""
    ensures var high, low := 0xD800 + (n - 0x10000) / 0x400 % 0x400, 0xDC00 + (n - 0x10000) % 0x400;
            high < 0x10000 && low < 0x10000
            && Parsed("\\u" + Hex4(high) + "\\u" + Hex4(low) + rest) == Before(n as char, Parsed(rest))
  {
    Surrogates(n);
    PairReads(n, 0xD800 + (n - 0x10000) / 0x400 % 0x400, 0xDC00 + (n - 0x10000) % 0x400, rest);
  }

  lemma PairReads(n: nat, high: nat, low: nat, rest: string)
    requires 0x10000 <= n < 0x110000 && rest != "" && 0xD800 <= high < 0xDC00 && 0xDC00 <= low < 0xE000
    requires 0x10000 + (high - 0xD800) * 0x400 + (low - 0xDC00) == n
    ensures Parsed("\\u" + Hex4(high) + "\\u" + Hex4(low) + rest) == Before(n as char, Parsed(rest))
  {
    assert |Hex4(high)| == 4 && |Hex4(low)| == 4;
    hide *;
    UnitReads(high, "\\u" + (Hex4(low) + rest));
    UnitReads(low, rest);
    PairParts(Hex4(high), Hex4(low), rest);
    ParsedPair("\\u" + Hex4(high) + "\\u" + Hex4(low) + rest, high, low);
  }

  // The letter behind the backslash, for a character that has one.
  predicate IsEscape(e: char, c: char) {
    || (e == '"' && c == '"') || (e == '\\' && c == '\\') || (e == 'n' && c == '\n') || (e == 'r' && c == '\r')
    || (e == 't' && c == '\t') || (e == 'b' && c == '\U{08}') || (e == 'f' && c == '\U{0C}')
  }

  lemma EscapeReads(e: char, c: char, rest: string)
    requires IsEscape(e, c) && rest != ""
    ensures Parsed(['\\', e] + rest) == Before(c, Parsed(rest))
  {
    var t := ['\\', e] + rest;
    assert t[0] == '\\' && t[1] == e && t[2..] == rest && |t| > 2;
    hide Unit;
  }

  lemma PlainReads(c: char, rest: string)
    requires IsPlain(c) && rest != ""
    ensures Parsed([c] + rest) == Before(c, Parsed(rest))
  {
    var t := [c] + rest;
    assert t[0] == c && t[1..] == rest && |t| > 1;
  }

  lemma DumpedIs(c: char)
    ensures var n, d := c as int, DumpedChar(c);
            || (IsPlain(c) && d == [c])
            || (exists e :: IsEscape(e, c) && d == ['\\', e])
            || (n < 0x10000 && (n < 0xD800 || 0xE000 <= n) && d == "\\u" + Hex4(n))
            || (0x10000 <= n < 0x110000
                && d == "\\u" + Hex4(0xD800 + (n - 0x10000) / 0x400 % 0x400)
                        + "\\u" + Hex4(0xDC00 + (n - 0x10000) % 0x400))
  {
    hide Hex4;
    EscapesAre();
  }

  lemma EscapesAre()
    ensures IsEscape('"', '"') && IsEscape('\\', '\\') && IsEscape('n', '\n') && IsEscape('r', '\r')
    ensures IsEscape('t', '\t') && IsEscape('b', '\U{08}') && IsEscape('f', '\U{0C}')
    ensures "\\\"" == ['\\', '"'] && "\\\\" == ['\\', '\\'] && "\\n" == ['\\', 'n'] && "\\r" == ['\\', 'r']
    ensures "\\t" == ['\\', 't'] && "\\b" == ['\\', 'b'] && "\\f" == ['\\', 'f']
  {
  }

  lemma CharReads(c: char, rest: string)
    requires rest != ""
    ensures Parsed(DumpedChar(c) + rest) == Before(c, Parsed(rest))
  {
    var n, d := c as int, DumpedChar(c);
    DumpedIs(c);
    hide DumpedChar, Parsed, Hex4, IsEscape;
    if IsPlain(c) && d == [c] {
      PlainReads(c, rest);
    } else if e :| IsEscape(e, c) && d == ['\\', e] {
      EscapeReads(e, c, rest);
    } else if n < 0x10000 {
      OneUnit(n, rest);
    } else {
      TwoUnits(n, rest);
    }
  }

  lemma {:induction false} CharsRead(text: string)
    ensures Parsed(DumpedChars(text) + "\"") == Some(text)
  {
    if text == "" {
      assert DumpedChars(text) + "\"" == "\"";
    } else {
      var c, more := text[0], text[1..];
      CharsRead(more);
      CharReads(c, DumpedChars(more) + "\"");
      hide DumpedChar, Parsed;
      assert DumpedChars(text) + "\"" == DumpedChar(c) + (DumpedChars(more) + "\"");
      assert text == [c] + more;
    }
  }

  // Every text is read back as it was dumped.
  lemma DumpedReads(text: string)
    ensures Undumped(Dumped(text)) == Some(text)
  {
    var t := Dumped(text);
    assert t[0] == '"' && t[1..] == DumpedChars(text) + "\"";
    CharsRead(text);
  }

  // ----- a line of an entry

  function ColonAt(t: string): (n: nat)
    ensures n <= |t|
    ensures n < |t| ==> t[n] == ':'
    ensures forall i :: 0 <= i < n ==> t[i] != ':'
  {
    if t == "" || t[0] == ':' then 0 else 1 + ColonAt(t[1..])
  }

  // What stands before the first colon and what behind it and a space.
  function KeyOf(line: string): string {
    var t := LTrim(line);
    t[..ColonAt(t)]
  }

  function ValueOf(line: string): string {
    var t := LTrim(line);
    var n := ColonAt(t);
    if n + 2 <= |t| then t[n + 2..] else ""
  }

  function Get(lines: seq<string>, key: string): Option<string> {
    if lines == [] then None
    else if KeyOf(lines[0]) == key then Some(ValueOf(lines[0]))
    else Get(lines[1..], key)
  }

  // A key of an entry: no colon in it and no whitespace before it.
  ghost predicate IsKey(key: string) {
    key != "" && !IsSpace(key[0]) && ':' !in key
  }

  lemma LineReads(w: string, key: string, value: string)
    requires AllSpace(w) && IsKey(key)
    ensures KeyOf(w + (key + ": " + value)) == key && ValueOf(w + (key + ": " + value)) == value
  {
    var t := key + ": " + value;
    assert t[0] == key[0] && t[|key|] == ':' && forall i :: 0 <= i < |key| ==> t[i] == key[i] != ':';
    hide IsSpace;
    LTrimSpaces(w, t);
    hide LTrim;
    assert ColonAt(t) == |key|;
    assert t[..|key|] == key && t[|key| + 2..] == value;
  }

  lemma {:induction false} GetConcat(a: seq<string>, b: seq<string>, key: string)
    ensures Get(a + b, key) == if Get(a, key).Some? then Get(a, key) else Get(b, key)
  {
    hide KeyOf, ValueOf;
    if a == [] {
      assert a + b == b;
    } else {
      assert (a + b)[0] == a[0] && (a + b)[1..] == a[1..] + b;
      GetConcat(a[1..], b, key);
    }
  }

  lemma GetOne(w: string, word: string, value: string, key: string)
    requires AllSpace(w) && IsKey(word)
    ensures Get([w + (word + ": " + value)], key) == if key == word then Some(value) else None
  {
    LineReads(w, word, value);
    hide KeyOf, ValueOf, AllSpace, IsKey;
    var line := w + (word + ": " + value);
    assert [line][1..] == [] && Get([], key) == None;
  }

  // ----- an entry

  function Inner(t: string): string {
    if |t| < 2 then "" else t[1..|t| - 1]
  }

  // `text.split(", ")`, of no text none.
  function Split(t: string): seq<string> {
    if t == "" then []
    else if ", " <= t then [""] + (if |t| == 2 then [""] else Split(t[2..]))
    else
      var rest := Split(t[1..]);
      if rest == [] then [[t[0]]] else [[t[0]] + rest[0]] + rest[1..]
  }

  function UndumpedOption(t: Option<string>): Option<string> {
    if t.None? then None else Undumped(t.value)
  }

  function TextOr(t: Option<string>): string {
    if t.Some? then t.value else ""
  }

  function ReadEntry(lines: seq<string>): Entry {
    Entry(TextOr(Get(lines, "- name")), TextOr(Get(lines, "type")), UndumpedOption(Get(lines, "ch_override")),
          Split(Inner(TextOr(Get(lines, "attribute")))), Get(lines, "use_case"),
          TextOr(UndumpedOption(Get(lines, "expr"))), UndumpedOption(Get(lines, "comment")),
          UndumpedOption(Get(lines, "codec")))
  }

  lemma NameLine(name: string)
    ensures "      - name: " + name == "      " + ("- name" + ": " + name) && AllSpace("      ") && IsKey("- name")
  {
    assert "      - name: " == "      " + ("- name" + ": ");
  }

  const FIELD := "        "

  lemma FieldIsSpace()
    ensures AllSpace(FIELD)
  {
  }

  lemma KeysAreKeys()
    ensures IsKey("type") && IsKey("ch_override") && IsKey("attribute") && IsKey("use_case") && IsKey("expr")
    ensures IsKey("comment") && IsKey("codec") && IsKey("_field_type")
  {
  }

  lemma FieldGet(head: string, word: string, value: string, key: string)
    requires head == FIELD + (word + ": ") && IsKey(word)
    ensures Get([head + value], key) == if key == word then Some(value) else None
  {
    FieldIsSpace();
    hide IsKey, AllSpace, Get;
    assert FIELD + (word + ": ") + value == FIELD + (word + ": " + value);
    GetOne(FIELD, word, value, key);
  }

  lemma OptionGet(head: string, word: string, value: Option<string>, key: string)
    requires head == FIELD + (word + ": ") && IsKey(word)
    ensures Get(OptionLine(head, value), key) == if key == word then value else None
  {
    if value.Some? {
      FieldGet(head, word, value.value, key);
    }
    hide IsKey;
  }

  lemma FirstHeads()
    ensures "        type: " == FIELD + ("type" + ": ") && "        ch_override: " == FIELD + ("ch_override" + ": ")
    ensures "        attribute: " == FIELD + ("attribute" + ": ")
    ensures "        use_case: " == FIELD + ("use_case" + ": ")
  {
  }

  lemma LastHeads()
    ensures "        expr: " == FIELD + ("expr" + ": ") && "        comment: " == FIELD + ("comment" + ": ")
    ensures "        codec: " == FIELD + ("codec" + ": ")
    ensures "        _field_type: base" == FIELD + ("_field_type" + ": ") + "base"
  {
  }

  function AttributeText(e: Entry): Option<string> {
    if e.attribute == [] then None else Some("[" + Listed(e.attribute) + "]")
  }

  lemma AttributeGet(e: Entry, key: string)
    ensures Get(if e.attribute == [] then [] else ["        attribute: [" + Listed(e.attribute) + "]"], key)
         == if key == "attribute" then AttributeText(e) else None
  {
    KeysAreKeys();
    FirstHeads();
    hide Listed, IsKey, FIELD;
    if e.attribute != [] {
      var value := "[" + Listed(e.attribute) + "]";
      assert "        attribute: [" == "        attribute: " + "[";
      assert "        attribute: [" + Listed(e.attribute) + "]" == "        attribute: " + value;
      FieldGet("        attribute: ", "attribute", value, key);
    }
  }

  // The value printed under each key.
  function Printed(e: Entry, key: string): Option<string> {
    if key == "- name" then Some(e.name)
    else if key == "type" then Some(e.type_)
    else if key == "ch_override" then DumpedOption(e.chOverride)
    else if key == "attribute" then AttributeText(e)
    else if key == "use_case" then e.useCase
    else if key == "expr" then Some(Dumped(e.expr))
    else if key == "comment" then DumpedOption(e.comment)
    else if key == "codec" then DumpedOption(e.codec)
    else if key == "_field_type" then Some("base")
    else None
  }

  lemma BaseGet(key: string)
    ensures Get(["        _field_type: base"], key) == if key == "_field_type" then Some("base") else None
  {
    hide *;
    KeysAreKeys();
    LastHeads();
    FieldGet(FIELD + ("_field_type" + ": "), "_field_type", "base", key);
  }

  // The lines behind the name's.
  function Tail(e: Entry): seq<string> {
    EntryLines(e)[1..]
  }

  lemma EntryIsTail(e: Entry)
    ensures EntryLines(e) == ["      - name: " + e.name] + Tail(e)
  {
    hide OptionLine, Dumped, DumpedOption, Listed;
  }

  lemma TailGet(e: Entry, key: string)
    ensures Get(Tail(e), key) == if key == "- name" then None else Printed(e, key)
  {
    var type_, base := ["        type: " + e.type_], ["        _field_type: base"];
    var over := OptionLine("        ch_override: ", DumpedOption(e.chOverride));
    var attribute := if e.attribute == [] then [] else ["        attribute: [" + Listed(e.attribute) + "]"];
    var use, expr := OptionLine("        use_case: ", e.useCase), ["        expr: " + Dumped(e.expr)];
    var comment := OptionLine("        comment: ", DumpedOption(e.comment));
    var codec := OptionLine("        codec: ", DumpedOption(e.codec));
    assert Tail(e) == type_ + over + attribute + use + expr + comment + codec + base by {
      hide OptionLine, Dumped, DumpedOption, Listed;
    }
    PrintedIs(e, key);
    hide *;
    KeysAreKeys();
    FirstHeads();
    LastHeads();
    FieldGet("        type: ", "type", e.type_, key);
    OptionGet("        ch_override: ", "ch_override", DumpedOption(e.chOverride), key);
    AttributeGet(e, key);
    OptionGet("        use_case: ", "use_case", e.useCase, key);
    FieldGet("        expr: ", "expr", Dumped(e.expr), key);
    OptionGet("        comment: ", "comment", DumpedOption(e.comment), key);
    OptionGet("        codec: ", "codec", DumpedOption(e.codec), key);
    BaseGet(key);
    GetConcat(type_, over, key);
    GetConcat(type_ + over, attribute, key);
    GetConcat(type_ + over + attribute, use, key);
    GetConcat(type_ + over + attribute + use, expr, key);
    GetConcat(type_ + over + attribute + use + expr, comment, key);
    GetConcat(type_ + over + attribute + use + expr + comment, codec, key);
    GetConcat(type_ + over + attribute + use + expr + comment + codec, base, key);
  }

  lemma EntryGet(e: Entry, key: string)
    ensures Get(EntryLines(e), key) == Printed(e, key)
  {
    PrintedIs(e, key);
    hide *;
    EntryIsTail(e);
    NameLine(e.name);
    GetOne("      ", "- name", e.name, key);
    GetConcat(["      - name: " + e.name], Tail(e), key);
    TailGet(e, key);
  }

  lemma PrintedIs(e: Entry, key: string)
    ensures Printed(e, key)
         == if key == "- name" then Some(e.name)
            else if key == "type" then Some(e.type_)
            else if key == "ch_override" then DumpedOption(e.chOverride)
            else if key == "attribute" then AttributeText(e)
            else if key == "use_case" then e.useCase
            else if key == "expr" then Some(Dumped(e.expr))
            else if key == "comment" then DumpedOption(e.comment)
            else if key == "codec" then DumpedOption(e.codec)
            else if key == "_field_type" then Some("base")
            else None
  {
  }

  // ----- the attributes

  // What a list of attributes can hold and be told apart: words, and none of them empty.
  ghost predicate IsAttribute(a: string) {
    a != "" && ',' !in a
  }

  lemma {:induction false} SplitFirst(a: string, x: string)
    requires a != "" && ',' !in a && (x == "" || ", " <= x)
    ensures Split(a + x) == if x == "" then [a] else [a] + (if |x| == 2 then [""] else Split(x[2..]))
  {
    var t := a + x;
    assert t[0] == a[0] && t[1..] == a[1..] + x;
    assert !(", " <= t);
    if a[1..] == "" {
      assert t[1..] == x && a == [a[0]];
      if x != "" {
        assert Split(x) == [""] + if |x| == 2 then [""] else Split(x[2..]);
        assert [a[0]] + "" == a;
      }
    } else {
      SplitFirst(a[1..], x);
      assert a == [a[0]] + a[1..];
    }
  }

  lemma {:induction false} ListedSplits(names: seq<string>)
    requires forall a <- names :: IsAttribute(a)
    ensures Split(Listed(names)) == names && (names != [] ==> Listed(names) != "")
  {
    if names != [] {
      var first, more := names[0], names[1..];
      assert first in names;
      ListedSplits(more);
      if more == [] {
        SplitFirst(first, "");
        assert first + "" == first && names == [first];
      } else {
        var x := ", " + Listed(more);
        SplitFirst(first, x);
        assert x[2..] == Listed(more);
        assert first + x == Listed(names) by { assert first + ", " + Listed(more) == first + x; }
        assert names == [first] + more;
      }
    }
  }

  lemma AttributeReads(e: Entry)
    requires forall a <- e.attribute :: IsAttribute(a)
    ensures Split(Inner(TextOr(AttributeText(e)))) == e.attribute
  {
    ListedSplits(e.attribute);
    hide Listed, Split, IsAttribute;
    if e.attribute == [] {
      assert Split("") == [] by { SplitNothing(); }
    } else {
      var t := "[" + Listed(e.attribute) + "]";
      assert t[1..|t| - 1] == Listed(e.attribute);
    }
  }

  lemma SplitNothing()
    ensures Split("") == []
  {
  }

  lemma OptionReads(value: Option<string>)
    ensures UndumpedOption(DumpedOption(value)) == value
  {
    if value.Some? {
      DumpedReads(value.value);
    }
    hide Dumped, Undumped;
  }

  // ----- the columns

  // A printed column is read back field by field, whatever it says.
  lemma EntryReads(e: Entry, more: seq<string>)
    requires (forall a <- e.attribute :: IsAttribute(a)) && forall k :: Get(more, k).Some? ==> k == ""
    ensures ReadEntry(EntryLines(e) + more) == e
  {
    var lines := EntryLines(e) + more;
    forall key | key != "" ensures Get(lines, key) == Printed(e, key) {
      EntryGet(e, key);
      hide *;
      GetConcat(EntryLines(e), more, key);
    }
    OptionReads(e.chOverride);
    AttributeReads(e);
    DumpedReads(e.expr);
    OptionReads(e.comment);
    OptionReads(e.codec);
    hide EntryLines, Get, DumpedOption, UndumpedOption, Split, AttributeText, Dumped, Inner, IsAttribute;
    ReadIs(lines, e);
  }

  lemma ReadIs(lines: seq<string>, e: Entry)
    requires forall key | key != "" :: Get(lines, key) == Printed(e, key)
    requires UndumpedOption(DumpedOption(e.chOverride)) == e.chOverride
    requires Split(Inner(TextOr(AttributeText(e)))) == e.attribute
    requires Undumped(Dumped(e.expr)) == Some(e.expr)
    requires UndumpedOption(DumpedOption(e.comment)) == e.comment
    requires UndumpedOption(DumpedOption(e.codec)) == e.codec
    ensures ReadEntry(lines) == e
  {
    hide Get, DumpedOption, Split, AttributeText, Dumped, Undumped, Inner;
  }

  predicate StartsEntry(line: string) {
    KeyOf(line) == "- name"
  }

  // How many lines come before the next column.
  function EntryTail(lines: seq<string>): (n: nat)
    ensures n <= |lines|
  {
    if lines == [] || StartsEntry(lines[0]) then 0 else 1 + EntryTail(lines[1..])
  }

  function ReadColumns(lines: seq<string>): seq<Entry>
    decreases |lines|
  {
    if lines == [] then []
    else if StartsEntry(lines[0]) then
      var n := 1 + EntryTail(lines[1..]);
      [ReadEntry(lines[..n])] + ReadColumns(lines[n..])
    else ReadColumns(lines[1..])
  }

  lemma {:induction false} TailPasses(a: seq<string>, b: seq<string>)
    requires Get(a, "- name") == None
    ensures EntryTail(a + b) == |a| + EntryTail(b)
  {
    hide KeyOf, ValueOf;
    if a == [] {
      assert a + b == b;
    } else {
      assert (a + b)[0] == a[0] && (a + b)[1..] == a[1..] + b;
      TailPasses(a[1..], b);
    }
  }

  lemma NameStarts(e: Entry)
    ensures EntryLines(e) != [] && StartsEntry(EntryLines(e)[0])
  {
    EntryIsTail(e);
    NameLine(e.name);
    hide EntryLines, KeyOf, ValueOf;
    LineReads("      ", "- name", e.name);
  }

  lemma EmptyLine(key: string)
    ensures Get([""], key).Some? ==> key == ""
    ensures !StartsEntry("")
  {
    assert LTrim("") == "" && KeyOf("") == "";
    assert [""][1..] == [] && Get([], key) == None;
    hide KeyOf, ValueOf;
  }

  lemma LinesOfColumns(columns: seq<Entry>)
    requires columns != []
    ensures ColumnLines(columns, true)
         == EntryLines(columns[0])
            + ((if columns[1..] == [] then [] else [""]) + ColumnLines(columns[1..], true))
    ensures ColumnLines([], true) == []
  {
    var e, rest := columns[0], columns[1..];
    FirstLines(columns, true);
    LinesOrGap(rest);
    hide EntryLines, ColumnLines;
    assert [] + EntryLines(e) == EntryLines(e);
  }

  lemma FirstLines(columns: seq<Entry>, first: bool)
    ensures ColumnLines([], first) == []
    ensures columns != [] ==>
              ColumnLines(columns, first)
              == (if first then [] else [""]) + EntryLines(columns[0]) + ColumnLines(columns[1..], false)
  {
    hide EntryLines;
  }

  lemma LinesOrGap(columns: seq<Entry>)
    ensures ColumnLines(columns, false) == (if columns == [] then [] else [""]) + ColumnLines(columns, true)
  {
    FirstLines(columns, false);
    FirstLines(columns, true);
    hide EntryLines, ColumnLines;
    if columns != [] {
      var x, y := EntryLines(columns[0]), ColumnLines(columns[1..], false);
      assert [] + x + y == x + y && [""] + x + y == [""] + (x + y);
    }
  }

  lemma LinesStart(columns: seq<Entry>)
    ensures ColumnLines(columns, true) != [] ==> StartsEntry(ColumnLines(columns, true)[0])
  {
    if columns != [] {
      NameStarts(columns[0]);
      LinesOfColumns(columns);
    }
    hide EntryLines, StartsEntry;
  }

  // The column lists of a version entry are read back as they were printed.
  lemma {:induction false} ColumnsRead(columns: seq<Entry>)
    requires forall e <- columns :: forall a <- e.attribute :: IsAttribute(a)
    ensures ReadColumns(ColumnLines(columns, true)) == columns
  {
    if columns == [] {
      FirstLines(columns, true);
    } else {
      hide *;
      var e, rest := columns[0], columns[1..];
      assert e in columns;
      ColumnsRead(rest);
      LinesOfColumns(columns);
      LinesStart(rest);
      OneColumnReads(e, if rest == [] then [] else [""], ColumnLines(rest, true), rest);
      assert columns == [e] + rest;
    }
  }

  lemma OneColumnReads(e: Entry, gap: seq<string>, next: seq<string>, rest: seq<Entry>)
    requires (forall a <- e.attribute :: IsAttribute(a)) && (gap == [] || gap == [""])
    requires ReadColumns(next) == rest && (next != [] ==> StartsEntry(next[0]))
    ensures ReadColumns(EntryLines(e) + (gap + next)) == [e] + rest
  {
    hide *;
    var lines, block := EntryLines(e) + (gap + next), EntryLines(e) + gap;
    EntryIsTail(e);
    NameStarts(e);
    TailGet(e, "- name");
    GapGets(gap);
    GetConcat(Tail(e), gap, "- name");
    TailPasses(Tail(e) + gap, next);
    NextStarts(next);
    assert lines[1..] == Tail(e) + gap + next;
    var n := 1 + |Tail(e) + gap|;
    assert lines[..n] == block && lines[n..] == next;
    EntryReads(e, gap);
    ColumnsUnfold(lines, n);
  }

  lemma GapGets(gap: seq<string>)
    requires gap == [] || gap == [""]
    ensures forall k :: Get(gap, k).Some? ==> k == ""
    ensures Get(gap, "- name") == None
  {
    forall k ensures Get(gap, k).Some? ==> k == "" {
      EmptyLine(k);
    }
    hide KeyOf;
  }

  lemma NextStarts(next: seq<string>)
    requires next != [] ==> StartsEntry(next[0])
    ensures EntryTail(next) == 0
  {
  }

  lemma ColumnsUnfold(lines: seq<string>, n: nat)
    requires lines != [] && StartsEntry(lines[0]) && n == 1 + EntryTail(lines[1..])
    ensures n <= |lines| && ReadColumns(lines) == [ReadEntry(lines[..n])] + ReadColumns(lines[n..])
  {
    ColumnsStep(lines);
    hide ReadColumns, StartsEntry, ReadEntry, EntryTail;
  }

  lemma ColumnsStep(lines: seq<string>)
    requires lines != [] && StartsEntry(lines[0])
    ensures var n := 1 + EntryTail(lines[1..]);
            n <= |lines| && ReadColumns(lines) == [ReadEntry(lines[..n])] + ReadColumns(lines[n..])
  {
    hide StartsEntry, EntryTail, KeyOf, Get, TextOr, UndumpedOption, Split, Inner, ReadEntry;
  }

  // ----- what a job does

  // ----- the whole file

  // No line before the columns is taken for one.
  lemma {:induction false} ColumnsBehind(head: seq<string>, lines: seq<string>)
    requires Get(head, "- name") == None
    ensures ReadColumns(head + lines) == ReadColumns(lines)
  {
    if head == [] {
      assert head + lines == lines;
    } else {
      var all := head + lines;
      assert all[0] == head[0] && all[1..] == head[1..] + lines;
      hide KeyOf, ValueOf, ReadEntry, EntryTail;
      ColumnsBehind(head[1..], lines);
    }
  }

  // A comment line has no key that does not begin with its hash.
  lemma HashLine(text: string, key: string)
    requires key != "" && key[0] != '#'
    ensures Get(["#" + text], key) == None
  {
    var l := "#" + text;
    assert l[0] == '#' && LTrim(l) == l;
    assert ColonAt(l) > 0;
    assert [l][1..] == [] && Get([], key) == None;
  }

  lemma FixedHashes()
    ensures UnionLine() != "" && UnionLine()[0] == '#' && SourceLine() != "" && SourceLine()[0] == '#'
    ensures ChangeLine() != "" && ChangeLine()[0] == '#'
  {
  }

  lemma HashFirst(head: string, tail: string)
    requires head != "" && head[0] == '#'
    ensures head + tail != "" && (head + tail)[0] == '#'
  {
  }

  // The lines of the opening comment.
  function CommentLines(s: Schema, p: Prose): seq<string> {
    ["# Meta schema: " + p.providerName + " " + s.store, "#", "# " + p.describe, "#", UnionLine(),
     "# the values observed; the record sits " + Where(p.recordPath) + ", which is where every", SourceLine(),
     ChangeLine()]
  }

  lemma HeadIsComment(s: Schema, p: Prose)
    ensures HeadLines(s, p, "")[..8] == CommentLines(s, p)
  {
    hide UnionLine, SourceLine, ChangeLine, Where, Dumped;
  }

  lemma HeadHashes(s: Schema, p: Prose, key: string)
    requires key != "" && key[0] != '#'
    ensures Get(HeadLines(s, p, "")[..8], key) == None
  {
    HeadIsComment(s, p);
    FixedHashes();
    HashFirst("# Meta schema: ", p.providerName + " " + s.store);
    assert "# Meta schema: " + p.providerName + " " + s.store == "# Meta schema: " + (p.providerName + " " + s.store);
    HashFirst("# ", p.describe);
    var sits := "# the values observed; the record sits ";
    HashFirst(sits, Where(p.recordPath));
    HashFirst(sits + Where(p.recordPath), ", which is where every");
    hide Get, UnionLine, SourceLine, ChangeLine, Where, HeadLines;
    AllHashes(CommentLines(s, p), key);
  }

  lemma {:induction false} AllHashes(lines: seq<string>, key: string)
    requires key != "" && key[0] != '#' && forall i :: 0 <= i < |lines| ==> lines[i] != "" && lines[i][0] == '#'
    ensures Get(lines, key) == None
  {
    if lines != [] {
      AllHashes(lines[1..], key);
      var l := lines[0];
      assert l == "#" + l[1..];
      hide KeyOf, ValueOf;
      HashLine(l[1..], key);
      assert [l][0] == l;
    }
  }

  lemma BareKey(w: string, word: string, key: string)
    requires AllSpace(w) && IsKey(word)
    ensures Get([w + (word + ":")], key) == if key == word then Some("") else None
  {
    var t := word + ":";
    assert t[0] == word[0] && t[|word|] == ':' && forall i :: 0 <= i < |word| ==> t[i] == word[i] != ':';
    hide IsSpace;
    LTrimSpaces(w, t);
    hide LTrim;
    assert ColonAt(t) == |word| && t[..|word|] == word;
    var line := w + t;
    assert KeyOf(line) == word && ValueOf(line) == "";
    hide KeyOf, ValueOf, ColonAt;
    assert [line][1..] == [] && Get([], key) == None;
  }

  lemma VersionGet(version: string, key: string)
    requires key != "" && key[0] != '"'
    ensures Get([VersionText(version)], key) == None
  {
    var l := VersionText(version);
    var t := Dumped(version) + ":";
    assert l == "  " + t && t[0] == '"' && !IsSpace('"');
    assert AllSpace("  ");
    LTrimSpaces("  ", t);
    hide LTrim, VersionText, Dumped;
    assert ColonAt(t) > 0;
    assert KeyOf(l)[0] == '"';
    hide KeyOf;
    assert [l][1..] == [] && Get([], key) == None;
  }

  // The lines between the comment and the columns, and what they say under each key.
  function Middle(s: Schema, p: Prose, version: string, date: string): seq<string> {
    ["", "current: " + Dumped(version), "resource_type: core", "", "versions:", VersionText(version), DateText(date),
     "    type: model", "    summary: " + Summary(s, p), "    columns:"]
  }

  function Summary(s: Schema, p: Prose): string {
    Dumped("Initial " + p.providerName + " " + s.store + " schema, from a live export")
  }

  lemma LinesAre(s: Schema, p: Prose, version: string, date: string)
    ensures Lines(s, p, version, date)
         == HeadLines(s, p, "")[..8] + Middle(s, p, version, date) + ColumnLines(s.columns, true)
  {
    hide UnionLine, SourceLine, ChangeLine, Where, Dumped, VersionText, DateText, ColumnLines;
    var columns := ColumnLines(s.columns, true);
    var head := HeadLines(s, p, version);
    assert head == HeadLines(s, p, "")[..8] + head[8..];
    assert head[8..] + ([VersionText(version), DateText(date)] + FootLines(s, p))
        == Middle(s, p, version, date) + columns;
  }

  lemma HeaderKeys()
    ensures IsKey("current") && IsKey("resource_type") && IsKey("versions") && IsKey("date") && IsKey("type")
    ensures IsKey("summary") && IsKey("columns") && AllSpace("    ") && AllSpace("")
  {
  }

  lemma HeaderHeads(a: string)
    ensures "current: " + a == "" + ("current" + ": " + a)
        && "resource_type: core" == "" + ("resource_type" + ": " + "core")
    ensures "versions:" == "" + ("versions" + ":") && "    type: model" == "    " + ("type" + ": " + "model")
    ensures "    summary: " + a == "    " + ("summary" + ": " + a) && "    columns:" == "    " + ("columns" + ":")
  {
  }

  lemma DateHead(date: string)
    ensures DateText(date) == "    " + ("date" + ": " + Dumped(date))
  {
    hide Dumped;
  }

  lemma FiveLines(a: string, b: string, c: string, d: string, e: string)
    ensures [a, b, c, d, e] == [a] + [b] + [c] + [d] + [e]
  {
  }

  lemma CurrentGet(version: string, key: string)
    requires key != ""
    ensures Get(["", "current: " + Dumped(version), "resource_type: core", "", "versions:"], key)
         == if key == "current" then Some(Dumped(version))
            else if key == "resource_type" then Some("core")
            else if key == "versions" then Some("")
            else None
  {
    var a, b, c, d, e := [""], ["current: " + Dumped(version)], ["resource_type: core"], [""], ["versions:"];
    hide *;
    FiveLines("", "current: " + Dumped(version), "resource_type: core", "", "versions:");
    HeaderKeys();
    HeaderHeads(Dumped(version));
    EmptyLine(key);
    GetOne("", "current", Dumped(version), key);
    GetOne("", "resource_type", "core", key);
    BareKey("", "versions", key);
    GetConcat(a, b, key);
    GetConcat(a + b, c, key);
    GetConcat(a + b + c, d, key);
    GetConcat(a + b + c + d, e, key);
  }

  lemma VersionEntryGet(version: string, date: string, summary: string, key: string)
    requires key != "" && key[0] != '"'
    ensures Get([VersionText(version), DateText(date), "    type: model", "    summary: " + summary, "    columns:"],
        key)
         == if key == "date" then Some(Dumped(date))
            else if key == "type" then Some("model")
            else if key == "summary" then Some(summary)
            else if key == "columns" then Some("")
            else None
  {
    var f, g, h, i, j :=
      [VersionText(version)], [DateText(date)], ["    type: model"], ["    summary: " + summary], ["    columns:"];
    hide *;
    FiveLines(VersionText(version), DateText(date), "    type: model", "    summary: " + summary, "    columns:");
    HeaderKeys();
    HeaderHeads(summary);
    DateHead(date);
    VersionGet(version, key);
    GetOne("    ", "date", Dumped(date), key);
    GetOne("    ", "type", "model", key);
    GetOne("    ", "summary", summary, key);
    BareKey("    ", "columns", key);
    GetConcat(f, g, key);
    GetConcat(f + g, h, key);
    GetConcat(f + g + h, i, key);
    GetConcat(f + g + h + i, j, key);
  }

  lemma MiddleGet(s: Schema, p: Prose, version: string, date: string, key: string)
    requires key != "" && key[0] != '"'
    ensures Get(Middle(s, p, version, date), key)
         == if key == "current" then Some(Dumped(version))
            else if key == "resource_type" then Some("core")
            else if key == "versions" then Some("")
            else if key == "date" then Some(Dumped(date))
            else if key == "type" then Some("model")
            else if key == "summary" then Some(Summary(s, p))
            else if key == "columns" then Some("")
            else None
  {
    var a := ["", "current: " + Dumped(version), "resource_type: core", "", "versions:"];
    var b :=
      [VersionText(version), DateText(date), "    type: model", "    summary: " + Summary(s, p), "    columns:"];
    assert Middle(s, p, version, date) == a + b by {
      hide Dumped, VersionText, DateText, Summary;
    }
    hide *;
    CurrentGet(version, key);
    VersionEntryGet(version, date, Summary(s, p), key);
    GetConcat(a, b, key);
  }

  lemma FrontGet(s: Schema, p: Prose, version: string, date: string, key: string)
    requires key != "" && key[0] != '"' && key[0] != '#'
    ensures Get(HeadLines(s, p, "")[..8] + Middle(s, p, version, date), key) == Get(Middle(s, p, version, date), key)
  {
    assert |HeadLines(s, p, "")| >= 8;
    hide *;
    HeadHashes(s, p, key);
    GetConcat(HeadLines(s, p, "")[..8], Middle(s, p, version, date), key);
  }

  // A generated file is read back whole: its version, its resource type, the date, the type and the summary of the
  // version, and its columns, field by field.
  lemma FileReads(s: Schema, p: Prose, version: string, date: string)
    requires forall e <- s.columns :: forall a <- e.attribute :: IsAttribute(a)
    ensures var lines := Lines(s, p, version, date);
            && UndumpedOption(Get(lines, "current")) == Some(version)
            && Get(lines, "resource_type") == Some("core")
            && UndumpedOption(Get(lines, "date")) == Some(date)
            && Get(lines, "type") == Some("model")
            && UndumpedOption(Get(lines, "summary"))
                 == Some("Initial " + p.providerName + " " + s.store + " schema, from a live export")
            && ReadColumns(lines) == s.columns
  {
    var lines, columns := Lines(s, p, version, date), ColumnLines(s.columns, true);
    var front := HeadLines(s, p, "")[..8] + Middle(s, p, version, date);
    var summary := "Initial " + p.providerName + " " + s.store + " schema, from a live export";
    assert Summary(s, p) == Dumped(summary) by { hide Dumped; }
    hide *;
    LinesAre(s, p, version, date);
    FrontGets(s, p, version, date, columns, "current");
    FrontGets(s, p, version, date, columns, "resource_type");
    FrontGets(s, p, version, date, columns, "date");
    FrontGets(s, p, version, date, columns, "type");
    FrontGets(s, p, version, date, columns, "summary");
    DumpedIsRead(version);
    DumpedIsRead(date);
    DumpedIsRead(summary);
    FrontGet(s, p, version, date, "- name");
    MiddleGet(s, p, version, date, "- name");
    ColumnsBehind(front, columns);
    ColumnsRead(s.columns);
  }

  lemma DumpedIsRead(text: string)
    ensures UndumpedOption(Some(Dumped(text))) == Some(text)
  {
    DumpedReads(text);
    hide Dumped, Undumped;
  }

  // A key of the header is found there, whatever the columns say.
  lemma FrontGets(s: Schema, p: Prose, version: string, date: string, columns: seq<string>, key: string)
    requires key in {"current", "resource_type", "date", "type", "summary"}
    ensures Get(HeadLines(s, p, "")[..8] + Middle(s, p, version, date) + columns, key)
         == if key == "current" then Some(Dumped(version))
            else if key == "resource_type" then Some("core")
            else if key == "date" then Some(Dumped(date))
            else if key == "type" then Some("model")
            else Some(Summary(s, p))
  {
    assert |HeadLines(s, p, "")| >= 8;
    assert key != "" && key[0] != '"' && key[0] != '#';
    hide *;
    FrontGet(s, p, version, date, key);
    MiddleGet(s, p, version, date, key);
    GetConcat(HeadLines(s, p, "")[..8] + Middle(s, p, version, date), columns, key);
  }
}

/** The literals and quoted names the renderer writes, and how every scanner reads them back. */
module Literals {
  import opened Text
  import opened Scan
  import opened Lexer
  import opened Wrappers


  // The literal for a text: backslashes doubled, then quotes escaped.
  function StringLiteral(text: string): string {
    "'" + Replace(Replace(text, "\\", "\\\\"), "'", "\\'") + "'"
  }

  // `[`;()'"\\]|\s`
  predicate IsUnsafe(c: char) {
    c == '`' || c == ';' || c == '(' || c == ')' || c == '\'' || c == '"' || c == '\\' || IsSpace(c)
  }

  function QuoteIdent(name: string): Option<string> {
    if name == "" || exists i :: 0 <= i < |name| && IsUnsafe(name[i]) then None else Some("`" + name + "`")
  }

  // ----- escaping, one character at a time

  function EscapedChar(c: char): string {
    if c == '\\' then "\\\\" else if c == '\'' then "\\'" else [c]
  }

  function Escaped(text: string): string {
    if text == "" then "" else EscapedChar(text[0]) + Escaped(text[1..])
  }

  lemma ReplaceStep(h: char, rest: string, c: char, v: string)
    ensures Replace([h] + rest, [c], v) == (if h == c then v else [h]) + Replace(rest, [c], v)
  {
    var t := [h] + rest;
    assert t[1..] == rest && t[..1] == [h];
    assert [c] <= t <==> h == c by {
      assert [c] <= t ==> t[0] == [c][0];
    }
  }

  lemma {:induction false} ReplaceConcat(a: string, b: string, c: char, v: string)
    ensures Replace(a + b, [c], v) == Replace(a, [c], v) + Replace(b, [c], v)
  {
    hide Replace;
    if a == "" {
      ReplaceNothing(c, v);
      assert a + b == b;
    } else {
      ReplaceConcat(a[1..], b, c, v);
      ReplaceStep(a[0], a[1..], c, v);
      ReplaceStep(a[0], a[1..] + b, c, v);
      Assoc([a[0]], a[1..], b);
      assert [a[0]] + a[1..] == a;
      Assoc(if a[0] == c then v else [a[0]], Replace(a[1..], [c], v), Replace(b, [c], v));
    }
  }

  lemma ReplaceNothing(c: char, v: string)
    ensures Replace("", [c], v) == ""
  {
  }

  lemma ReplaceOne(c: char, target: char, v: string)
    ensures Replace([c], [target], v) == if c == target then v else [c]
  {
    ReplaceStep(c, "", target, v);
    assert [c] + "" == [c];
    assert Replace("", [target], v) == "";
  }

  lemma EscapedOne(c: char)
    ensures Replace(Replace([c], "\\", "\\\\"), "'", "\\'") == EscapedChar(c)
  {
    ReplaceOne(c, '\\', "\\\\");
    if c == '\\' {
      assert "\\\\" == "\\" + "\\";
      ReplaceConcat("\\", "\\", '\'', "\\'");
      ReplaceOne('\\', '\'', "\\'");
    } else {
      ReplaceOne(c, '\'', "\\'");
    }
  }

  // The two passes together escape each character by itself.
  lemma {:induction false} TwoPasses(text: string)
    ensures Replace(Replace(text, "\\", "\\\\"), "'", "\\'") == Escaped(text)
  {
    if text != "" {
      var c, rest := text[0], text[1..];
      assert text == [c] + rest;
      TwoPasses(rest);
      EscapedOne(c);
      ReplaceConcat([c], rest, '\\', "\\\\");
      ReplaceConcat(Replace([c], "\\", "\\\\"), Replace(rest, "\\", "\\\\"), '\'', "\\'");
    }
  }

  lemma LiteralIs(text: string)
    ensures StringLiteral(text) == "'" + Escaped(text) + "'"
  {
    TwoPasses(text);
  }

  // ----- reading a literal, C style

  function Unescape(c: char): char {
    match c
    case 'a' => '\U{07}'
    case 'b' => '\U{08}'
    case 'f' => '\U{0C}'
    case 'n' => '\n'
    case 'r' => '\r'
    case 't' => '\t'
    case 'v' => '\U{0B}'
    case '0' => '\0'
    case _ => c
  }

  // The text of a literal whose opening quote has been read, and what follows the closing one. A doubled
  // quote is a quote.
  function ReadBody(s: string): Option<(string, string)> {
    if s == "" then None
    else if s[0] == '\\' then
      if |s| == 1 then None
      else match ReadBody(s[2..])
        case None => None
        case Some((text, rest)) => Some(([Unescape(s[1])] + text, rest))
    else if s[0] == '\'' then
      if |s| > 1 && s[1] == '\'' then
        match ReadBody(s[2..])
        case None => None
        case Some((text, rest)) => Some(("'" + text, rest))
      else Some(("", s[1..]))
    else match ReadBody(s[1..])
      case None => None
      case Some((text, rest)) => Some(([s[0]] + text, rest))
  }

  function ReadLiteral(t: string): Option<(string, string)> {
    if t == "" || t[0] != '\'' then None else ReadBody(t[1..])
  }

  ghost predicate NoQuoteNext(rest: string) {
    rest == "" || rest[0] != '\''
  }

  lemma EscapeReads(s: string)
    requires |s| > 1 && s[0] == '\\' && ReadBody(s[2..]).Some? && Unescape(s[1]) == s[1]
    ensures ReadBody(s) == Some(([s[1]] + ReadBody(s[2..]).value.0, ReadBody(s[2..]).value.1))
  {
  }

  lemma PlainReads(s: string)
    requires s != "" && s[0] != '\\' && s[0] != '\'' && ReadBody(s[1..]).Some?
    ensures ReadBody(s) == Some(([s[0]] + ReadBody(s[1..]).value.0, ReadBody(s[1..]).value.1))
  {
  }

  lemma CharReads(c: char, tail: string)
    requires ReadBody(tail).Some?
    ensures ReadBody(EscapedChar(c) + tail) == Some(([c] + ReadBody(tail).value.0, ReadBody(tail).value.1))
  {
    hide ReadBody;
    var s := EscapedChar(c) + tail;
    assert s[|EscapedChar(c)|..] == tail;
    if c == '\\' || c == '\'' {
      EscapeReads(s);
    } else {
      PlainReads(s);
    }
  }

  lemma {:induction false} BodyReads(text: string, rest: string)
    requires NoQuoteNext(rest)
    ensures ReadBody(Escaped(text) + ("'" + rest)) == Some((text, rest))
  {
    var q := "'" + rest;
    if text == "" {
      assert "" + q == q && q[1..] == rest;
    } else {
      hide ReadBody, EscapedChar;
      BodyReads(text[1..], rest);
      CharReads(text[0], Escaped(text[1..]) + q);
      Assoc(EscapedChar(text[0]), Escaped(text[1..]), q);
      assert text == [text[0]] + text[1..];
    }
  }

  // A reader of C-style literals gets back the text, and stops where the literal does.
  lemma LiteralReads(text: string, rest: string)
    requires NoQuoteNext(rest)
    ensures ReadLiteral(StringLiteral(text) + rest) == Some((text, rest))
  {
    LiteralIs(text);
    hide StringLiteral, ReadBody;
    BodyReads(text, rest);
    var t := StringLiteral(text) + rest;
    assert t == "'" + (Escaped(text) + ("'" + rest));
    assert t[1..] == Escaped(text) + ("'" + rest);
  }

  // ----- the gate's scanner: `'(?:[^'\\]|\\.)*'`, where the dot takes no newline

  // The body and the closing quote, or 0.
  function BodyLen(s: string): (n: nat)
    ensures n <= |s|
  {
    if s == "" then 0
    else if s[0] == '\'' then 1
    else if s[0] == '\\' then
      if |s| == 1 || s[1] == '\n' then 0
      else
        var n := BodyLen(s[2..]);
        if n == 0 then 0 else 2 + n
    else
      var n := BodyLen(s[1..]);
      if n == 0 then 0 else 1 + n
  }

  function QuotedLen(t: string): (n: nat)
    ensures n <= |t|
  {
    if t == "" || t[0] != '\'' then 0
    else
      var n := BodyLen(t[1..]);
      if n == 0 then 0 else 1 + n
  }

  // A body that its own closing quote ends, and nothing before it.
  predicate IsBody(body: string) {
    BodyLen(body + "'") == |body| + 1
  }

  lemma {:induction false} BodyStays(body: string, x: string, y: string)
    requires BodyLen(body + x) == |body| + 1 && x != "" && y != "" && x[0] == y[0] == '\''
    ensures BodyLen(body + y) == |body| + 1
  {
    if body == "" {
      assert body + x == x && body + y == y;
    } else {
      var k := if body[0] == '\\' then 2 else 1;
      var t := body + x;
      assert t[0] == body[0];
      if k <= |body| {
        assert t[k..] == body[k..] + x;
        assert (body + y)[k..] == body[k..] + y;
        assert k == 2 ==> t[1] == body[1] == (body + y)[1];
        BodyStays(body[k..], x, y);
      }
    }
  }

  // A literal is one match, up to its own closing quote, whatever follows.
  lemma QuotedBody(body: string, rest: string)
    requires IsBody(body)
    ensures QuotedLen("'" + body + "'" + rest) == |body| + 2
  {
    BodyStays(body, "'", "'" + rest);
    var t := "'" + body + "'" + rest;
    assert t[1..] == body + ("'" + rest);
  }

  lemma {:induction false} EscapedIsBody(text: string)
    ensures IsBody(Escaped(text))
  {
    if text == "" {
      assert Escaped(text) + "'" == "'";
    } else {
      EscapedIsBody(text[1..]);
      var c, tail := text[0], Escaped(text[1..]) + "'";
      var s := Escaped(text) + "'";
      assert s == EscapedChar(c) + tail && s[|EscapedChar(c)|..] == tail;
    }
  }

  // A quote stands right behind the literal, and closes again further on.
  predicate Reopens(rest: string) {
    rest != "" && rest[0] == '\'' && Closes(rest[1..], '\'')
  }

  // Both scanners take the whole literal as one span: the gate's always, and the checksum's exactly when
  // no quote that closes again stands right behind it.
  lemma LiteralIsOneSpan(text: string, rest: string)
    ensures QuotedLen(StringLiteral(text) + rest) == |StringLiteral(text)|
    ensures SpanLen(StringLiteral(text) + rest) == |StringLiteral(text)| <==> !Reopens(rest)
  {
    LiteralIs(text);
    hide StringLiteral, QuotedLen;
    EscapedIsBody(text);
    QuotedBody(Escaped(text), rest);
    EscapedCloses(text, rest);
    hide Escaped, QuoteLen, Closes, Reopens;
    var t := StringLiteral(text) + rest;
    assert t[1..] == Escaped(text) + ("'" + rest) && t[0] == '\'';
  }

  lemma ClosesStep(c: char, tail: string)
    requires Closes(tail, '\'')
    ensures Closes(EscapedChar(c) + tail, '\'')
    ensures QuoteLen(EscapedChar(c) + tail, '\'') == |EscapedChar(c)| + QuoteLen(tail, '\'')
  {
    var s := EscapedChar(c) + tail;
    assert s[|EscapedChar(c)|..] == tail;
    assert s[0] == EscapedChar(c)[0];
  }

  lemma BareQuote(rest: string)
    ensures Closes("'" + rest, '\'') && (QuoteLen("'" + rest, '\'') == 1 <==> !Reopens(rest))
  {
    var s := "'" + rest;
    assert s[1..] == rest;
    assert rest != "" ==> s[2..] == rest[1..];
  }

  lemma {:induction false} EscapedCloses(text: string, rest: string)
    ensures var s := Escaped(text) + ("'" + rest);
            Closes(s, '\'') && (QuoteLen(s, '\'') == |Escaped(text)| + 1 <==> !Reopens(rest))
  {
    hide Closes, QuoteLen, EscapedChar, Reopens;
    var q := "'" + rest;
    if text == "" {
      BareQuote(rest);
      assert "" + q == q;
    } else {
      var c, tail := text[0], Escaped(text[1..]) + q;
      EscapedCloses(text[1..], rest);
      ClosesStep(c, tail);
      Assoc(EscapedChar(c), Escaped(text[1..]), q);
    }
  }

  // A name that is accepted is one span too, and it holds nothing either scanner stops at.
  lemma {:induction false} NameCloses(name: string, rest: string)
    requires forall i :: 0 <= i < |name| ==> !IsUnsafe(name[i])
    requires rest == "" || rest[0] != '`'
    ensures Closes(name + "`" + rest, '`') && QuoteLen(name + "`" + rest, '`') == |name| + 1
  {
    hide IsSpace;
    var s := name + "`" + rest;
    if name == "" {
      assert s == "`" + rest && s[1..] == rest;
    } else {
      NameCloses(name[1..], rest);
      assert s[0] == name[0] && s[1..] == name[1..] + "`" + rest;
    }
  }

  lemma QuotedNameIsOneSpan(name: string, rest: string)
    requires QuoteIdent(name).Some? && (rest == "" || rest[0] != '`')
    ensures SpanLen(QuoteIdent(name).value + rest) == |name| + 2
    ensures forall c <- QuoteIdent(name).value :: c != '\'' && !IsSpace(c)
  {
    NameCloses(name, rest);
    assert forall c <- name :: !IsUnsafe(c);
    hide IsSpace, Closes, QuoteLen;
    var t := "`" + name + "`" + rest;
    assert t[0] == '`' && t[1..] == name + "`" + rest;
    assert !IsSpace('`') by { assert '`' != ' '; TickIsNoSpace(); }
  }

  lemma TickIsNoSpace()
    ensures !IsSpace('`')
  {
  }
}

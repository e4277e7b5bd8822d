/** Statements without comment lines, and what the gate keeps of a literal with line breaks in it. */
module Comments {
  import opened Text
  import opened Scan
  import opened Words
  import opened Literals
  import opened Gate
  import opened Atoms

  // ----- lines

  // The lines of a text, with what stands behind the last line break, be it nothing.
  function Lines(t: string): (r: seq<string>)
    ensures r != []
    decreases |t|
  {
    if t == "" then [""]
    else
      var n := BreakLen(t);
      if n > 0 then [""] + Lines(t[n..])
      else
        var rest := Lines(t[1..]);
        [[t[0]] + rest[0]] + rest[1..]
  }

  function LastLine(t: string): string {
    var lines := Lines(t);
    lines[|lines| - 1]
  }

  // The lines of two texts in a row: the last line goes on in the first.
  function Glued(a: seq<string>, b: seq<string>): (r: seq<string>)
    requires a != [] && b != []
    ensures r != []
  {
    a[..|a| - 1] + [a[|a| - 1] + b[0]] + b[1..]
  }

  ghost predicate Parts(a: string, b: string) {
    a == "" || b == "" || a[|a| - 1] != '\r' || b[0] != '\n'
  }

  lemma PartsRest(a: string, b: string)
    requires a != "" && Parts(a, b)
    ensures var n := BreakLen(a);
            BreakLen(a + b) == n && (a + b)[0] == a[0] && Parts(a[if n > 0 then n else 1..], b)
  {
    var n := BreakLen(a);
    var k := if n > 0 then n else 1;
    assert |a| > 1 ==> (a + b)[1] == a[1];
    assert a[k..] != "" ==> a[k..][|a[k..]| - 1] == a[|a| - 1];
  }

  lemma {:induction false} LinesConcat(a: string, b: string)
    requires Parts(a, b)
    ensures Lines(a + b) == Glued(Lines(a), Lines(b))
    decreases |a|
  {
    hide BreakLen, Parts;
    if a == "" {
      assert a + b == b && [""][..0] == [] && "" + Lines(b)[0] == Lines(b)[0];
    } else {
      PartsRest(a, b);
      var n := BreakLen(a);
      var k := if n > 0 then n else 1;
      DropConcat(a, b, k);
      LinesConcat(a[k..], b);
      LinesOf(a);
      LinesOf(a + b);
      hide Lines;
      GluedFirst([a[0]], Lines(a[k..]), Lines(b));
    }
  }

  lemma LinesOf(t: string)
    requires t != ""
    ensures var n := BreakLen(t);
            Lines(t) == if n > 0 then [""] + Lines(t[n..]) else [[t[0]] + Lines(t[1..])[0]] + Lines(t[1..])[1..]
  {
    hide BreakLen;
  }

  lemma GluedFirst(p: string, a: seq<string>, b: seq<string>)
    requires a != [] && b != []
    ensures var g := Glued(a, b); [p + g[0]] + g[1..] == Glued([p + a[0]] + a[1..], b)
    ensures [""] + Glued(a, b) == Glued([""] + a, b)
  {
    if |a| == 1 {
      assert p + (a[0] + b[0]) == p + a[0] + b[0];
    }
  }

  // Where a text ends in the middle of a line, these are the lines `str.splitlines` gives.
  lemma {:induction false} SplitIsLines(t: string)
    requires t != "" && !IsBreak(t[|t| - 1])
    ensures SplitLines(t) == Lines(t)
    decreases |t|
  {
    var n := BreakLen(t);
    var k := if n > 0 then n else 1;
    assert n > 0 ==> IsBreak(t[n - 1]);
    if k < |t| {
      assert t[k..][|t[k..]| - 1] == t[|t| - 1];
      SplitIsLines(t[k..]);
    } else {
      assert t[1..] == "" && [t[0]] + "" == [t[0]];
    }
  }

  lemma {:induction false} OneLineOnly(t: string)
    requires !HasBreak(t)
    ensures Lines(t) == [t]
  {
    if t != "" {
      assert !HasBreak(t[1..]) by {
        forall i | 0 <= i < |t[1..]| ensures !IsBreak(t[1..][i]) {
          assert t[1..][i] == t[i + 1];
        }
      }
      OneLineOnly(t[1..]);
      assert t == [t[0]] + t[1..];
    }
  }

  // ----- keeping and dropping

  // The lines that are kept. The first goes on from somewhere else, so it is kept whatever it says.
  function RestKept(lines: seq<string>): (r: seq<string>)
    requires lines != []
    ensures r != [] && r[0] == lines[0]
  {
    [lines[0]] + WithoutComments(lines[1..])
  }

  // What is kept of a text in the middle of a line.
  function Kept(t: string): string {
    JoinLines(RestKept(Lines(t)))
  }

  lemma {:induction false} WithoutConcat(a: seq<string>, b: seq<string>)
    ensures WithoutComments(a + b) == WithoutComments(a) + WithoutComments(b)
  {
    hide IsCommentLine;
    if a == [] {
      assert a + b == b;
    } else {
      assert (a + b)[1..] == a[1..] + b;
      WithoutConcat(a[1..], b);
    }
  }

  lemma WithoutOne(l: string, more: seq<string>)
    ensures WithoutComments([l] + more) == (if IsCommentLine(l) then [] else [l]) + WithoutComments(more)
  {
    hide IsCommentLine;
    assert ([l] + more)[1..] == more;
  }

  lemma {:induction false} JoinGlued(a: seq<string>, l: string, m: string, b: seq<string>)
    ensures JoinLines(a + [l + m] + b) == JoinLines(a + [l]) + JoinLines([m] + b)
  {
    var all := a + [l + m] + b;
    if a == [] {
      assert all == [l + m] + b && all[1..] == b && [l][1..] == [] && a + [l] == [l];
      assert ([m] + b)[1..] == b;
      assert b != [] ==> l + m + "\n" + JoinLines(b) == l + (m + "\n" + JoinLines(b));
    } else {
      assert all[1..] == a[1..] + [l + m] + b && all[0] == a[0] == (a + [l])[0];
      assert (a + [l])[1..] == a[1..] + [l];
      JoinGlued(a[1..], l, m, b);
      var x, y := JoinLines(a[1..] + [l]), JoinLines([m] + b);
      assert a[0] + "\n" + (x + y) == a[0] + "\n" + x + y;
    }
  }

  // Where the line that goes on is no comment, neither by itself nor with what goes on, a text in two
  // parts is kept in two parts.
  lemma KeptConcat(a: string, b: string)
    requires Parts(a, b)
    requires |Lines(a)| == 1 || (!IsCommentLine(LastLine(a)) && !IsCommentLine(LastLine(a) + Lines(b)[0]))
    ensures Kept(a + b) == Kept(a) + Kept(b)
  {
    hide *;
    LinesConcat(a, b);
    LastIs(a);
    KeptIs(a);
    KeptIs(b);
    KeptIs(a + b);
    if |Lines(a)| == 1 {
      KeptOne(Lines(a), Lines(b));
    } else {
      KeptMany(Lines(a), Lines(b));
    }
  }

  lemma LastIs(t: string)
    ensures LastLine(t) == Lines(t)[|Lines(t)| - 1]
  {
  }

  lemma KeptIs(t: string)
    ensures Kept(t) == JoinLines(RestKept(Lines(t)))
  {
  }

  lemma KeptOne(a: seq<string>, b: seq<string>)
    requires |a| == 1 && b != []
    ensures JoinLines(RestKept(Glued(a, b))) == JoinLines(RestKept(a)) + JoinLines(RestKept(b))
  {
    hide WithoutComments, JoinLines;
    var l, g, tail := a[0], Glued(a, b), WithoutComments(b[1..]);
    assert a == [l] && a[1..] == [] && g[1..] == b[1..] && g[0] == l + b[0];
    WithoutNone();
    hide Glued;
    JoinGlued([], l, b[0], tail);
    assert [] + [l + b[0]] + tail == RestKept(g);
    assert [] + [l] == RestKept(a);
    assert [b[0]] + tail == RestKept(b);
  }

  lemma KeptMany(a: seq<string>, b: seq<string>)
    requires |a| > 1 && b != [] && !IsCommentLine(a[|a| - 1]) && !IsCommentLine(a[|a| - 1] + b[0])
    ensures JoinLines(RestKept(Glued(a, b))) == JoinLines(RestKept(a)) + JoinLines(RestKept(b))
  {
    hide IsCommentLine, WithoutComments, JoinLines;
    var k := |a| - 1;
    var l, g, mid, tail := a[k], Glued(a, b), WithoutComments(a[1..k]), WithoutComments(b[1..]);
    assert a[1..] == a[1..k] + ([l] + []) && g[1..] == a[1..k] + ([l + b[0]] + b[1..]) && g[0] == a[0];
    WithoutConcat(a[1..k], [l] + []);
    WithoutConcat(a[1..k], [l + b[0]] + b[1..]);
    WithoutOne(l, []);
    WithoutOne(l + b[0], b[1..]);
    WithoutNone();
    hide Glued;
    assert RestKept(a) == [a[0]] + mid + [l];
    assert RestKept(g) == [a[0]] + mid + [l + b[0]] + tail;
    JoinGlued([a[0]] + mid, l, b[0], tail);
  }

  lemma WithoutNone()
    ensures WithoutComments([]) == []
  {
  }

  // Where the line that goes on is a comment, what goes on is dropped with it.
  lemma DroppedEnd(a: string, b: string)
    requires |Lines(a)| > 1 && IsCommentLine(LastLine(a)) && IsCommentLine(LastLine(a) + b) && !HasBreak(b)
        && Parts(a, b)
    ensures Kept(a + b) == Kept(a)
  {
    hide *;
    LinesConcat(a, b);
    OneLineOnly(b);
    LastIs(a);
    KeptIs(a);
    KeptIs(a + b);
    DroppedLast(Lines(a), b);
  }

  lemma DroppedLast(a: seq<string>, b: string)
    requires |a| > 1 && IsCommentLine(a[|a| - 1]) && IsCommentLine(a[|a| - 1] + b)
    ensures RestKept(Glued(a, [b])) == RestKept(a)
  {
    hide IsCommentLine, WithoutComments;
    var k := |a| - 1;
    var l, g := a[k], Glued(a, [b]);
    assert a[1..] == a[1..k] + ([l] + []) && g[1..] == a[1..k] + ([l + b] + []) && g[0] == a[0];
    WithoutConcat(a[1..k], [l] + []);
    WithoutConcat(a[1..k], [l + b] + []);
    WithoutOne(l, []);
    WithoutOne(l + b, []);
  }

  // A quote settles that a line is no comment, where it was none before.
  lemma {:induction false} QuoteSettles(l: string, x: string)
    ensures IsCommentLine(l + ("'" + x)) == IsCommentLine(l)
  {
    var t := l + ("'" + x);
    if l == "" {
      assert t == "'" + x && t[0] == '\'' && !IsSpace('\'');
      assert LTrim(t) == t;
      Differs("--", t, 0);
    } else {
      assert t[0] == l[0] && t[1..] == l[1..] + ("'" + x);
      if IsSpace(l[0]) {
        QuoteSettles(l[1..], x);
      } else {
        assert LTrim(t) == t && LTrim(l) == l;
        if |l| == 1 {
          assert t[1] == '\'';
          Differs("--", t, 1);
        } else {
          assert t[1] == l[1];
          DashesAre(t);
          DashesAre(l);
        }
      }
    }
  }

  lemma DashesAre(t: string)
    ensures "--" <= t <==> |t| > 1 && t[0] == '-' && t[1] == '-'
  {
  }

  // ----- literals

  // The body without the lines that are dropped.
  function Tidy(body: string): string { Kept(body) }

  // The last line is not taken for a comment, so the quote that ends it is kept.
  predicate Harmless(text: string) {
    |Lines(text)| == 1 || !IsCommentLine(LastLine(text))
  }

  // A literal that still ends at its own quote when the lines are dropped.
  predicate Steady(body: string) {
    Harmless(body) && IsBody(Tidy(body))
  }

  lemma QuoteParts(a: string, x: string)
    ensures Parts(a, "'" + x) && Parts("'", a)
    ensures Lines("'") == ["'"] && Lines("'" + x)[0] == "'" + Lines(x)[0] && Kept("'") == "'"
  {
    assert ("'" + x)[0] == '\'' && ("'" + x)[1..] == x && "'"[1..] == "";
    assert BreakLen("'" + x) == 0;
    assert Lines("") == [""] && "'" + "" == "'";
    assert ["'"][1..] == [] && [""][1..] == [];
  }

  lemma KeptChar(c: char, rest: string)
    requires !IsBreak(c)
    ensures Kept([c] + rest) == [c] + Kept(rest)
  {
    OneLineOnly([c]);
    assert c != '\r' && [[c]][1..] == [];
    hide Lines, IsBreak;
    KeptConcat([c], rest);
  }

  lemma KeptQuote(x: string)
    ensures Kept("'" + x) == "'" + Kept(x)
  {
    hide Kept;
    KeptChar('\'', x);
  }

  lemma KeptLiteral(body: string, rest: string)
    requires Harmless(body)
    ensures Kept("'" + body + "'" + rest) == "'" + Tidy(body) + "'" + Kept(rest)
  {
    hide Kept, Tidy, Harmless;
    assert Tidy(body) == Kept(body) by { TidyIs(body); }
    KeptTail(body, rest);
    KeptQuote(body + ("'" + rest));
    KeptQuote(rest);
    Regroup4("'", body, rest);
    Regroup4("'", Kept(body), Kept(rest));
  }

  lemma TidyIs(body: string)
    ensures Tidy(body) == Kept(body)
  {
  }

  lemma Regroup4(q: string, a: string, b: string)
    ensures q + (a + (q + b)) == q + a + q + b
  {
  }

  lemma KeptTail(body: string, rest: string)
    requires Harmless(body)
    ensures Kept(body + ("'" + rest)) == Kept(body) + Kept("'" + rest)
  {
    QuoteParts(body, rest);
    QuoteSettles(LastLine(body), Lines(rest)[0]);
    hide Lines, IsCommentLine, Kept, Parts;
    KeptConcat(body, "'" + rest);
  }

  // The closing quote goes with the last line.
  lemma DroppedQuote(body: string)
    requires !Harmless(body)
    ensures Kept(body + "'") == Tidy(body)
  {
    QuoteParts(body, "");
    QuoteSettles(LastLine(body), "");
    assert "'" + "" == "'" && !HasBreak("'");
    hide Lines, IsCommentLine, Kept, Parts, HasBreak;
    DroppedEnd(body, "'");
  }

  lemma {:induction false} JoinConcat(a: seq<string>, b: seq<string>)
    requires a != [] && b != []
    ensures JoinLines(a + b) == JoinLines(a) + ("\n" + JoinLines(b))
  {
    if |a| == 1 {
      assert (a + b)[1..] == b;
      assert a[0] + "\n" + JoinLines(b) == a[0] + ("\n" + JoinLines(b));
    } else {
      assert (a + b)[1..] == a[1..] + b;
      JoinConcat(a[1..], b);
      assert a[0] + "\n" + (JoinLines(a[1..]) + ("\n" + JoinLines(b)))
        == a[0] + "\n" + JoinLines(a[1..]) + ("\n" + JoinLines(b));
    }
  }

  lemma LinesOfNewline(rest: string)
    ensures Lines("\n" + rest) == [""] + Lines(rest)
  {
    assert ("\n" + rest)[1..] == rest && BreakLen("\n" + rest) == 1;
  }

  // A line break between two texts, the second of which begins with no comment line.
  lemma KeptLines2(a: string, rest: string)
    requires Parts(a, "\n" + rest) && !IsCommentLine(Lines(rest)[0])
    ensures Kept(a + ("\n" + rest)) == Kept(a) + ("\n" + Kept(rest))
  {
    var la, lr := Lines(a), Lines(rest);
    hide *;
    LinesOfNewline(rest);
    LinesConcat(a, "\n" + rest);
    KeptIs(a);
    KeptIs(rest);
    KeptIs(a + ("\n" + rest));
    RestOfBoth(la, lr);
    JoinConcat(RestKept(la), RestKept(lr));
  }

  lemma RestOfBoth(a: seq<string>, b: seq<string>)
    requires a != [] && b != [] && !IsCommentLine(b[0])
    ensures RestKept(Glued(a, [""] + b)) == RestKept(a) + RestKept(b)
  {
    hide IsCommentLine, WithoutComments;
    var g := Glued(a, [""] + b);
    assert a[|a| - 1] + "" == a[|a| - 1] && ([""] + b)[1..] == b;
    assert g == a + b && g[1..] == a[1..] + b && g[0] == a[0];
    WithoutConcat(a[1..], b);
    assert b == [b[0]] + b[1..];
    WithoutOne(b[0], b[1..]);
  }

  lemma KeptUnclosed(body: string, rest: string)
    requires !Harmless(body) && (rest == "" || (rest[0] == '\n' && !IsCommentLine(Lines(rest[1..])[0])))
    ensures Kept("'" + body + "'" + rest) == "'" + Tidy(body) + Kept(rest)
  {
    assert Parts(body + "'", rest) by { assert (body + "'")[|body + "'"| - 1] == '\''; }
    hide *;
    DroppedQuote(body);
    KeptQuote(body + "'" + rest);
    Regroup4("'", body, rest);
    if rest == "" {
      KeptNothing();
      assert "'" + body + "'" + "" == "'" + (body + "'") && body + "'" + "" == body + "'";
      assert "'" + Tidy(body) + "" == "'" + Tidy(body);
    } else {
      KeptLines2(body + "'", rest[1..]);
      KeptNewline(rest[1..]);
      assert rest == "\n" + rest[1..];
      Quoted4(body, rest);
      Quoted4(Tidy(body), Kept(rest));
    }
  }

  lemma Quoted4(a: string, b: string)
    ensures "'" + a + "'" + b == "'" + (a + "'" + b) && "'" + (a + b) == "'" + a + b
  {
  }

  // ----- the literals of comments

  function EscapedLines(lines: seq<string>): (r: seq<string>)
    ensures |r| == |lines| && forall i :: 0 <= i < |r| ==> r[i] == Escaped(lines[i])
  {
    if lines == [] then [] else [Escaped(lines[0])] + EscapedLines(lines[1..])
  }

  lemma {:induction false} EscapedConcat(a: string, b: string)
    ensures Escaped(a + b) == Escaped(a) + Escaped(b)
  {
    hide EscapedChar;
    if a == "" {
      assert a + b == b;
    } else {
      assert (a + b)[0] == a[0] && (a + b)[1..] == a[1..] + b;
      EscapedConcat(a[1..], b);
      Assoc(EscapedChar(a[0]), Escaped(a[1..]), Escaped(b));
    }
  }

  lemma EscapedCharBreaks(c: char)
    ensures EscapedChar(c) != "" && (if IsBreak(c) then EscapedChar(c) == [c] else !HasBreak(EscapedChar(c)))
  {
  }

  lemma EscapedFirst(text: string)
    requires text != ""
    ensures var e, d := Escaped(text), EscapedChar(text[0]);
            e == d + Escaped(text[1..]) && d != "" && e[0] == d[0] && e[|d|..] == Escaped(text[1..])
    ensures EscapedChar(text[0])[0] == '\n' <==> text[0] == '\n'
  {
  }

  lemma EscapedBreak(text: string)
    requires text != "" && IsBreak(text[0])
    ensures var n, e := BreakLen(text), Escaped(text);
            BreakLen(e) == n && n <= |e| && e[n..] == Escaped(text[n..]) && e != ""
  {
    var e := Escaped(text);
    assert EscapedChar(text[0]) == [text[0]];
    EscapedFirst(text);
    if |text| > 1 {
      EscapedFirst(text[1..]);
      assert text[1..][1..] == text[2..];
      hide Escaped, EscapedChar, IsBreak;
      assert e[1] == Escaped(text[1..])[0];
      assert text[1] == '\n' ==> e[2..] == Escaped(text[2..]) by { EscapedNewline(); }
    }
  }

  lemma EscapedNewline()
    ensures EscapedChar('\n') == "\n"
  {
  }

  lemma {:induction false} LinesOfEscaped(text: string)
    ensures Lines(Escaped(text)) == EscapedLines(Lines(text))
    decreases |text|
  {
    if text == "" {
      assert [""][1..] == [];
    } else if IsBreak(text[0]) {
      var n := BreakLen(text);
      EscapedBreak(text);
      LinesOfEscaped(text[n..]);
      hide BreakLen, Escaped;
      LinesOf(text);
      LinesOf(Escaped(text));
      var rest := Lines(text[n..]);
      assert ([""] + rest)[1..] == rest;
      assert Escaped("") == "" by { EscapedNothing(); }
    } else {
      LinesOfEscaped(text[1..]);
      PlainFirst(text);
    }
  }

  lemma PlainFirst(text: string)
    requires text != "" && !IsBreak(text[0]) && Lines(Escaped(text[1..])) == EscapedLines(Lines(text[1..]))
    ensures Lines(Escaped(text)) == EscapedLines(Lines(text))
  {
    var c, r := text[0], text[1..];
    var e := EscapedChar(c);
    EscapedCharBreaks(c);
    assert Parts(e, Escaped(r)) by { assert !IsBreak(e[|e| - 1]); }
    LinesOf(text);
    assert BreakLen(text) == 0;
    hide *;
    EscapedFirst(text);
    OneLineOnly(e);
    LinesConcat(e, Escaped(r));
    EscapedOneChar(c);
    EscapedConcat([c], Lines(r)[0]);
    EscapedOnto(e, c, Lines(r));
  }

  lemma EscapedOnto(e: string, c: char, lines: seq<string>)
    requires lines != [] && Escaped([c] + lines[0]) == e + Escaped(lines[0])
    ensures Glued([e], EscapedLines(lines)) == EscapedLines([[c] + lines[0]] + lines[1..])
  {
    hide Escaped;
    var all := [[c] + lines[0]] + lines[1..];
    assert all[1..] == lines[1..];
  }

  lemma EscapedNothing()
    ensures Escaped("") == ""
  {
  }

  lemma EscapedOneChar(c: char)
    ensures Escaped([c]) == EscapedChar(c)
  {
    assert [c][1..] == "" && Escaped("") == "";
  }

  lemma {:induction false} EscapedIsComment(l: string)
    ensures IsCommentLine(Escaped(l)) == IsCommentLine(l)
  {
    if l != "" {
      var c, e, rest := l[0], Escaped(l), Escaped(l[1..]);
      assert IsSpace(c) ==> EscapedChar(c) == [c];
      assert e[0] == EscapedChar(c)[0];
      if IsSpace(c) {
        assert e[1..] == rest;
        EscapedIsComment(l[1..]);
      } else {
        assert !IsSpace(e[0]) && LTrim(e) == e && LTrim(l) == l;
        DashesAre(e);
        DashesAre(l);
        if |l| > 1 && c == '-' {
          assert e[1..] == rest && rest == EscapedChar(l[1]) + Escaped(l[1..][1..]);
          assert rest[0] == EscapedChar(l[1])[0] == e[1];
        } else if c == '-' {
          assert l[1..] == "" && rest == "" && e == "-";
        }
      }
    }
  }

  lemma {:induction false} WithoutEscaped(lines: seq<string>)
    ensures WithoutComments(EscapedLines(lines)) == EscapedLines(WithoutComments(lines))
  {
    hide IsCommentLine, Escaped;
    if lines != [] {
      var l, more := lines[0], lines[1..];
      EscapedIsComment(l);
      WithoutEscaped(more);
      assert EscapedLines(lines)[1..] == EscapedLines(more);
      var kept := WithoutComments(more);
      assert ([l] + kept)[1..] == kept && [] + kept == kept;
    }
  }

  lemma {:induction false} JoinEscaped(lines: seq<string>)
    ensures JoinLines(EscapedLines(lines)) == Escaped(JoinLines(lines))
  {
    if |lines| > 1 {
      JoinEscaped(lines[1..]);
      EscapedOneChar('\n');
      hide Escaped;
      EscapedConcat(lines[0] + "\n", JoinLines(lines[1..]));
      EscapedConcat(lines[0], "\n");
    } else if lines == [] {
    } else {
      assert EscapedLines(lines) == [Escaped(lines[0])];
    }
  }

  // The lines dropped from the literal of a text are those dropped from the text.
  lemma TidyEscaped(text: string)
    ensures Tidy(Escaped(text)) == Escaped(Tidy(text)) && Harmless(Escaped(text)) == Harmless(text)
  {
    hide *;
    var lines := Lines(text);
    LinesOfEscaped(text);
    EscapedIsComment(lines[|lines| - 1]);
    LastIs(text);
    LastIs(Escaped(text));
    HarmlessIs(text);
    HarmlessIs(Escaped(text));
    RestEscaped(lines);
    JoinEscaped(RestKept(lines));
    TidyIs(text);
    TidyIs(Escaped(text));
    KeptIs(text);
    KeptIs(Escaped(text));
  }

  lemma HarmlessIs(text: string)
    ensures Harmless(text) == (|Lines(text)| == 1 || !IsCommentLine(LastLine(text)))
  {
  }

  lemma RestEscaped(lines: seq<string>)
    requires lines != []
    ensures RestKept(EscapedLines(lines)) == EscapedLines(RestKept(lines))
  {
    hide Escaped, WithoutComments;
    WithoutEscaped(lines[1..]);
    assert EscapedLines(lines)[1..] == EscapedLines(lines[1..]);
    var kept := WithoutComments(lines[1..]);
    assert ([lines[0]] + kept)[1..] == kept;
  }

  lemma CommentIsSteady(text: string)
    ensures Steady(Escaped(text)) == Harmless(text)
  {
    TidyEscaped(text);
    EscapedIsBody(Tidy(text));
  }

  // ----- statements

  // No quote outside a literal, and no literal that loses its end.
  predicate IsReadable(a: Atom) {
    match a
    case Ch(c) => c != '\''
    case Lit(body) => Steady(body)
  }

  ghost predicate Readable(atoms: seq<Atom>) {
    forall a <- atoms :: IsReadable(a)
  }

  function Tidied(atoms: seq<Atom>): (r: seq<Atom>)
    ensures |r| == |atoms|
  {
    if atoms == [] then []
    else [if atoms[0].Ch? then atoms[0] else Lit(Tidy(atoms[0].body))] + Tidied(atoms[1..])
  }

  // No comment line, and no line break but the newline; `atStart` says that only whitespace precedes on the line.
  predicate NoComment(atoms: seq<Atom>, atStart: bool) {
    atoms == [] ||
    match atoms[0]
    case Lit(_) => NoComment(atoms[1..], false)
    case Ch(c) =>
      if IsBreak(c) then c == '\n' && NoComment(atoms[1..], true)
      else if atStart && IsSpace(c) then NoComment(atoms[1..], true)
      else !(atStart && c == '-' && |atoms| > 1 && atoms[1] == Ch('-')) && NoComment(atoms[1..], false)
  }

  lemma {:induction false} NoCommentMore(atoms: seq<Atom>)
    ensures NoComment(atoms, true) ==> NoComment(atoms, false)
  {
    if atoms != [] {
      NoCommentMore(atoms[1..]);
    }
  }

  ghost predicate EndsMidLine(atoms: seq<Atom>) {
    atoms != [] && atoms[|atoms| - 1] != Ch('\n')
  }

  // What can stand behind the atoms: nothing, or a literal.
  ghost predicate Quotes(rest: string) {
    rest == "" || rest[0] == '\''
  }

  lemma FirstOfFlat(atoms: seq<Atom>, rest: string)
    ensures var t := Flat(atoms) + rest;
            if atoms == [] then t == rest
            else
              && t != "" && t[0] == (if atoms[0].Ch? then atoms[0].c else '\'')
              && t == Written(atoms[0]) + (Flat(atoms[1..]) + rest)
  {
    if atoms != [] {
      Assoc(Written(atoms[0]), Flat(atoms[1..]), rest);
    }
  }

  lemma LinesOfChar(c: char, rest: string)
    requires !IsBreak(c)
    ensures Lines([c] + rest) == [[c] + Lines(rest)[0]] + Lines(rest)[1..]
  {
    assert ([c] + rest)[1..] == rest;
  }

  lemma QuoteIsNoComment(x: string)
    ensures !IsCommentLine("'" + x)
  {
    QuoteSettles("", x);
    assert "" + ("'" + x) == "'" + x;
  }

  lemma NothingIsNoComment()
    ensures !IsCommentLine("")
  {
  }

  // The first character of the first line, where there is one.
  lemma FirstChar(t: string)
    ensures Lines(t)[0] != "" ==> t != "" && Lines(t)[0][0] == t[0]
  {
  }

  lemma {:induction false} FirstIsKept(atoms: seq<Atom>, rest: string)
    requires NoComment(atoms, true) && Quotes(rest)
    ensures !IsCommentLine(Lines(Flat(atoms) + rest)[0])
  {
    FirstOfFlat(atoms, rest);
    NothingIsNoComment();
    var t := Flat(atoms) + rest;
    if atoms == [] {
      FirstIsQuote(t);
    } else if atoms[0].Lit? {
      FirstIsQuote(t);
    } else {
      var c, u := atoms[0].c, Flat(atoms[1..]) + rest;
      if !IsBreak(c) {
        LinesOfChar(c, u);
        var l := Lines(u)[0];
        if IsSpace(c) {
          FirstIsKept(atoms[1..], rest);
          assert LTrim([c] + l) == LTrim(l) by { assert ([c] + l)[1..] == l; }
        } else {
          FirstOfFlat(atoms[1..], rest);
          FirstChar(u);
          assert LTrim([c] + l) == [c] + l;
          DashesAre([c] + l);
        }
      }
    }
  }

  lemma FirstIsQuote(t: string)
    requires Quotes(t)
    ensures !IsCommentLine(Lines(t)[0])
  {
    if t == "" {
      NothingIsNoComment();
    } else {
      assert t == "'" + t[1..];
      QuoteParts("", t[1..]);
      QuoteIsNoComment(Lines(t[1..])[0]);
    }
  }

  lemma KeptNewline(rest: string)
    requires !IsCommentLine(Lines(rest)[0])
    ensures Kept("\n" + rest) == "\n" + Kept(rest)
  {
    hide *;
    LinesOfNewline(rest);
    KeptIs("\n" + rest);
    KeptIs(rest);
    NewlineKept(Lines(rest));
  }

  lemma NewlineKept(lines: seq<string>)
    requires lines != [] && !IsCommentLine(lines[0])
    ensures JoinLines(RestKept([""] + lines)) == "\n" + JoinLines(RestKept(lines))
  {
    hide IsCommentLine;
    assert lines == [lines[0]] + lines[1..];
    WithoutOne(lines[0], lines[1..]);
    var kept := RestKept(lines);
    assert RestKept([""] + lines) == [""] + kept by { assert ([""] + lines)[1..] == lines; }
    assert ([""] + kept)[1..] == kept;
  }

  // Of a statement without comment lines everything is kept but lines of its literals.
  lemma {:induction false} KeptAtoms(atoms: seq<Atom>, rest: string)
    requires Readable(atoms) && NoComment(atoms, false) && Quotes(rest)
    ensures Kept(Flat(atoms) + rest) == Flat(Tidied(atoms)) + Kept(rest)
  {
    FirstOfFlat(atoms, rest);
    if atoms != [] {
      var a, more := atoms[0], atoms[1..];
      assert IsReadable(a);
      NoCommentMore(more);
      KeptAtoms(more, rest);
      var u := Flat(more) + rest;
      if a.Lit? {
        KeptLiteral(a.body, u);
      } else if IsBreak(a.c) {
        FirstIsKept(more, rest);
        KeptNewline(u);
      } else {
        KeptChar(a.c, u);
      }
      hide Kept, IsReadable, NoComment, Tidy, Flat, Lines, IsBreak;
      TidiedFlat(a, more);
      Assoc(Written(if a.Ch? then a else Lit(Tidy(a.body))), Flat(Tidied(more)), Kept(rest));
    }
  }

  lemma TidiedFlat(a: Atom, more: seq<Atom>)
    ensures Flat(Tidied([a] + more)) == Written(if a.Ch? then a else Lit(Tidy(a.body))) + Flat(Tidied(more))
    ensures [a] + more != []
  {
    hide Tidy;
    assert ([a] + more)[1..] == more;
    var b := if a.Ch? then a else Lit(Tidy(a.body));
    assert ([b] + Tidied(more))[1..] == Tidied(more);
  }

  // ----- what the gate reads

  // Literals that close, with anything behind them.
  lemma {:induction false} BlankedBefore(atoms: seq<Atom>, rest: string)
    requires forall a <- atoms :: if a.Ch? then a.c != '\'' else IsBody(a.body)
    ensures Blanked(Flat(atoms) + rest) == Skeleton(atoms) + Blanked(rest)
  {
    if atoms == [] {
      assert Flat(atoms) + rest == rest && Skeleton([]) + Blanked(rest) == Blanked(rest);
    } else {
      var a, more := atoms[0], atoms[1..];
      assert a in atoms;
      BlankedBefore(more, rest);
      FirstOfFlat(atoms, rest);
      BlankedOne(a, Flat(more) + rest);
      SkeletonFirst(atoms);
      hide IsBody, Blanked, Flat, Skeleton;
      Assoc(if a.Ch? then [a.c] else "''", Skeleton(more), Blanked(rest));
    }
  }

  lemma BlankedOne(a: Atom, rest: string)
    requires if a.Ch? then a.c != '\'' else IsBody(a.body)
    ensures Blanked(Written(a) + rest) == (if a.Ch? then [a.c] else "''") + Blanked(rest)
  {
    var t := Written(a) + rest;
    match a
    case Ch(c) =>
      assert t[0] == c && t[1..] == rest;
    case Lit(body) =>
      hide QuotedLen;
      QuotedBody(body, rest);
      assert t == "'" + body + "'" + rest;
      assert t[|body| + 2..] == rest;
  }

  lemma SkeletonFirst(atoms: seq<Atom>)
    requires atoms != []
    ensures Skeleton(atoms) == (if atoms[0].Ch? then [atoms[0].c] else "''") + Skeleton(atoms[1..])
  {
    var e := if atoms[0].Ch? then atoms[0] else Lit("");
    assert Written(e) == if atoms[0].Ch? then [atoms[0].c] else "''";
    var more := Emptied(atoms[1..]);
    assert ([e] + more)[0] == e && ([e] + more)[1..] == more;
  }

  lemma {:induction false} TidiedIs(atoms: seq<Atom>)
    requires Readable(atoms)
    ensures forall a <- Tidied(atoms) :: if a.Ch? then a.c != '\'' else IsBody(a.body)
    ensures Emptied(Tidied(atoms)) == Emptied(atoms)
  {
    hide IsBody, Tidy, Harmless;
    if atoms != [] {
      var a, more := atoms[0], atoms[1..];
      assert IsReadable(a);
      TidiedIs(more);
      var b := if a.Ch? then a else Lit(Tidy(a.body));
      assert ([b] + Tidied(more))[1..] == Tidied(more);
    }
  }

  // What the gate keeps of a statement is what is kept of its lines, where it ends in the middle of one.
  lemma GateKeeps(t: string)
    requires t != "" && !IsBreak(t[|t| - 1]) && !IsCommentLine(Lines(t)[0])
    ensures GateText(t) == Blanked(Kept(t))
  {
    hide IsCommentLine, Lines, IsBreak, SplitLines, JoinLines, Blanked;
    SplitIsLines(t);
    var lines := Lines(t);
    assert lines == [lines[0]] + lines[1..];
    WithoutOne(lines[0], lines[1..]);
  }

  lemma {:induction false} FlatEnds(atoms: seq<Atom>)
    requires EndsMidLine(atoms) && NoComment(atoms, false)
    ensures Flat(atoms) != "" && !IsBreak(Flat(atoms)[|Flat(atoms)| - 1])
  {
    var a, more := atoms[0], atoms[1..];
    var w := Written(a);
    if more == [] {
      assert Flat(atoms) == w + "" == w;
      assert w[|w| - 1] == if a.Ch? then a.c else '\'';
    } else {
      NoCommentMore(more);
      assert more[|more| - 1] == atoms[|atoms| - 1];
      FlatEnds(more);
      assert Flat(atoms)[|Flat(atoms)| - 1] == Flat(more)[|Flat(more)| - 1];
    }
  }

  // A statement without comment lines is read whole, with its literals emptied.
  lemma GateReadsAll(atoms: seq<Atom>)
    requires Readable(atoms) && NoComment(atoms, true) && EndsMidLine(atoms)
    ensures GateText(Flat(atoms)) == Skeleton(atoms)
  {
    NoCommentMore(atoms);
    FlatEnds(atoms);
    var t := Flat(atoms);
    assert t + "" == t;
    assert Skeleton(Tidied(atoms)) + "" == Skeleton(Tidied(atoms)) == Flat(Emptied(Tidied(atoms)));
    KeptNothing();
    assert Blanked("") == "";
    hide *;
    FirstIsKept(atoms, "");
    GateKeeps(t);
    KeptAtoms(atoms, "");
    TidiedIs(atoms);
    BlankedBefore(Tidied(atoms), "");
    SkeletonIs(atoms);
  }

  lemma SkeletonIs(atoms: seq<Atom>)
    ensures Skeleton(atoms) == Flat(Emptied(atoms))
  {
  }

  lemma KeptNothing()
    ensures Kept("") == ""
  {
    assert [""][1..] == [];
  }
}

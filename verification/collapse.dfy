/** The checksum normaliser's whitespace collapse, and why its output is a canonical form. */
module Collapse {
  import opened Text
  import opened Lexer

  // What a run of tokens reads as once whitespace is collapsed; `inRun` as for `Squash`.
  function Canon(ts: seq<Token>, inRun: bool): seq<Token> {
    if ts == [] then []
    else match ts[0]
      case Gap(c) =>
        if !IsSpace(c) then [Gap(c)] + Canon(ts[1..], false)
        else if inRun then Canon(ts[1..], true)
        else [Gap(' ')] + Canon(ts[1..], true)
      case Line(s) => [Line(Squash(s, false))] + Canon(ts[1..], false)
      case Block(s) => [Block(Squash(s, false))] + Canon(ts[1..], false)
      case Literal(s) => [Literal(s)] + Canon(ts[1..], false)
  }

  function Flat(ts: seq<Token>): string {
    if ts == [] then []
    else (if ts[0].Gap? then [ts[0].c] else ts[0].text) + Flat(ts[1..])
  }

  function Pieces(t: string, inRun: bool): string {
    Flat(Canon(Lex(t), inRun))
  }

  // The text the checksum hashes for one statement.
  function Collapsed(t: string): string {
    Trim(Pieces(t, false))
  }

  // A line comment swallows whatever the newline that ended it kept out.
  predicate LinesLast(ts: seq<Token>) {
    ts == [] || ((ts[0].Line? ==> |ts| == 1) && LinesLast(ts[1..]))
  }

  function Written(s: string): string
    requires s != []
  {
    if IsQuote(s[0]) then s else Squash(s, false)
  }

  // ----- the loop

  method CollapseWhitespace(text: string) returns (r: string)
    ensures r == Collapsed(text)
  {
    hide SpanLen, Pieces;
    var pieces: seq<string> := [];
    var end, pos := 0, 0;
    assert text[0..0] == [] && text[0..] == text && [] + Pieces(text, false) == Pieces(text, false);
    while pos < |text|
      invariant 0 <= end <= pos <= |text|
      invariant Pieces(text, false) == Pending(pieces, text, end, pos)
    {
      hide *;
      var n := SpanLen(text[pos..]);
      if n == 0 {
        GapStep(pieces, text, end, pos);
        pos := pos + 1;
      } else {
        var gap, verbatim := text[end..pos], text[pos..pos + n];
        var is_comment := !IsQuote(verbatim[0]);
        SpanStep(pieces, text, end, pos);
        pieces := pieces + [Squash(gap, false)];
        pieces := pieces + [if is_comment then Squash(verbatim, false) else verbatim];
        pos := pos + n;
        end := pos;
      }
    }
    TailStep(pieces, text, end);
    pieces := pieces + [Squash(text[end..], false)];
    r := Trim(Joined(pieces));
  }

  lemma TailStep(pieces: seq<string>, text: string, end: nat)
    requires end <= |text|
    ensures Joined(pieces + [Squash(text[end..], false)]) == Pending(pieces, text, end, |text|)
  {
    var gap := text[end..];
    assert text[end..|text|] == gap && text[|text|..] == [];
    assert Pieces([], EndsInRun(gap, false)) == [];
    JoinedOne(pieces, Squash(gap, false));
  }

  // What the loop has written, and what it still owes: the open gap and the text behind it.
  ghost function Pending(pieces: seq<string>, text: string, end: nat, pos: nat): string
    requires end <= pos <= |text|
  {
    var gap := text[end..pos];
    Joined(pieces) + Squash(gap, false) + Pieces(text[pos..], EndsInRun(gap, false))
  }

  lemma GapStep(pieces: seq<string>, text: string, end: nat, pos: nat)
    requires end <= pos < |text| && SpanLen(text[pos..]) == 0
    ensures Pending(pieces, text, end, pos + 1) == Pending(pieces, text, end, pos)
  {
    hide SpanLen, Lex, Canon;
    var gap, c := text[end..pos], text[pos];
    assert text[end..pos + 1] == gap + [c];
    SquashConcat(gap, [c], false);
    var inRun := EndsInRun(gap, false);
    assert [c][1..] == [];
    assert Squash([c], inRun) == if IsSpace(c) && inRun then [] else [if IsSpace(c) then ' ' else c];
    assert text[pos..][1..] == text[pos + 1..];
    Unfold(text[pos..], inRun);
  }

  lemma SpanStep(pieces: seq<string>, text: string, end: nat, pos: nat)
    requires end <= pos < |text| && SpanLen(text[pos..]) > 0
    ensures var n := SpanLen(text[pos..]);
            var next := pieces + [Squash(text[end..pos], false)] + [Written(text[pos..pos + n])];
            Pending(next, text, pos + n, pos + n) == Pending(pieces, text, end, pos)
  {
    hide *;
    var n := SpanLen(text[pos..]);
    var gap, verbatim, rest := text[end..pos], text[pos..pos + n], text[pos + n..];
    var x, w := Squash(gap, false), Written(verbatim);
    assert Pieces(text[pos..], EndsInRun(gap, false)) == w + Pieces(rest, false) by {
      assert text[pos..][..n] == verbatim && text[pos..][n..] == rest;
      Unfold(text[pos..], EndsInRun(gap, false));
    }
    JoinedOne(pieces, x);
    JoinedOne(pieces + [x], w);
    PendingClosed(pieces + [x] + [w], text, pos + n);
    PendingOpen(pieces, text, end, pos);
    assert Joined(pieces) + x + (w + Pieces(rest, false)) == Joined(pieces) + x + w + Pieces(rest, false);
  }

  lemma PendingOpen(pieces: seq<string>, text: string, end: nat, pos: nat)
    requires end <= pos <= |text|
    ensures var gap := text[end..pos];
            Pending(pieces, text, end, pos) == Joined(pieces) + Squash(gap, false)
              + Pieces(text[pos..], EndsInRun(gap, false))
  {
  }

  lemma PendingClosed(pieces: seq<string>, text: string, end: nat)
    requires end <= |text|
    ensures Pending(pieces, text, end, end) == Joined(pieces) + Pieces(text[end..], false)
  {
    hide Pieces, Joined;
    assert text[end..end] == [];
    assert Joined(pieces) + [] == Joined(pieces);
  }

  function Joined(pieces: seq<string>): string {
    if pieces == [] then [] else pieces[0] + Joined(pieces[1..])
  }

  lemma {:induction false} JoinedOne(pieces: seq<string>, x: string)
    ensures Joined(pieces + [x]) == Joined(pieces) + x
  {
    if pieces == [] {
      assert pieces + [x] == [x];
      assert Joined([x]) == x + Joined([]);
    } else {
      assert (pieces + [x])[1..] == pieces[1..] + [x];
      JoinedOne(pieces[1..], x);
    }
  }

  lemma Unfold(t: string, inRun: bool)
    ensures t == [] ==> Pieces(t, inRun) == []
    ensures t != [] && SpanLen(t) == 0 && !IsSpace(t[0]) ==> Pieces(t, inRun) == [t[0]] + Pieces(t[1..], false)
    ensures t != [] && SpanLen(t) == 0 && IsSpace(t[0]) ==>
              Pieces(t, inRun) == if inRun then Pieces(t[1..], true) else [' '] + Pieces(t[1..], true)
    ensures t != [] && SpanLen(t) > 0 ==>
              !IsSpace(t[0]) && Pieces(t, inRun) == Written(t[..SpanLen(t)]) + Pieces(t[SpanLen(t)..], false)
  {
    if t != [] {
      var n := SpanLen(t);
      var k := if n == 0 then 1 else n;
      assert Lex(t)[1..] == Lex(t[k..]);
      var ts := Canon(Lex(t), inRun);
      var rest := Canon(Lex(t[k..]), n == 0 && IsSpace(t[0]));
      if !(n == 0 && IsSpace(t[0]) && inRun) {
        assert ts[1..] == rest;
      }
    }
  }

  // ----- the output is canonical

  lemma {:induction false} PiecesHead(t: string, inRun: bool)
    ensures t == [] ==> Pieces(t, inRun) == []
    ensures t != [] && !(inRun && IsSpace(t[0])) ==>
              Pieces(t, inRun) != [] && Pieces(t, inRun)[0] == if IsSpace(t[0]) then ' ' else t[0]
  {
    Unfold(t, inRun);
  }

  lemma {:induction false} PiecesSquash(t: string, p: bool, q: bool)
    requires p ==> q
    ensures Squash(Pieces(t, p), q) == Squash(t, q)
    decreases |t|
  {
    hide SpanLen, Lex, Canon, Flat, Pieces, Written, IsSpace, Squash;
    Unfold(t, p);
    if t != [] {
      var n := SpanLen(t);
      if n == 0 {
        var space := IsSpace(t[0]);
        PiecesSquash(t[1..], space, space);
        assert t == [t[0]] + t[1..];
        GapSquash(t[0], Pieces(t[1..], space), t[1..], p, q);
      } else {
        PiecesSquash(t[n..], false, EndsInRun(t[..n], q));
        assert t == t[..n] + t[n..];
        WrittenSquash(t[..n], Pieces(t[n..], false), t[n..], q);
      }
    }
  }

  lemma GapSquash(c: char, y: string, rest: string, p: bool, q: bool)
    requires (p ==> q) && Squash(y, IsSpace(c)) == Squash(rest, IsSpace(c))
    ensures var x := if !IsSpace(c) then [c] + y else if p then y else [' '] + y;
            Squash(x, q) == Squash([c] + rest, q)
  {
    assert ([c] + rest)[1..] == rest && ([c] + y)[1..] == y && ([' '] + y)[1..] == y;
  }

  lemma WrittenSquash(s: string, y: string, rest: string, q: bool)
    requires s != [] && !IsSpace(s[0])
    requires Squash(y, EndsInRun(s, q)) == Squash(rest, EndsInRun(s, q))
    ensures Squash(Written(s) + y, q) == Squash(s + rest, q)
  {
    SquashConcat(s, rest, q);
    SquashConcat(Written(s), y, q);
    SquashTwice(s, false, q);
    SquashEnds(s, false);
  }

  lemma {:induction false} SquashEnds(s: string, inRun: bool)
    requires s != [] && !(inRun && AllSpace(s))
    ensures Squash(s, inRun) != []
    ensures IsSpace(s[|s| - 1]) == IsSpace(Squash(s, inRun)[|Squash(s, inRun)| - 1])
  {
    if |s| > 1 && !(IsSpace(s[0]) && AllSpace(s[1..])) {
      SquashEnds(s[1..], IsSpace(s[0]));
    } else if |s| > 1 {
      SquashSpaces(s[1..]);
    }
  }

  lemma {:induction false} SquashSpaces(s: string)
    requires AllSpace(s)
    ensures Squash(s, true) == []
  {
    if s != [] {
      SquashSpaces(s[1..]);
    }
  }

  lemma SameCloses(t: string, inRun: bool, q: char)
    requires IsQuote(q)
    ensures Closes(Pieces(t, inRun), q) == Closes(t, q)
    ensures HasBlockEnd(Pieces(t, inRun)) == HasBlockEnd(t)
  {
    PiecesSquash(t, inRun, true);
    ClosesSquashed(t, q, true);
    ClosesSquashed(Pieces(t, inRun), q, true);
    BlockEndSquashed(t, true);
    BlockEndSquashed(Pieces(t, inRun), true);
  }

  // A character outside every span is still outside every span.
  lemma GapStays(t: string)
    requires t != [] && SpanLen(t) == 0
    ensures SpanLen([if IsSpace(t[0]) then ' ' else t[0]] + Pieces(t[1..], IsSpace(t[0]))) == 0
  {
    var c, rest := t[0], t[1..];
    if !IsSpace(c) {
      var y := Pieces(rest, false);
      var z := [c] + y;
      assert z[1..] == y;
      PiecesHead(rest, false);
      if IsQuote(c) {
        SameCloses(rest, false, c);
      } else if c == '/' && rest != [] && rest[0] == '*' {
        assert SpanLen(rest) == 0;
        Unfold(rest, false);
        SameCloses(rest[1..], false, '`');
        assert rest[1..] == t[2..];
        assert z[2..] == Pieces(rest[1..], false);
      }
    }
  }

  // A span is still one span, unless it is a line comment with something after it.
  lemma SpanStays(t: string)
    requires t != [] && SpanLen(t) > 0
    requires t[0] == '-' ==> SpanLen(t) == |t|
    ensures var n := SpanLen(t); SpanLen(Written(t[..n]) + Pieces(t[n..], false)) == |Written(t[..n])|
  {
    var n := SpanLen(t);
    var s, rest := t[..n], t[n..];
    assert s[0] == t[0];
    if t[0] == '-' {
      assert s == t && Pieces(rest, false) == [];
      LineStays(t);
      assert Written(t) + [] == Written(t);
    } else if t[0] == '/' {
      CutBehind(t, n, 2);
      BlockStays(s, rest, Pieces(rest, false));
    } else {
      CutBehind(t, n, 1);
      hide Pieces, QuoteLen, Closes;
      LiteralStays(s, rest);
    }
  }

  lemma CutBehind(t: string, n: nat, k: nat)
    requires k <= n <= |t|
    ensures t[k..] == t[..n][k..] + t[n..]
  {
  }

  lemma LineStays(t: string)
    requires |t| > 1 && t[0] == '-' == t[1] && LineLen(t[2..]) == |t| - 2
    ensures SpanLen(Squash(t, false)) == |Squash(t, false)|
  {
    Squashed2(t);
    NoNewline(t[2..], false);
    LineLenWhole(Squash(t[2..], false));
    assert Squash(t, false)[2..] == Squash(t[2..], false);
  }

  lemma BlockStays(s: string, rest: string, y: string)
    requires |s| > 1 && s[0] == '/' && s[1] == '*'
    requires HasBlockEnd(s[2..] + rest) && BlockLen(s[2..] + rest) == |s| - 2
    ensures SpanLen(Squash(s, false) + y) == |Squash(s, false)|
  {
    var u := s[2..];
    assert s[..2] == "/*" && !IsSpace('/') && !IsSpace('*');
    BlockLenStable(u, rest, []);
    assert u + [] == u;
    BlockLenSquashed(u, false);
    Squashed2(s);
    var v := Squash(u, false);
    assert v + [] == v;
    BlockLenStable(v, [], y);
    hide *;
    assert "/*" + v + y == "/*" + (v + y);
    BlockSpan(v, y);
  }

  lemma BlockSpan(v: string, y: string)
    requires HasBlockEnd(v + y) && BlockLen(v + y) == |v|
    ensures SpanLen("/*" + (v + y)) == |v| + 2
  {
    hide HasBlockEnd, BlockLen;
    assert ("/*" + (v + y))[2..] == v + y;
  }

  lemma LiteralStays(s: string, rest: string)
    requires s != [] && IsQuote(s[0])
    requires Closes(s[1..] + rest, s[0]) && QuoteLen(s[1..] + rest, s[0]) == |s| - 1
    ensures SpanLen(s + Pieces(rest, false)) == |s|
  {
    var q, u, y := s[0], s[1..], Pieces(rest, false);
    PiecesHead(rest, false);
    if rest != [] && rest[0] == q {
      NothingClosesAfter(u, rest, q);
      LoneQuote(rest);
    }
    QuoteLenStable(u, rest, y, q);
    QuoteSpan(s, y);
  }

  lemma QuoteSpan(s: string, y: string)
    requires s != [] && IsQuote(s[0])
    requires Closes(s[1..] + y, s[0]) && QuoteLen(s[1..] + y, s[0]) == |s| - 1
    ensures SpanLen(s + y) == |s|
  {
    assert (s + y)[1..] == s[1..] + y;
  }

  lemma LoneQuote(t: string)
    requires t != [] && IsQuote(t[0]) && !Closes(t[1..], t[0])
    ensures Pieces(t, false) != [] && Pieces(t, false)[0] == t[0] && !Closes(Pieces(t, false)[1..], t[0])
  {
    Unfold(t, false);
    SameCloses(t[1..], false, t[0]);
    assert Pieces(t, false)[1..] == Pieces(t[1..], false);
  }

  lemma Squashed2(s: string)
    requires |s| > 1 && !IsSpace(s[0]) && !IsSpace(s[1])
    ensures Squash(s, false) == s[..2] + Squash(s[2..], false)
  {
    assert s[1..][1..] == s[2..];
    assert s[..2] == [s[0]] + [s[1]];
  }

  lemma {:induction false} NoNewline(s: string, inRun: bool)
    requires forall i :: 0 <= i < |s| ==> s[i] != '\n'
    ensures forall i :: 0 <= i < |Squash(s, inRun)| ==> Squash(s, inRun)[i] != '\n'
  {
    if s != [] {
      NoNewline(s[1..], IsSpace(s[0]));
    }
  }

  // Scanning the collapsed text finds the collapsed tokens of the text, exactly when no line comment
  // has anything after it.
  lemma {:induction false} Relex(t: string, inRun: bool)
    ensures Lex(Pieces(t, inRun)) == Canon(Lex(t), inRun) <==> LinesLast(Lex(t))
    decreases |t|
  {
    if t != [] {
      Unfold(t, inRun);
      var n := SpanLen(t);
      var x := Pieces(t, inRun);
      if n == 0 {
        var space := IsSpace(t[0]);
        assert Lex(t)[1..] == Lex(t[1..]);
        Relex(t[1..], space);
        if !(space && inRun) {
          GapStays(t);
          assert x[1..] == Pieces(t[1..], space);
          assert Lex(x)[1..] == Lex(x[1..]);
          assert Canon(Lex(t), inRun)[1..] == Canon(Lex(t[1..]), space);
        }
      } else {
        var s, rest := t[..n], t[n..];
        var w, y := Written(s), Pieces(rest, false);
        assert Lex(t)[1..] == Lex(rest);
        if t[0] == '-' && n < |t| {
          LineGrows(t);
        } else {
          SpanStays(t);
          assert x[..|w|] == w && x[|w|..] == y;
          SquashHead(s, false);
          assert Lex(x) == [SpanToken(w)] + Lex(y);
          assert Canon(Lex(t), inRun) == [SpanToken(w)] + Canon(Lex(rest), false);
          Relex(rest, false);
          assert Lex(x)[1..] == Lex(y);
          assert Canon(Lex(t), inRun)[1..] == Canon(Lex(rest), false);
        }
      }
    }
  }

  lemma LineGrows(t: string)
    requires t != [] && t[0] == '-' && 0 < SpanLen(t) < |t|
    ensures Lex(Pieces(t, false)) != Canon(Lex(t), false)
    ensures forall p :: Pieces(t, p) == Pieces(t, false) && Canon(Lex(t), p) == Canon(Lex(t), false)
    ensures !LinesLast(Lex(t))
  {
    var n := SpanLen(t);
    var s, rest := t[..n], t[n..];
    var w := Written(s);
    assert Lex(t) == [Line(s)] + Lex(rest);
    assert Lex(t)[1..] == Lex(rest) && Lex(rest) != [];
    var x := Pieces(t, false);
    assert |w| < SpanLen(x) && x[0] == '-' by { LineReaches(t); }
    hide Squash, LineLen, Pieces;
    assert Lex(x)[0] == Line(x[..SpanLen(x)]);
    assert Canon(Lex(t), false)[0] == Line(w);
  }

  lemma LineReaches(t: string)
    requires t != [] && t[0] == '-' && 0 < SpanLen(t) < |t|
    ensures |Written(t[..SpanLen(t)])| < SpanLen(Pieces(t, false)) && Pieces(t, false)[0] == '-'
  {
    LineParts(t);
    hide *;
    var n := SpanLen(t);
    var s, rest := t[..n], t[n..];
    assert t == s + rest;
    LineUnfold(t, false, s, rest);
    NewlineHead(rest);
    LineThen(s, Pieces(rest, false));
  }

  lemma LineParts(t: string)
    requires t != [] && t[0] == '-' && 0 < SpanLen(t) < |t|
    ensures var n := SpanLen(t); n > 1 && t[1] == '-' && t[n] == '\n' && Written(t[..n]) == Squash(t[..n], false)
    ensures forall i :: 2 <= i < SpanLen(t) ==> t[i] != '\n'
  {
    hide Squash;
    assert forall i :: 2 <= i < SpanLen(t) ==> t[i] == t[2..][i - 2];
  }

  lemma NewlineHead(rest: string)
    requires rest != [] && rest[0] == '\n'
    ensures Pieces(rest, false) != [] && Pieces(rest, false)[0] == ' '
  {
    hide Pieces;
    PiecesHead(rest, false);
  }

  lemma LineThen(s: string, y: string)
    requires |s| > 1 && s[0] == s[1] == '-' && (forall i :: 2 <= i < |s| ==> s[i] != '\n') && y != [] && y[0] == ' '
    ensures |Squash(s, false)| < SpanLen(Squash(s, false) + y) && (Squash(s, false) + y)[0] == '-'
  {
    hide *;
    var body := s[2..];
    var v := Squash(body, false);
    assert s == "--" + body;
    assert forall i :: 0 <= i < |body| ==> body[i] == s[i + 2];
    DashesSquash(body);
    NoNewline(body, false);
    LineSpan(v, y);
    assert "--" + v + y == "--" + (v + y);
  }

  lemma DashesSquash(body: string)
    ensures Squash("--" + body, false) == "--" + Squash(body, false)
  {
    var s := "--" + body;
    assert s[..2] == "--" && s[2..] == body && !IsSpace('-');
    hide Squash;
    Squashed2(s);
  }

  lemma LineSpan(v: string, y: string)
    requires (forall i :: 0 <= i < |v| ==> v[i] != '\n') && y != [] && y[0] == ' '
    ensures var x := "--" + (v + y); SpanLen(x) > 2 + |v| && x[0] == '-'
  {
    LineRuns(v, y);
    hide LineLen;
    assert ("--" + (v + y))[2..] == v + y;
  }

  lemma {:induction false} LineRuns(a: string, b: string)
    requires forall i :: 0 <= i < |a| ==> a[i] != '\n'
    requires b != [] && b[0] != '\n'
    ensures LineLen(a + b) > |a|
  {
    if a == [] {
      assert a + b == b;
    } else {
      assert (a + b)[1..] == a[1..] + b;
      LineRuns(a[1..], b);
    }
  }

  // ----- whitespace at the ends

  lemma {:induction false} PiecesLTrim(t: string, inRun: bool)
    ensures LTrim(Pieces(t, inRun)) == Pieces(LTrim(t), false)
    decreases |t|
  {
    Unfold(t, inRun);
    if t != [] {
      if IsSpace(t[0]) {
        PiecesLTrim(t[1..], true);
        assert ([' '] + Pieces(t[1..], true))[1..] == Pieces(t[1..], true);
      } else {
        Unfold(t, false);
        PiecesHead(t, false);
      }
    }
  }

  // `y` is `x` with whitespace after it.
  ghost predicate Padded(x: string, y: string) {
    x <= y && AllSpace(y[|x|..])
  }

  lemma PaddedUnder(a: string, x: string, y: string)
    requires Padded(x, y)
    ensures Padded(a + x, a + y)
  {
    assert (a + y)[|a + x|..] == y[|x|..];
    assert (a + y)[..|a + x|] == a + x;
  }

  lemma {:induction false} PiecesTrailing(u: string, w: string, inRun: bool)
    requires AllSpace(w)
    ensures Padded(Pieces(u, inRun), Pieces(u + w, inRun))
    decreases |u|
  {
    if u == [] {
      assert u + w == w;
      PiecesOfSpaces(w, inRun);
    } else {
      SpanLenTrailing(u, w);
      var n := SpanLen(u);
      if SpanLen(u + w) != n {
        LineTrailing(u, w, inRun);
      } else {
        var k, run := if n == 0 then 1 else n, n == 0 && IsSpace(u[0]);
        var head := if n > 0 then Written(u[..n]) else if run && inRun then [] else [if run then ' ' else u[0]];
        assert (u + w)[..k] == u[..k] && (u + w)[k..] == u[k..] + w;
        assert Pieces(u, inRun) == head + Pieces(u[k..], run) by { Unfold(u, inRun); }
        assert Pieces(u + w, inRun) == head + Pieces(u[k..] + w, run) by { Unfold(u + w, inRun); }
        PiecesTrailing(u[k..], w, run);
        PaddedUnder(head, Pieces(u[k..], run), Pieces(u[k..] + w, run));
      }
    }
  }

  lemma LineTrailing(u: string, w: string, inRun: bool)
    requires u != [] && AllSpace(w) && u[0] == '-' && SpanLen(u) == |u| < SpanLen(u + w)
    ensures Padded(Pieces(u, inRun), Pieces(u + w, inRun))
  {
    hide *;
    var m := SpanLen(u + w) - |u|;
    var v, z := w[..m], w[m..];
    SpaceTail(w, m);
    LineTrailingParts(u, v, z);
    assert Pieces(u, inRun) == Squash(u, false) by {
      LineUnfold(u, inRun, u, []);
      PiecesHead([], false);
    }
    assert Pieces(u + w, inRun) == Squash(u + v, false) + Pieces(z, false) by {
      assert u + w == (u + v) + z;
      LineUnfold(u + w, inRun, u + v, z);
    }
  }

  lemma LineTrailingParts(u: string, v: string, z: string)
    requires AllSpace(v) && AllSpace(z)
    ensures Padded(Squash(u, false), Squash(u + v, false) + Pieces(z, false))
  {
    hide *;
    var a, x, y := Squash(u, false), Squash(v, EndsInRun(u, false)), Pieces(z, false);
    SquashOfSpaces(v, EndsInRun(u, false));
    PiecesOfSpaces(z, false);
    SquashConcat(u, v, false);
    PaddedWith(a, x, y);
  }

  lemma PaddedWith(a: string, x: string, y: string)
    requires AllSpace(x) && AllSpace(y)
    ensures Padded(a, a + x + y)
  {
    assert (a + x + y)[|a|..] == x + y;
  }

  lemma LineUnfold(t: string, inRun: bool, s: string, rest: string)
    requires t == s + rest && t != [] && t[0] == '-' && SpanLen(t) == |s| > 0
    ensures Pieces(t, inRun) == Squash(s, false) + Pieces(rest, false)
  {
    assert t[..|s|] == s && t[|s|..] == rest;
    Unfold(t, inRun);
  }

  lemma {:induction false} PiecesOfSpaces(w: string, inRun: bool)
    requires AllSpace(w)
    ensures AllSpace(Pieces(w, inRun))
  {
    Unfold(w, inRun);
    if w != [] {
      PiecesOfSpaces(w[1..], true);
    }
  }

  lemma {:induction false} SquashOfSpaces(w: string, inRun: bool)
    requires AllSpace(w)
    ensures AllSpace(Squash(w, inRun))
  {
    if w != [] {
      SquashOfSpaces(w[1..], true);
    }
  }

  // Whitespace at the end of the text can only lengthen a line comment that reached the end.
  lemma SpanLenTrailing(u: string, w: string)
    requires u != [] && AllSpace(w)
    ensures SpanLen(u + w) == SpanLen(u) || (u[0] == '-' && SpanLen(u) == |u| <= SpanLen(u + w))
  {
    var t := u + w;
    assert t[0] == u[0];
    if u == "-" {
      assert w != [] ==> IsSpace(w[0]) && t[1] == w[0];
    } else if u == "/" {
      assert w != [] ==> IsSpace(w[0]) && t[1] == w[0];
    } else if IsQuote(u[0]) {
      hide QuoteLen, Closes;
      assert t[1..] == u[1..] + w;
      QuoteTrailing(u[1..], w, u[0]);
    } else if |u| > 1 {
      hide BlockLen, HasBlockEnd, LineLen;
      assert t[1] == u[1] && t[2..] == u[2..] + w;
      LineLenTrailing(u[2..], w);
      BlockTrailing(u[2..], w);
    }
  }

  lemma BlockTrailing(s: string, w: string)
    requires AllSpace(w)
    ensures HasBlockEnd(s + w) == HasBlockEnd(s)
    ensures HasBlockEnd(s) ==> BlockLen(s + w) == BlockLen(s)
  {
    BlockEndTrailing(s, w);
    if HasBlockEnd(s) {
      var n := BlockLen(s);
      assert s == s[..n] + s[n..] && s + w == s[..n] + (s[n..] + w);
      BlockLenStable(s[..n], s[n..], s[n..] + w);
    }
  }

  lemma {:induction false} LineLenTrailing(s: string, w: string)
    ensures LineLen(s) < |s| ==> LineLen(s + w) == LineLen(s)
    ensures LineLen(s) == |s| ==> LineLen(s + w) >= |s|
  {
    if s != [] && s[0] != '\n' {
      assert (s + w)[1..] == s[1..] + w;
      LineLenTrailing(s[1..], w);
    }
  }

  lemma QuoteTrailing(s: string, w: string, q: char)
    requires IsQuote(q) && AllSpace(w)
    ensures Closes(s + w, q) == Closes(s, q)
    ensures Closes(s, q) ==> QuoteLen(s + w, q) == QuoteLen(s, q)
  {
    ClosesTrailing(s, w, q);
    if Closes(s, q) {
      var n := QuoteLen(s, q);
      var u, x := s[..n], s[n..];
      assert s == u + x && s + w == u + (x + w);
      if x != [] {
        assert (x + w)[1..] == x[1..] + w;
        ClosesTrailing(x[1..], w, q);
      }
      QuoteLenStable(u, x, x + w, q);
    }
  }

  lemma WrittenLast(s: string)
    requires s != [] && !IsSpace(s[|s| - 1])
    ensures var w := Written(s); w != [] && !IsSpace(w[|w| - 1])
  {
    SquashEnds(s, false);
  }

  lemma LastOf(a: string, b: string)
    requires b != [] && !IsSpace(b[|b| - 1])
    ensures a + b != [] && !IsSpace((a + b)[|a + b| - 1])
  {
  }

  lemma PiecesGrow(t: string, inRun: bool, k: nat, run: bool)
    requires t != [] && k == (if SpanLen(t) == 0 then 1 else SpanLen(t)) && run == (SpanLen(t) == 0 && IsSpace(t[0]))
        && k <= |t|
    ensures exists a: string :: Pieces(t, inRun) == a + Pieces(t[k..], run)
  {
    hide SpanLen, Pieces, Written, IsSpace;
    Unfold(t, inRun);
    var y := Pieces(t[k..], run);
    if run && inRun {
      assert Pieces(t, inRun) == [] + y;
    }
  }

  lemma SpanFits(t: string)
    requires t != []
    ensures SpanLen(t) <= |t|
  {
  }

  lemma {:induction false} PiecesEnds(t: string, inRun: bool)
    requires t != [] && !IsSpace(t[|t| - 1])
    ensures Pieces(t, inRun) != [] && !IsSpace(Pieces(t, inRun)[|Pieces(t, inRun)| - 1])
    decreases |t|
  {
    hide *;
    SpanFits(t);
    var n := SpanLen(t);
    var k, run := if n == 0 then 1 else n, n == 0 && IsSpace(t[0]);
    if k < |t| {
      assert t[k..][|t[k..]| - 1] == t[|t| - 1];
      PiecesEnds(t[k..], run);
      PiecesGrow(t, inRun, k, run);
      var a: string :| Pieces(t, inRun) == a + Pieces(t[k..], run);
      LastOf(a, Pieces(t[k..], run));
    } else {
      PiecesEndHere(t, inRun);
    }
  }

  lemma PiecesEndHere(t: string, inRun: bool)
    requires t != [] && !IsSpace(t[|t| - 1]) && |t| == if SpanLen(t) == 0 then 1 else SpanLen(t)
    ensures Pieces(t, inRun) != [] && !IsSpace(Pieces(t, inRun)[|Pieces(t, inRun)| - 1])
  {
    hide *;
    assert t[..|t|] == t && t[|t|..] == [];
    Unfold(t, inRun);
    Unfold([], false);
    if SpanLen(t) > 0 {
      WrittenLast(t);
      assert Written(t) + [] == Written(t);
    } else {
      assert Pieces(t, inRun) == [t[0]] + [];
    }
  }

  // The ends can be stripped before the collapse as well as after it.
  lemma TrimFirst(t: string)
    ensures Collapsed(t) == Pieces(Trim(t), false)
  {
    CollapsedIs(t);
    hide *;
    var l := LTrim(t);
    var u := RTrim(l);
    var w := l[|u|..];
    var x, y := Pieces(u, false), Pieces(l, false);
    PiecesLTrim(t, false);
    assert l == u + w;
    PiecesTrailing(u, w, false);
    assert y == x + y[|x|..] && AllSpace(y[|x|..]) by { PaddedIs(x, y); }
    RTrimConcat(x, y[|x|..]);
    PiecesRTrimmed(u);
  }

  lemma CollapsedIs(t: string)
    ensures Collapsed(t) == RTrim(LTrim(Pieces(t, false))) && Trim(t) == RTrim(LTrim(t))
  {
    hide Pieces;
  }

  lemma PaddedIs(x: string, y: string)
    requires Padded(x, y)
    ensures x <= y && y == x + y[|x|..] && AllSpace(y[|x|..])
  {
  }

  lemma PiecesRTrimmed(u: string)
    requires u == [] || !IsSpace(u[|u| - 1])
    ensures RTrim(Pieces(u, false)) == Pieces(u, false)
  {
    if u != [] {
      PiecesEnds(u, false);
    }
  }

  // The shape a text has up to whitespace runs outside quotes and at the ends.
  function Shape(t: string): seq<Token> {
    Canon(Lex(Trim(t)), false)
  }

  predicate NothingAfterLineComment(t: string) {
    LinesLast(Lex(Trim(t)))
  }

  // Re-scanning what was collapsed finds the same spans in order, quoted ones verbatim, exactly when no
  // line comment is followed by anything but whitespace.
  lemma CollapsedRelexes(t: string)
    ensures Lex(Collapsed(t)) == Shape(t) <==> NothingAfterLineComment(t)
  {
    TrimFirst(t);
    Relex(Trim(t), false);
  }

  lemma QuotedFirst(x: Token, ts: seq<Token>)
    ensures Quoted([x] + ts) == (if x.Literal? then [x.text] else []) + Quoted(ts)
  {
    assert ([x] + ts)[1..] == ts;
  }

  lemma {:induction false} QuotedCanon(ts: seq<Token>, inRun: bool)
    ensures Quoted(Canon(ts, inRun)) == Quoted(ts)
  {
    hide IsSpace, Squash, Quoted;
    if ts != [] {
      var x, rest := ts[0], ts[1..];
      assert ts == [x] + rest;
      QuotedFirst(x, rest);
      match x {
        case Gap(c) =>
          QuotedCanon(rest, IsSpace(c));
          QuotedFirst(Gap(' '), Canon(rest, true));
          QuotedFirst(Gap(c), Canon(rest, false));
        case Line(s) =>
          QuotedCanon(rest, false);
          QuotedFirst(Line(Squash(s, false)), Canon(rest, false));
        case Block(s) =>
          QuotedCanon(rest, false);
          QuotedFirst(Block(Squash(s, false)), Canon(rest, false));
        case Literal(s) =>
          QuotedCanon(rest, false);
          QuotedFirst(x, Canon(rest, false));
      }
    }
  }

  lemma QuotedStep(t: string)
    requires t != []
    ensures var n := SpanLen(t);
            Quoted(Lex(t)) == (if n > 0 && IsQuote(t[0]) then [t[..n]]
              else []) + Quoted(Lex(t[if n == 0 then 1 else n..]))
  {
    var n := SpanLen(t);
    assert Lex(t)[1..] == Lex(t[if n == 0 then 1 else n..]);
  }

  lemma {:induction false} QuotedOfSpaces(w: string)
    requires AllSpace(w)
    ensures Quoted(Lex(w)) == []
  {
    if w != [] {
      QuotedStep(w);
      QuotedOfSpaces(w[1..]);
    }
  }

  lemma SpaceTail(w: string, k: nat)
    requires k <= |w| && AllSpace(w)
    ensures AllSpace(w[k..]) && AllSpace(w[..k])
  {
  }

  lemma {:induction false} QuotedTrailing(u: string, w: string)
    requires AllSpace(w)
    ensures Quoted(Lex(u + w)) == Quoted(Lex(u))
    decreases |u|
  {
    hide *;
    if u == [] {
      assert u + w == w && w[|w|..] == [];
      SpaceTail(w, |w|);
      QuotedOfSpaces([]);
      QuotedOfSpaces(w);
    } else {
      SpanLenTrailing(u, w);
      if SpanLen(u + w) == SpanLen(u) {
        var k := if SpanLen(u) == 0 then 1 else SpanLen(u);
        QuotedTrailing(u[k..], w);
        assert (u + w)[..k] == u[..k] && (u + w)[k..] == u[k..] + w;
        QuotedSameSpan(u, u + w, k);
      } else {
        var m := SpanLen(u + w);
        assert u[|u|..] == [] && (u + w)[m..] == w[m - |u|..];
        SpaceTail(w, m - |u|);
        SpaceTail(w, |w|);
        assert w[|w|..] == [];
        QuotedLine(u);
        QuotedLine(u + w);
        QuotedOfSpaces(u[|u|..]);
        QuotedOfSpaces(w[m - |u|..]);
      }
    }
  }

  lemma QuotedSameSpan(t: string, z: string, k: nat)
    requires t != [] && z != [] && SpanLen(z) == SpanLen(t)
    requires k == if SpanLen(t) == 0 then 1 else SpanLen(t)
    requires k <= |z| && t[..k] == z[..k] && Quoted(Lex(t[k..])) == Quoted(Lex(z[k..]))
    ensures Quoted(Lex(t)) == Quoted(Lex(z))
  {
    hide SpanLen, Lex, Quoted;
    QuotedStep(t);
    QuotedStep(z);
    assert t[0] == t[..k][0] == z[..k][0] == z[0];
  }

  lemma QuotedLine(t: string)
    requires t != [] && t[0] == '-' && SpanLen(t) > 0
    ensures Quoted(Lex(t)) == Quoted(Lex(t[SpanLen(t)..]))
  {
    QuotedStep(t);
  }

  lemma {:induction false} QuotedTrim(t: string)
    ensures Quoted(Lex(Trim(t))) == Quoted(Lex(t))
    decreases |t|
  {
    if t != [] && IsSpace(t[0]) {
      QuotedStep(t);
      QuotedTrim(t[1..]);
    } else {
      var u := RTrim(t);
      assert t == u + t[|u|..];
      QuotedTrailing(u, t[|u|..]);
    }
  }

  // The quoted spans come through untouched, in order.
  lemma QuotedSpansSurvive(t: string)
    requires NothingAfterLineComment(t)
    ensures Quoted(Lex(Collapsed(t))) == Quoted(Lex(t))
  {
    CollapsedRelexes(t);
    QuotedCanon(Lex(Trim(t)), false);
    QuotedTrim(t);
  }

  // Two texts collapse to one text exactly when they have one shape.
  lemma CollapsedIsCanonical(t: string, u: string)
    requires NothingAfterLineComment(t) && NothingAfterLineComment(u)
    ensures Collapsed(t) == Collapsed(u) <==> Shape(t) == Shape(u)
  {
    CollapsedRelexes(t);
    CollapsedRelexes(u);
    TrimFirst(t);
    TrimFirst(u);
  }

  // Texts of one shape collapse to one text, comments or not.
  lemma OneShapeOneText(t: string, u: string)
    requires Shape(t) == Shape(u)
    ensures Collapsed(t) == Collapsed(u)
  {
    TrimFirst(t);
    TrimFirst(u);
  }

  // A line comment takes in what stood on the next line, so that texts of two shapes collapse to one.
  lemma TwoShapesOneText()
    ensures Collapsed("--\nb") == Collapsed("-- b") && Shape("--\nb") != Shape("-- b")
  {
    var t, u := "--\nb", "-- b";
    assert Trim(t) == t && Trim(u) == u;
    TwoLines(t);
    OneLine(u);
    assert Shape(t) == Canon(Lex(t), false) && Shape(u) == Canon(Lex(u), false);
    hide *;
    TrimFirst(t);
    TrimFirst(u);
  }

  lemma TwoLines(t: string)
    requires t == "--\nb"
    ensures Pieces(t, false) == "-- b" && |Canon(Lex(t), false)| > 1
  {
    var rest := "\nb";
    assert t == "--" + rest && rest == "\n" + "b" && t[2..] == rest && "b"[1..] == "" && SpanLen("b") == 0;
    assert Squash("--", false) == "--" by { Squashed2("--"); }
    assert SpanLen(t) == 2;
    hide Squash, SpanLen, Pieces;
    DashesThen(t, rest);
    NewlineThen(rest, "b");
    Unfold("b", true);
    Unfold("", false);
    hide Canon, Lex;
    TokensBehind(t, 2);
  }

  lemma TokensBehind(t: string, n: nat)
    requires 0 < n == SpanLen(t) < |t|
    ensures |Canon(Lex(t), false)| > 1
  {
    hide SpanLen, Squash;
    assert Lex(t)[1..] == Lex(t[n..]);
    assert Lex(t[n..]) != [];
    assert Canon(Lex(t[n..]), false) != [];
  }

  lemma OneLine(u: string)
    requires u == "-- b"
    ensures Pieces(u, false) == u && |Canon(Lex(u), false)| == 1
  {
    assert LineLen(u[2..]) == |u[2..]| by { LineLenWhole(u[2..]); }
    assert SpanLen(u) == |u|;
    assert u[2..] == " b" && " b"[1..] == "b" && "b"[1..] == "";
    assert Squash(u, false) == u by { Squashed2(u); }
    assert u[..|u|] == u && u[|u|..] == "";
    hide Squash, SpanLen, LineLen;
    CommentWhole(u, false);
    hide Pieces;
    assert Lex(u) == [SpanToken(u)] + Lex("") == [SpanToken(u)];
    assert [SpanToken(u)][1..] == [];
    assert Canon(Lex(u), false) == [Line(Squash(u, false))] + Canon([], false);
  }

  // ----- collapsing twice

  predicate EndsInSpace(s: string) {
    s != [] && IsSpace(s[|s| - 1])
  }

  // No line comment with something behind it ends in whitespace, and no literal holds whitespace but
  // single spaces.
  predicate Quiet(ts: seq<Token>) {
    ts == [] || (
      && (ts[0].Line? && |ts| > 1 ==> !EndsInSpace(ts[0].text))
      && (ts[0].Literal? ==> Squash(ts[0].text, false) == ts[0].text)
      && Quiet(ts[1..]))
  }

  // From the first line comment on that something follows, which a second collapse takes for one comment.
  predicate Settles(ts: seq<Token>) {
    ts == [] || if ts[0].Line? && |ts| > 1 then Quiet(ts) else Settles(ts[1..])
  }

  lemma {:induction false} SquashShrinks(t: string, inRun: bool)
    ensures |Squash(t, inRun)| <= |t|
  {
    if t != [] {
      SquashShrinks(t[1..], IsSpace(t[0]));
    }
  }

  lemma {:induction false} PiecesShrink(t: string, inRun: bool)
    ensures |Pieces(t, inRun)| <= |t|
    decreases |t|
  {
    hide SpanLen, Lex, Canon, Flat, Pieces, IsSpace, Squash;
    Unfold(t, inRun);
    if t != [] {
      var n := SpanLen(t);
      if n == 0 {
        PiecesShrink(t[1..], IsSpace(t[0]));
      } else {
        PiecesShrink(t[n..], false);
        SquashShrinks(t[..n], false);
      }
    }
  }

  lemma BothOrNeither(a: string, b: string, x: string, y: string)
    requires |x| <= |a| && |y| <= |b|
    ensures x + y == a + b <==> x == a && y == b
  {
    assert x + y == a + b ==> |x| == |a| && (x + y)[..|x|] == (a + b)[..|a|] && (x + y)[|x|..] == (a + b)[|a|..];
  }

  // The conditions on the first token, and the same of the rest.
  lemma QuietStep(t: string)
    requires t != []
    ensures var n := SpanLen(t);
            Quiet(Lex(t)) ==
            if n == 0 then Quiet(Lex(t[1..])) else QuietSpan(t) && Quiet(Lex(t[n..]))
  {
    var n := SpanLen(t);
    assert Lex(t)[1..] == Lex(t[if n == 0 then 1 else n..]);
    if n > 0 {
      SpanStart(t);
      hide SpanLen, Squash, EndsInSpace;
      assert n < |t| <==> Lex(t[n..]) != [];
    }
  }

  predicate QuietSpan(t: string)
    requires t != []
  {
    var s := t[..SpanLen(t)];
    (t[0] == '-' && |s| < |t| ==> !EndsInSpace(s)) && (IsQuote(t[0]) ==> Squash(s, false) == s)
  }

  lemma SpanStart(t: string)
    requires t != [] && SpanLen(t) > 0
    ensures !IsSpace(t[0]) && (t[0] == '-' || ((t[0] == '/' || IsQuote(t[0])) && !IsSpace(t[SpanLen(t) - 1])))
    ensures t[0] == '-' && SpanLen(t) < |t| ==> t[SpanLen(t)] == '\n'
  {
  }

  lemma SquashOne(c: char, y: string, p: bool)
    ensures var x := if !IsSpace(c) then [c] + y else if p then y else [' '] + y;
            Squash(x, p) == x <==> Squash(y, IsSpace(c)) == y
  {
    assert ([c] + y)[1..] == y && ([' '] + y)[1..] == y;
    if !IsSpace(c) {
      SquashShrinks(y, false);
      BothOrNeither([c], y, [c], Squash(y, false));
    } else if !p {
      SquashShrinks(y, true);
      BothOrNeither([' '], y, [' '], Squash(y, true));
    }
  }

  lemma SquashSpan(t: string, p: bool)
    requires t != [] && SpanLen(t) > 0
    ensures var y := Pieces(t[SpanLen(t)..], false);
            Squash(Pieces(t, p), p) == Pieces(t, p) <==> QuietSpan(t) && Squash(y, false) == y
  {
    hide *;
    SpanFits(t);
    SpanStart(t);
    Unfold(t, p);
    var n := SpanLen(t);
    var s, y := t[..n], Pieces(t[n..], false);
    if n < |t| && t[0] == '-' {
      NewlineHead(t[n..]);
    }
    Unfold([], false);
    assert n == |t| ==> t[n..] == [];
    QuietSpanIs(t);
    SquashParts(s, y, p);
  }

  lemma QuietSpanIs(t: string)
    requires t != [] && 0 < SpanLen(t) <= |t|
    ensures var n := SpanLen(t);
            QuietSpan(t) == ((t[0] == '-' && n < |t| ==> !EndsInSpace(t[..n]))
              && (IsQuote(t[0]) ==> Squash(t[..n], false) == t[..n]))
    ensures t[0] == '-' ==> !IsQuote(t[0])
    ensures EndsInSpace(t[..SpanLen(t)]) == IsSpace(t[SpanLen(t) - 1])
  {
    hide SpanLen, Squash;
  }

  lemma SquashParts(s: string, y: string, p: bool)
    requires s != [] && !IsSpace(s[0]) && (EndsInSpace(s) ==> y == [] || y[0] == ' ')
    ensures var x := Written(s) + y;
            Squash(x, p) == x
            <==> (EndsInSpace(s) ==> y == []) && (IsQuote(s[0]) ==> Squash(s, false) == s) && Squash(y, false) == y
  {
    var w := Written(s);
    WrittenEnds(s, p);
    assert IsQuote(s[0]) ==> w == s;
    assert Squash([], true) == Squash([], false) == [];
    hide *;
    SquashConcat(w, y, p);
    SquashShrinks(w, false);
    SquashShrinks(y, EndsInSpace(s));
    BothOrNeither(w, y, Squash(w, false), Squash(y, EndsInSpace(s)));
    if y != [] && EndsInSpace(s) {
      RunShrinks(y);
    }
  }

  lemma RunShrinks(y: string)
    requires y != [] && y[0] == ' '
    ensures Squash(y, true) != y
  {
    SquashShrinks(y[1..], true);
  }

  lemma WrittenEnds(s: string, p: bool)
    requires s != [] && !IsSpace(s[0])
    ensures var w := Written(s);
            Squash(w, p) == Squash(w, false) && EndsInRun(w, p) == EndsInSpace(s)
              && (!IsQuote(s[0]) ==> Squash(w, false) == w)
  {
    SquashEnds(s, false);
    SquashHead(s, false);
    SquashHead(Written(s), p);
    if !IsQuote(s[0]) {
      SquashTwice(s, false, false);
    }
  }

  // What a second squash makes of the collapsed text, taken for one comment.
  lemma {:induction false} SquashSettles(t: string, p: bool)
    ensures Squash(Pieces(t, p), p) == Pieces(t, p) <==> Quiet(Lex(t))
    decreases |t|
  {
    if t != [] {
      hide *;
      var n := SpanLen(t);
      Unfold(t, p);
      QuietStep(t);
      if n == 0 {
        SquashSettles(t[1..], IsSpace(t[0]));
        SquashOne(t[0], Pieces(t[1..], IsSpace(t[0])), p);
      } else {
        SquashSettles(t[n..], false);
        SquashSpan(t, p);
      }
    }
  }

  lemma {:induction false} SquashedHasNoNewline(t: string, p: bool)
    ensures '\n' !in Squash(t, p)
  {
    if t != [] {
      SquashedHasNoNewline(t[1..], IsSpace(t[0]));
    }
  }

  // A text that begins with a line comment is collapsed as that comment, or changes.
  lemma CommentStays(z: string, p: bool)
    requires |z| > 1 && z[0] == z[1] == '-'
    ensures Pieces(z, p) == z <==> Squash(z, false) == z
  {
    var n := SpanLen(z);
    assert n == 2 + LineLen(z[2..]) && n <= |z|;
    assert n < |z| ==> z[n] == '\n';
    SquashedHasNoNewline(z, false);
    hide *;
    if n == |z| {
      assert z[..n] == z && z[n..] == [];
      CommentWhole(z, p);
    } else {
      CommentCut(z, n, p);
    }
  }

  lemma CommentWhole(z: string, p: bool)
    requires |z| > 1 && z[0] == '-' && SpanLen(z) == |z| && z[..|z|] == z && z[|z|..] == []
    ensures Pieces(z, p) == Squash(z, false)
  {
    Unfold(z, p);
    Unfold([], false);
  }

  lemma CommentCut(z: string, n: nat, p: bool)
    requires z != [] && z[0] == '-' && 0 < n == SpanLen(z) < |z| && z[n] == '\n'
    ensures Pieces(z, p) != z
  {
    hide *;
    var s, rest := z[..n], z[n..];
    assert z == s + rest;
    LineUnfold(z, p, s, rest);
    NewlineHead(rest);
    PiecesShrink(rest, false);
    SquashShrinks(s, false);
    BothOrNeither(s, rest, Squash(s, false), Pieces(rest, false));
    assert rest[0] == '\n';
  }

  // Collapsing again changes nothing from the first line comment on that something follows.
  lemma LineSettles(t: string, p: bool)
    requires t != [] && t[0] == '-' && 0 < SpanLen(t) < |t|
    ensures Pieces(Pieces(t, p), p) == Pieces(t, p) <==> Quiet(Lex(t))
  {
    var n := SpanLen(t);
    var s, rest := t[..n], t[n..];
    Unfold(t, p);
    Unfold(t, false);
    Squashed2(s);
    hide SpanLen, Pieces, Lex, Squash;
    var x := Pieces(t, p);
    assert x[0] == x[1] == '-';
    CommentStays(x, p);
    SquashSettles(t, false);
  }

  lemma SettlesStep(t: string)
    requires t != []
    ensures var n := SpanLen(t);
            Settles(Lex(t)) ==
            if n == 0 then Settles(Lex(t[1..]))
            else if t[0] == '-' && n < |t| then Quiet(Lex(t)) else Settles(Lex(t[n..]))
  {
    var n := SpanLen(t);
    assert Lex(t)[1..] == Lex(t[if n == 0 then 1 else n..]);
    if n > 0 {
      SpanStart(t);
      hide SpanLen, Quiet;
      assert n < |t| <==> Lex(t[n..]) != [];
    }
  }

  lemma SpanAgain(t: string, p: bool)
    requires t != [] && SpanLen(t) > 0 && (t[0] == '-' ==> SpanLen(t) == |t|)
    ensures var y := Pieces(t[SpanLen(t)..], false);
            Pieces(Pieces(t, p), p) == Pieces(t, p) <==> Pieces(y, false) == y
  {
    var n := SpanLen(t);
    var s := t[..n];
    var w, y := Written(s), Pieces(t[n..], false);
    SpanStart(t);
    SpanStays(t);
    Unfold(t, p);
    SquashHead(s, false);
    hide SpanLen, Pieces;
    WrittenEnds(s, p);
    hide Squash;
    assert (w + y)[..|w|] == w && (w + y)[|w|..] == y && (w + y)[0] == w[0];
    Unfold(w + y, p);
    assert Written(w) == w;
    PiecesShrink(y, false);
    BothOrNeither(w, y, w, Pieces(y, false));
  }

  lemma GapAgain(t: string, p: bool)
    requires t != [] && SpanLen(t) == 0
    ensures var y := Pieces(t[1..], IsSpace(t[0]));
            Pieces(Pieces(t, p), p) == Pieces(t, p) <==> Pieces(y, IsSpace(t[0])) == y
  {
    var c := t[0];
    var y := Pieces(t[1..], IsSpace(c));
    Unfold(t, p);
    if !(IsSpace(c) && p) {
      GapStays(t);
      var d := if IsSpace(c) then ' ' else c;
      var x := [d] + y;
      assert x[1..] == y && IsSpace(d) == IsSpace(c);
      hide SpanLen, Pieces;
      Unfold(x, p);
      PiecesShrink(y, IsSpace(c));
      BothOrNeither([d], y, [d], Pieces(y, IsSpace(c)));
    }
  }

  lemma {:induction false} PiecesSettle(t: string, p: bool)
    ensures Pieces(Pieces(t, p), p) == Pieces(t, p) <==> Settles(Lex(t))
    decreases |t|
  {
    if t != [] {
      hide *;
      var n := SpanLen(t);
      SettlesStep(t);
      if n == 0 {
        PiecesSettle(t[1..], IsSpace(t[0]));
        GapAgain(t, p);
      } else if t[0] == '-' && n < |t| {
        LineSettles(t, p);
      } else {
        SpanLenAtMost(t);
        PiecesSettle(t[n..], false);
        SpanAgain(t, p);
      }
    }
  }

  lemma SpanLenAtMost(t: string)
    ensures SpanLen(t) <= |t|
  {
  }

  // A second collapse changes nothing if and only if, from the first line comment on that something follows,
  // no such comment ends in whitespace and no literal holds whitespace but single spaces.
  lemma CollapseTwice(t: string)
    ensures Collapsed(Collapsed(t)) == Collapsed(t) <==> Settles(Lex(Trim(t)))
  {
    hide *;
    CollapsedIsTrimmed(t);
    TrimFirst(t);
    TrimFirst(Collapsed(t));
    PiecesSettle(Trim(t), false);
  }

  lemma CollapsedIsTrimmed(t: string)
    ensures Trim(Collapsed(t)) == Collapsed(t)
  {
    TrimTwice(Pieces(t, false));
  }

  // A text that a second collapse changes: the comment now runs over the literal.
  lemma LineCommentBreaksCollapse()
    ensures var t := "--\n'  '";
            !NothingAfterLineComment(t) && Collapsed(Collapsed(t)) != Collapsed(t)
  {
    var t, c := "--\n'  '", "-- '  '";
    assert Trim(t) == t && Trim(c) == c;
    assert Pieces(t, false) == c by { CommentThenLiteral(t); }
    TrimFirst(t);
    assert |Pieces(c, false)| < |c| by { CommentOnly(c); }
    TrimFirst(c);
    assert !LinesLast(Lex(t)) by { LineGrows(t); }
  }

  lemma CommentOnly(c: string)
    requires c == "-- '  '"
    ensures |Pieces(c, false)| < |c|
  {
    assert LineLen(c[2..]) == |c[2..]| by { LineLenWhole(c[2..]); }
    assert Pieces(c, false) == Squash(c, false) by {
      assert c[..|c|] == c && c[|c|..] == [];
      Unfold(c, false);
    }
    assert c == "-- ' " + " '";
    SquashConcat("-- ' ", " '", false);
    SquashShrinks("-- ' ", false);
    assert Squash(" '", true) == Squash("'", false) by { assert " '"[1..] == "'"; }
    SquashShrinks("'", false);
  }

  lemma CommentThenLiteral(t: string)
    requires t == "--\n'  '"
    ensures Pieces(t, false) == "-- '  '"
  {
    hide SpanLen, Lex, Canon, Flat, Pieces;
    var q, rest := t[3..], t[2..];
    assert q == "'  '" && rest[0] == '\n';
    LiteralOnly(q);
    NewlineThen(rest, q);
    assert t == "--" + rest;
    DashesThen(t, rest);
    assert Squash("--", false) == "--" by { Squashed2("--"); }
  }

  lemma NewlineThen(t: string, rest: string)
    requires t == "\n" + rest
    ensures Pieces(t, false) == " " + Pieces(rest, true)
  {
    assert t[1..] == rest;
    Unfold(t, false);
  }

  lemma DashesThen(t: string, rest: string)
    requires t == "--" + rest && rest != [] && rest[0] == '\n'
    ensures Pieces(t, false) == Squash("--", false) + Pieces(rest, false)
  {
    assert t[2..] == rest && t[..2] == "--" && SpanLen(t) == 2;
    Unfold(t, false);
  }

  lemma LiteralOnly(q: string)
    requires q == "'  '"
    ensures Pieces(q, true) == q
  {
    assert q[1..] == "  '" && q[1..][1..] == " '" && q[1..][1..][1..] == "'";
    assert Closes("'", '\'') && Closes(" '", '\'') && Closes(q[1..], '\'');
    assert QuoteLen("'", '\'') == 1 && QuoteLen(" '", '\'') == 2 && QuoteLen(q[1..], '\'') == 3;
    assert SpanLen(q) == 4;
    assert q[..4] == q && q[4..] == [];
    Unfold(q, true);
  }
}

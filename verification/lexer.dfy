/** The span scanner of the checksum normaliser, with the regex's own backtracking. */
module Lexer {
  import opened Text

  // A piece of a statement: a character outside every span, a comment, or a quoted span.
  datatype Token = Gap(c: char) | Line(text: string) | Block(text: string) | Literal(text: string)

  predicate IsQuote(c: char) {
    c == '\'' || c == '"' || c == '`'
  }

  // Does a quoted span opened just before `s` close somewhere in `s`? A quote always can: a doubled
  // quote that leads nowhere is given back by backtracking and read as the closing one.
  predicate Closes(s: string, q: char)
    requires IsQuote(q)
  {
    s != [] &&
    (s[0] == q || (if s[0] == '\\' then |s| > 1 && Closes(s[2..], q) else Closes(s[1..], q)))
  }

  // How much of `s` the body and the closing quote take: `(?:[^q\\]|\\.|qq)*q`.
  function QuoteLen(s: string, q: char): (n: nat)
    requires IsQuote(q) && Closes(s, q)
    ensures 0 < n <= |s| && s[n - 1] == q
  {
    if s[0] == q then
      if |s| > 1 && s[1] == q && Closes(s[2..], q) then 2 + QuoteLen(s[2..], q) else 1
    else if s[0] == '\\' then 2 + QuoteLen(s[2..], q)
    else 1 + QuoteLen(s[1..], q)
  }

  predicate HasBlockEnd(s: string) {
    |s| > 1 && ((s[0] == '*' && s[1] == '/') || HasBlockEnd(s[1..]))
  }

  // How much of `s` is left of a block comment: `.*?\*/`.
  function BlockLen(s: string): (n: nat)
    requires HasBlockEnd(s)
    ensures 2 <= n <= |s| && s[n - 1] == '/'
  {
    if s[0] == '*' && s[1] == '/' then 2 else 1 + BlockLen(s[1..])
  }

  function LineLen(s: string): (n: nat)
    ensures n <= |s|
    ensures forall i :: 0 <= i < n ==> s[i] != '\n'
    ensures n < |s| ==> s[n] == '\n'
  {
    if s == [] || s[0] == '\n' then 0 else 1 + LineLen(s[1..])
  }

  // The length of the span the regex matches at the head of `t`, and 0 where it matches none.
  function SpanLen(t: string): (n: nat)
    ensures n <= |t|
  {
    if |t| > 1 && t[0] == '-' && t[1] == '-' then 2 + LineLen(t[2..])
    else if |t| > 1 && t[0] == '/' && t[1] == '*' && HasBlockEnd(t[2..]) then 2 + BlockLen(t[2..])
    else if t != [] && IsQuote(t[0]) && Closes(t[1..], t[0]) then 1 + QuoteLen(t[1..], t[0])
    else 0
  }

  function SpanToken(s: string): Token
    requires s != []
  {
    if s[0] == '-' then Line(s) else if s[0] == '/' then Block(s) else Literal(s)
  }

  // The whole text, cut the way `finditer` cuts it.
  function Lex(t: string): (ts: seq<Token>) {
    if t == [] then []
    else
      var n := SpanLen(t);
      if n == 0 then [Gap(t[0])] + Lex(t[1..]) else [SpanToken(t[..n])] + Lex(t[n..])
  }

  // The quoted spans of a text, in order.
  function Quoted(ts: seq<Token>): seq<string> {
    if ts == [] then []
    else (if ts[0].Literal? then [ts[0].text] else []) + Quoted(ts[1..])
  }

  // ----- what whitespace cannot change

  lemma {:induction false} ClosesSquashed(s: string, q: char, inRun: bool)
    requires IsQuote(q)
    ensures Closes(Squash(s, inRun), q) == Closes(s, q)
  {
    if s != [] {
      var z := Squash(s, inRun);
      if IsSpace(s[0]) {
        ClosesSquashed(s[1..], q, true);
        assert !inRun ==> z[1..] == Squash(s[1..], true);
      } else if s[0] == '\\' && |s| > 1 {
        ClosesSquashed(s[2..], q, IsSpace(s[1]));
        var y := Squash(s[1..], false);
        assert s[1..][1..] == s[2..];
        assert y[1..] == Squash(s[2..], IsSpace(s[1]));
        assert z == ['\\'] + y;
        assert z[2..] == y[1..];
      } else {
        ClosesSquashed(s[1..], q, false);
        assert z[1..] == Squash(s[1..], false);
      }
    }
  }

  lemma {:induction false} ClosesTrailing(s: string, w: string, q: char)
    requires IsQuote(q) && AllSpace(w)
    ensures Closes(s + w, q) == Closes(s, q)
  {
    if s == [] {
      if w != [] {
        assert (s + w)[1..] == [] + w[1..];
        ClosesTrailing([], w[1..], q);
      }
    } else if s[0] == '\\' {
      if |s| > 1 {
        assert (s + w)[2..] == s[2..] + w;
        ClosesTrailing(s[2..], w, q);
      } else if |w| > 0 {
        assert (s + w)[2..] == [] + w[1..];
        ClosesTrailing([], w[1..], q);
      }
    } else {
      assert (s + w)[1..] == s[1..] + w;
      ClosesTrailing(s[1..], w, q);
    }
  }

  // A quoted span keeps its end when what follows it changes, if the change leaves the answer to
  // "does a quote right after it close again" alone.
  lemma {:induction false} QuoteLenStable(u: string, x: string, y: string, q: char)
    requires IsQuote(q) && Closes(u + x, q) && QuoteLen(u + x, q) == |u|
    requires (x != [] && x[0] == q) == (y != [] && y[0] == q)
    requires x != [] && x[0] == q ==> Closes(x[1..], q) == Closes(y[1..], q)
    ensures Closes(u + y, q) && QuoteLen(u + y, q) == |u|
  {
    var s, z := u + x, u + y;
    assert s[0] == u[0] == z[0];
    if s[0] == q && |u| == 1 {
      assert s[1..] == x && z[1..] == y;
      assert x != [] ==> s[2..] == x[1..];
      assert y != [] ==> z[2..] == y[1..];
    } else {
      var k := if s[0] == q || s[0] == '\\' then 2 else 1;
      assert s[1] == u[1] == z[1] || k == 1;
      assert s[k..] == u[k..] + x && z[k..] == u[k..] + y;
      QuoteLenStable(u[k..], x, y, q);
    }
  }

  // Backtracking gives a quote back only where nothing further on closes the span.
  lemma {:induction false} NothingClosesAfter(u: string, x: string, q: char)
    requires IsQuote(q) && Closes(u + x, q) && QuoteLen(u + x, q) == |u|
    requires x != [] && x[0] == q
    ensures !Closes(x[1..], q)
  {
    var s := u + x;
    assert s[0] == u[0];
    if s[0] == q && |u| == 1 {
      assert s[2..] == x[1..];
    } else {
      var k := if s[0] == q || s[0] == '\\' then 2 else 1;
      assert s[k..] == u[k..] + x;
      NothingClosesAfter(u[k..], x, q);
    }
  }

  lemma {:induction false} BlockEndSquashed(s: string, inRun: bool)
    ensures HasBlockEnd(Squash(s, inRun)) == HasBlockEnd(s)
  {
    if s != [] {
      var z := Squash(s, inRun);
      BlockEndSquashed(s[1..], IsSpace(s[0]));
      if IsSpace(s[0]) {
        assert !inRun ==> z[1..] == Squash(s[1..], true);
      } else {
        assert z[1..] == Squash(s[1..], false);
        if s[1..] != [] {
          SquashHead(s[1..], false);
        }
      }
    }
  }

  lemma {:induction false} BlockEndTrailing(s: string, w: string)
    requires AllSpace(w)
    ensures HasBlockEnd(s + w) == HasBlockEnd(s)
  {
    if s == [] {
      if w != [] {
        assert (s + w)[1..] == [] + w[1..];
        BlockEndTrailing([], w[1..]);
      }
    } else {
      assert (s + w)[1..] == s[1..] + w;
      BlockEndTrailing(s[1..], w);
    }
  }

  // A block comment ends at the same mark whatever follows it.
  lemma {:induction false} BlockLenStable(u: string, x: string, y: string)
    requires HasBlockEnd(u + x) && BlockLen(u + x) == |u|
    ensures HasBlockEnd(u + y) && BlockLen(u + y) == |u|
  {
    assert (u + x)[0] == u[0] && (u + x)[1] == u[1];
    if !(u[0] == '*' && u[1] == '/') {
      assert (u + x)[1..] == u[1..] + x && (u + y)[1..] == u[1..] + y;
      BlockLenStable(u[1..], x, y);
    }
  }

  // A squashed block comment ends at its own end too.
  lemma {:induction false} BlockLenSquashed(u: string, inRun: bool)
    requires HasBlockEnd(u) && BlockLen(u) == |u|
    ensures var z := Squash(u, inRun); HasBlockEnd(z) && BlockLen(z) == |z|
  {
    var z, rest := Squash(u, inRun), u[1..];
    if u[0] == '*' && u[1] == '/' {
      assert rest[1..] == [];
      assert Squash(rest, false) == ['/'] + Squash([], false) == "/";
      assert z == "*/";
    } else {
      BlockLenSquashed(rest, IsSpace(u[0]));
      BlockEndSquashed(rest, IsSpace(u[0]));
      var y := Squash(rest, IsSpace(u[0]));
      if !(IsSpace(u[0]) && inRun) {
        assert z[1..] == y;
        SquashHead(rest, IsSpace(u[0]));
      }
    }
  }

  // Outside a run, squashing keeps the first character, up to which whitespace it is.
  lemma SquashHead(t: string, inRun: bool)
    requires t != []
    ensures !(inRun && IsSpace(t[0])) ==>
              Squash(t, inRun) != [] && Squash(t, inRun)[0] == if IsSpace(t[0]) then ' ' else t[0]
    ensures !IsSpace(t[0]) ==> Squash(t, inRun) == Squash(t, false)
  {
  }

  lemma {:induction false} LineLenWhole(s: string)
    requires forall i :: 0 <= i < |s| ==> s[i] != '\n'
    ensures LineLen(s) == |s|
  {
    if s != [] {
      LineLenWhole(s[1..]);
    }
  }
}

/** The text that the one-DDL gate reads of a rendered CREATE TABLE. */
module Reading {
  import opened Text
  import opened Scan
  import opened Words
  import opened Literals
  import opened Gate
  import opened Atoms
  import opened Comments
  import opened Searches
  import opened Pieces
  import opened Rendered
  import opened Wrappers
  import E = Engines

  function Name(t: Table): string { "Replicated" + t.family }

  function Create(): string { "CREATE TABLE IF NOT EXISTS `" }

  // Everything behind the database's name.
  function Rest(t: Table): seq<Piece> {
    TargetPieces(t) + (EnginePieces(t) + AfterEngine(t))
  }

  // ----- the gate reads the whole statement

  lemma NameIsLetters(t: Table)
    requires E.IsFamily(t.family)
    ensures |Name(t)| >= 19 && forall i :: 0 <= i < |Name(t)| ==> 'a' <= Name(t)[i] <= 'z' || 'A' <= Name(t)[i] <= 'Z'
  {
    assert forall i :: 0 <= i < 10 ==> 'a' <= "Replicated"[i] <= 'z' || 'A' <= "Replicated"[i] <= 'Z';
  }

  lemma LetterIsClean(c: char)
    requires 'a' <= c <= 'z' || 'A' <= c <= 'Z'
    ensures !IsSpace(c) && !IsBreak(c) && IsReadable(Ch(c)) && c != '='
  {
  }

  lemma LettersAreClean(n: string)
    requires forall i :: 0 <= i < |n| ==> 'a' <= n[i] <= 'z' || 'A' <= n[i] <= 'Z'
    ensures CleanClause(Plain(n))
  {
    hide IsSpace, IsBreak, IsReadable, FindsAssign, FindsCluster, Skeleton, Plain, IsAssignment;
    PlainText(n);
    PlainAtoms(n);
    forall i | 0 <= i < |n| ensures !IsSpace(n[i]) && n[i] != '=' {
      LetterIsClean(n[i]);
    }
    forall a | a in Plain(n) ensures IsReadable(a) && !IsBreak(a.c) {
      LetterIsClean(a.c);
    }
    NoSpaceNoCluster(n, false);
    NoEqualsNoAssign(n, false);
  }

  lemma EngineIsGood(t: Table)
    requires E.IsFamily(t.family)
    ensures forall p <- EnginePieces(t) :: Good(p)
  {
    NameIsLetters(t);
    LettersAreClean(Name(t));
    EngineLead();
    hide IsLead, Orderly, After, StartsLine, Settled;
  }

  lemma RestIsGood(t: Table)
    requires Accepted(t) && CleanTable(t)
    ensures forall p <- Rest(t) :: Good(p)
  {
    TargetGood(t);
    AfterGood(t);
    EngineIsGood(t);
    hide Good, Told, Accepted, CleanTable, TargetPieces, EnginePieces, AfterEngine;
  }

  lemma EndsConcat(a: seq<Piece>, b: seq<Piece>)
    requires EndsMidLine(Compose(b))
    ensures EndsMidLine(Compose(a + b))
  {
    ComposeConcat(a, b);
    hide Compose;
    var x, y := Compose(a), Compose(b);
    assert (x + y)[|x + y| - 1] == y[|y| - 1];
  }

  lemma ClauseEnds(lead: string, c: Clause)
    requires c != [] && OneLiner(c)
    ensures EndsMidLine(Compose([Piece(lead, c)]))
  {
    hide Plain, IsBreak;
    assert IsBreak('\n') by { NewlineBreaks(); }
    assert [Piece(lead, c)][1..] == [] && Compose([]) == [];
    var all := Plain(lead) + c;
    assert Compose([Piece(lead, c)]) == all + [] == all;
    assert all[|all| - 1] == c[|c| - 1] && c[|c| - 1] in c;
  }

  lemma NewlineBreaks()
    ensures IsBreak('\n')
  {
  }

  lemma QuotedIsOneLiner(text: string)
    ensures OneLiner(Quoted(text)) && Quoted(text) != []
  {
    hide Escaped;
  }

  lemma CleanIsOneLiner(c: Clause)
    requires CleanLine(c)
    ensures OneLiner(c)
  {
    hide Readable, OneLiner, Skeleton;
  }

  lemma {:induction false} ListEnds(lead: string, clauses: seq<Clause>)
    requires clauses != [] && forall c <- clauses :: CleanLine(c) && c != []
    ensures EndsMidLine(Compose(ListPieces(lead, clauses)))
    decreases |clauses|
  {
    hide CleanLine, OneLiner, EndsMidLine, Compose;
    var first, more := [Piece(lead, clauses[0])], clauses[1..];
    if more == [] {
      CleanIsOneLiner(clauses[0]);
      ClauseEnds(lead, clauses[0]);
      assert ListPieces(lead, clauses) == first + [] == first;
    } else {
      ListEnds(",\n    ", more);
      EndsConcat(first, ListPieces(",\n    ", more));
    }
  }

  lemma CommentEnds(lead: string, comment: Option<string>)
    requires comment.Some?
    ensures EndsMidLine(Compose(CommentPieces(lead, comment)))
  {
    hide EndsMidLine, Compose, OneLiner, Quoted;
    QuotedIsOneLiner(comment.value);
    ClauseEnds(lead, Quoted(comment.value));
  }

  lemma SettingsEndMidLine(t: Table)
    requires CleanBody(t)
    ensures EndsMidLine(Compose(SettingsPieces(t)))
  {
    hide *;
    TableSettings(t);
    ListEnds("\nSETTINGS\n    ", AssignedAll(Settings(t)));
  }

  lemma FootEnds(t: Table)
    requires CleanBody(t)
    ensures EndsMidLine(Compose(Foot(t)))
  {
    hide EndsMidLine, Compose, CleanBody, SettingsPieces;
    SettingsEndMidLine(t);
    if t.comment == None {
      assert SettingsPieces(t) + [] == SettingsPieces(t);
    } else {
      CommentEnds("\nCOMMENT ", t.comment);
      EndsConcat(SettingsPieces(t), CommentPieces("\nCOMMENT ", t.comment));
    }
  }

  lemma RestEnds(t: Table)
    requires CleanBody(t)
    ensures EndsMidLine(Compose(Rest(t)))
  {
    FootEnds(t);
    hide CleanBody, Compose, EndsMidLine, ParamsPieces, OptionPieces, OrderPieces, ListPieces, TargetPieces,
      EnginePieces, SettingsPieces, CommentPieces;
    var ttl, order, partition := ListPieces("\nTTL ", t.ttl), OrderPieces(t.order),
      OptionPieces("\nPARTITION BY ", t.partition);
    EndsConcat(ttl, Foot(t));
    EndsConcat(order, ttl + Foot(t));
    EndsConcat(partition, order + (ttl + Foot(t)));
    EndsConcat(ParamsPieces(t.params), partition + (order + (ttl + Foot(t))));
    EndsConcat(EnginePieces(t), AfterEngine(t));
    EndsConcat(TargetPieces(t), EnginePieces(t) + AfterEngine(t));
  }

  lemma HeadComposes(lead: string, name: string, rest: seq<Piece>)
    ensures Compose([Piece(lead, Plain(name))] + rest) == Plain(lead) + Plain(name) + Compose(rest)
    ensures Bare([Piece(lead, Plain(name))] + rest) == lead + (name + Bare(rest))
  {
    PlainText(name);
    var all := [Piece(lead, Plain(name))] + rest;
    assert all[0] == Piece(lead, Plain(name)) && all[1..] == rest;
    hide Plain, Skeleton;
  }

  lemma HeadIsReadable(lead: string, name: string, rest: seq<Atom>)
    requires Neutral(lead) && Orderly(Plain(name)) && Readable(rest)
    ensures Readable(Plain(lead) + Plain(name) + rest)
  {
    assert '\'' !in lead;
    PlainIsReadable(lead);
    hide IsReadable, Plain, Neutral;
  }

  lemma HeadStays(lead: string, name: string, rest: seq<Atom>)
    requires Neutral(lead) && !After(lead, true) && Orderly(Plain(name)) && NoComment(rest, true)
        && NoComment(rest, false)
    requires EndsMidLine(rest)
    ensures NoComment(Plain(lead) + Plain(name) + rest, true) && EndsMidLine(Plain(lead) + Plain(name) + rest)
  {
    hide Plain, Neutral, NoComment, After, OneLiner;
    PieceNoComment(lead, Plain(name), rest, true);
    var all := Plain(lead) + Plain(name) + rest;
    assert all[|all| - 1] == rest[|rest| - 1];
  }

  lemma CreateTableIs(t: Table)
    requires Accepted(t)
    ensures CreateTable(t) == Some(Compose(AllPieces(t)))
  {
    hide Accepted, Compose, AllPieces;
  }

  // What can be cut off behind the head and still leaves it readable.
  lemma HeadReads(t: Table, rest: seq<Piece>)
    requires QuoteIdent(t.database).Some? && (forall p <- rest :: Good(p))
    ensures var all := Compose([Piece(Create(), Plain(t.database))] + rest);
            Readable(all) && (EndsMidLine(Compose(rest)) ==> NoComment(all, true) && EndsMidLine(all))
  {
    GoodPieces(rest);
    NameIsOrderly(t.database);
    HeadLead();
    hide *;
    ComposeIsReadable(rest);
    NoCommentInPieces(rest, true);
    NoCommentInPieces(rest, false);
    HeadComposes(Create(), t.database, rest);
    assert Create() == "CREATE TABLE IF NOT EXISTS `" by { CreateIs(); }
    HeadIsReadable(Create(), t.database, Compose(rest));
    if EndsMidLine(Compose(rest)) {
      HeadStays(Create(), t.database, Compose(rest));
    }
  }

  // No line is a comment and no literal runs on, so the gate reads the statement with its literals emptied.
  lemma StatementReads(t: Table)
    requires Accepted(t) && CleanTable(t)
    ensures GateText(Flat(CreateTable(t).value)) == Skeleton(CreateTable(t).value) == Bare(AllPieces(t))
  {
    RestIsGood(t);
    RestEnds(t);
    assert QuoteIdent(t.database).Some?;
    assert AllPieces(t) == [Piece(Create(), Plain(t.database))] + Rest(t);
    hide *;
    CreateTableIs(t);
    HeadReads(t, Rest(t));
    GateReadsAll(Compose(AllPieces(t)));
    ComposeSkeleton(AllPieces(t));
  }

  lemma CreateIs()
    ensures Create() == "CREATE TABLE IF NOT EXISTS `"
  {
  }

  lemma HeadHalf(t: Table)
    ensures AllPieces(t) == [Piece(Create(), Plain(t.database))] + Rest(t)
    ensures Bare(AllPieces(t)) == Create() + (t.database + Bare(Rest(t)))
  {
    hide TargetPieces, EnginePieces, AfterEngine, Plain, Bare;
    HeadComposes(Create(), t.database, Rest(t));
  }

  lemma FirstBare(lead: string, c: Clause, rest: seq<Piece>)
    ensures Bare([Piece(lead, c)] + rest) == lead + (Skeleton(c) + Bare(rest))
    ensures [Piece(lead, c)] + [] == [Piece(lead, c)]
  {
    var all := [Piece(lead, c)] + rest;
    assert all[0] == Piece(lead, c) && all[1..] == rest;
    hide Skeleton;
  }

  // ----- a literal that is not closed

  lemma {:induction false} NoQuoteNoEnd(y: string)
    requires '\'' !in y
    ensures BodyLen(y) == 0
    decreases |y|
  {
    if |y| > 1 && y[0] == '\\' {
      NoQuoteNoEnd(y[2..]);
    } else if y != "" {
      NoQuoteNoEnd(y[1..]);
    }
  }

  lemma {:induction false} NeverCloses(text: string, y: string)
    requires '\'' !in y
    ensures BodyLen(Escaped(text) + y) == 0
  {
    if text == "" {
      NoQuoteNoEnd(y);
      assert "" + y == y;
    } else {
      NeverCloses(text[1..], y);
      EscapedFirst(text);
      var e, t := EscapedChar(text[0]), Escaped(text) + y;
      assert t == e + (Escaped(text[1..]) + y);
      assert t[|e|..] == Escaped(text[1..]) + y;
      assert t[0] == e[0] && (|e| == 2 ==> t[1] == e[1]);
      hide Escaped;
    }
  }

  lemma NotQuoted(text: string, y: string)
    requires '\'' !in y
    ensures QuotedLen("'" + (Escaped(text) + y)) == 0
  {
    NeverCloses(text, y);
    assert ("'" + (Escaped(text) + y))[1..] == Escaped(text) + y;
  }

  lemma BlankedOther(c: char, t: string)
    requires c != '\'' || QuotedLen([c] + t) == 0
    ensures Blanked([c] + t) == [c] + Blanked(t)
  {
    assert ([c] + t)[1..] == t;
  }

  lemma {:induction false} NoQuoteStays(y: string)
    requires '\'' !in y
    ensures Blanked(y) == y
  {
    if y != "" {
      NoQuoteStays(y[1..]);
      BlankedOther(y[0], y[1..]);
      assert y == [y[0]] + y[1..];
    }
  }

  // Nothing of it is blanked, nor of what follows it, if no quote does.
  lemma {:induction false} UnclosedStays(text: string, y: string)
    requires '\'' !in y
    ensures Blanked(Escaped(text) + y) == Escaped(text) + y
        && Blanked("'" + (Escaped(text) + y)) == "'" + (Escaped(text) + y)
  {
    hide Blanked, QuotedLen;
    if text == "" {
      NoQuoteStays(y);
      assert Escaped("") + y == y;
    } else {
      var c, more := text[0], Escaped(text[1..]) + y;
      UnclosedStays(text[1..], y);
      NotQuoted(text[1..], y);
      EscapedFirst(text);
      assert Escaped(text) + y == EscapedChar(c) + more;
      if c == '\'' || c == '\\' {
        var q := [c] + more;
        BlankedOther(c, more);
        BlankedOther('\\', q);
        assert EscapedChar(c) + more == "\\" + q;
      } else {
        BlankedOther(c, more);
      }
    }
    NotQuoted(text, y);
    BlankedOther('\'', Escaped(text) + y);
  }

  // ----- the last literal of a statement

  // Text outside literals.
  ghost predicate Unquoted(atoms: seq<Atom>) {
    forall a <- atoms :: a.Ch? && a.c != '\''
  }

  // What can stand behind the last literal where it ends its line: nothing, or further lines with no comment line
  // among them.
  ghost predicate EndsLine(tail: seq<Atom>) {
    Unquoted(tail) && NoComment(tail, false) && (tail == [] || (tail[0] == Ch('\n') && EndsMidLine(tail)))
  }

  lemma {:induction false} UnquotedText(tail: seq<Atom>)
    requires Unquoted(tail)
    ensures '\'' !in Flat(tail) && Skeleton(tail) == Flat(tail) && Tidied(tail) == tail && Emptied(tail) == tail
  {
    if tail != [] {
      assert tail[0] in tail;
      UnquotedText(tail[1..]);
      assert tail == [tail[0]] + tail[1..];
    }
  }

  lemma TailIsKept(tail: seq<Atom>)
    requires EndsLine(tail)
    ensures Kept(Flat(tail)) == Flat(tail)
    ensures var y := Flat(tail);
            y == "" || (y[0] == '\n' && !IsCommentLine(Lines(y[1..])[0]) && !IsBreak(y[|y| - 1]))
  {
    UnquotedText(tail);
    var y := Flat(tail);
    assert y + "" == y;
    assert Readable(tail) by { hide Steady; }
    KeptNothing();
    if tail != [] {
      assert y == "\n" + Flat(tail[1..]) && y[1..] == Flat(tail[1..]);
      assert Flat(tail[1..]) + "" == Flat(tail[1..]);
      assert NoComment(tail[1..], true) by { assert IsBreak('\n'); }
      FlatEnds(tail);
      FirstIsKept(tail[1..], "");
    }
    hide Kept, Flat, NoComment, Lines, IsCommentLine;
    KeptAtoms(tail, "");
  }

  lemma EndsInQuote(a: string, b: string)
    ensures var t := a + ("'" + b + "'"); t != "" && !IsBreak(t[|t| - 1])
  {
    assert (a + ("'" + b + "'"))[|a + ("'" + b + "'")| - 1] == '\'';
  }

  lemma EndsAsTail(a: string, b: string, y: string)
    requires y == "" || !IsBreak(y[|y| - 1])
    ensures var t := a + ("'" + b + "'" + y); t != "" && !IsBreak(t[|t| - 1])
  {
    var t := a + ("'" + b + "'" + y);
    if y == "" {
      assert t == a + ("'" + b + "'");
      EndsInQuote(a, b);
    } else {
      assert t[|t| - 1] == y[|y| - 1];
    }
  }

  lemma KeptSpills(head: seq<Atom>, body: string, tail: seq<Atom>)
    requires Readable(head) && NoComment(head, true) && !Harmless(body) && EndsLine(tail)
    ensures GateText(Flat(head) + ("'" + body + "'" + Flat(tail)))
        == Blanked(Flat(Tidied(head)) + ("'" + Tidy(body) + Flat(tail)))
  {
    var y := Flat(tail);
    var q := "'" + body + "'" + y;
    assert Quotes(q);
    hide *;
    TailIsKept(tail);
    FirstIsKept(head, q);
    EndsAsTail(Flat(head), body, y);
    GateKeeps(Flat(head) + q);
    NoCommentMore(head);
    KeptAtoms(head, q);
    KeptUnclosed(body, y);
  }

  // Where the literal loses its last line and its closing quote, the gate reads what is left of it as if it were
  // part of the statement.
  lemma LiteralSpills(head: seq<Atom>, text: string, tail: seq<Atom>)
    requires Readable(head) && NoComment(head, true) && !Harmless(text) && EndsLine(tail)
    ensures GateText(Flat(head) + ("'" + Escaped(text) + "'" + Flat(tail)))
         == Skeleton(head) + ("'" + (Escaped(Tidy(text)) + Flat(tail)))
  {
    TidyEscaped(text);
    UnquotedText(tail);
    hide *;
    KeptSpills(head, Escaped(text), tail);
    Assoc("'", Escaped(Tidy(text)), Flat(tail));
    TidiedIs(head);
    BlankedBefore(Tidied(head), "'" + (Escaped(Tidy(text)) + Flat(tail)));
    UnclosedStays(Tidy(text), Flat(tail));
    SkeletonIs(head);
    SkeletonIs(Tidied(head));
  }

  lemma EscapedIsNoQuote(text: string)
    ensures Escaped(text) != "'"
  {
    if text != "" {
      assert Escaped(text)[0] == EscapedChar(text[0])[0];
    }
  }

  lemma SpillShows(s: string, e: string, y: string)
    requires e != "'"
    ensures s + ("'" + (e + y)) != s + ("''" + y)
  {
    assert (s + ("'" + (e + y)))[|s| + 1..] == e + y;
    assert (s + ("''" + y))[|s| + 1..] == "'" + y;
    assert e == (e + y)[..|e|] && "'" == ("'" + y)[..1];
  }

  lemma {:induction false} NoCommentAround(head: seq<Atom>, body: string, tail: seq<Atom>, atStart: bool)
    requires NoComment(head, atStart) && NoComment(tail, false)
    ensures NoComment(head + [Lit(body)] + tail, atStart)
  {
    var all := head + [Lit(body)] + tail;
    if head == [] {
      assert all[0] == Lit(body) && all[1..] == tail;
    } else {
      assert all[0] == head[0] && all[1..] == head[1..] + [Lit(body)] + tail;
      assert |head| > 1 ==> all[1] == head[1];
      var c := head[0];
      NoCommentAround(head[1..], body, tail, c.Ch? && (IsBreak(c.c) || (atStart && IsSpace(c.c))));
    }
  }

  lemma AroundLiteral(head: seq<Atom>, text: string, tail: seq<Atom>)
    requires Unquoted(tail)
    ensures var all := head + [Lit(Escaped(text))] + tail;
            && Flat(all) == Flat(head) + ("'" + Escaped(text) + "'" + Flat(tail))
            && Skeleton(all) == Skeleton(head) + ("''" + Flat(tail))
  {
    hide *;
    var lit := [Lit(Escaped(text))];
    OneLit(Escaped(text));
    UnquotedText(tail);
    FlatConcat(head + lit, tail);
    FlatConcat(head, lit);
    SkeletonConcat(head + lit, tail);
    SkeletonConcat(head, lit);
    Assoc(Flat(head), Flat(lit), Flat(tail));
    Assoc(Skeleton(head), Skeleton(lit), Flat(tail));
  }

  // Any statement whose last literal ends its line is read whole exactly when that literal keeps its end.
  lemma LastLiteralDecides(head: seq<Atom>, text: string, tail: seq<Atom>)
    requires Readable(head) && NoComment(head, true) && EndsLine(tail)
    ensures var all := head + [Lit(Escaped(text))] + tail; GateText(Flat(all)) == Skeleton(all) <==> Harmless(text)
  {
    var all := head + [Lit(Escaped(text))] + tail;
    AroundLiteral(head, text, tail);
    if Harmless(text) {
      CommentIsSteady(text);
      assert Readable(all) by { hide Steady; }
      assert EndsMidLine(all) by {
        assert all[|all| - 1] == if tail == [] then Lit(Escaped(text)) else tail[|tail| - 1];
      }
      hide *;
      NoCommentAround(head, Escaped(text), tail, true);
      GateReadsAll(all);
    } else {
      hide *;
      LiteralSpills(head, text, tail);
      EscapedIsNoQuote(Tidy(text));
      SpillShows(Skeleton(head), Escaped(Tidy(text)), Flat(tail));
    }
  }

  // ----- the table's comment

  // The statement up to its comment.
  function UpToComment(t: Table): seq<Piece> {
    TargetPieces(t) + (EnginePieces(t) + (BeforeComment(t) + [Piece("\nCOMMENT ", [])]))
  }

  function CommentHead(t: Table): seq<Atom> {
    Compose([Piece(Create(), Plain(t.database))] + UpToComment(t))
  }

  lemma UpToCommentGood(t: Table)
    requires Accepted(t) && CleanBody(t)
    ensures forall p <- UpToComment(t) :: Good(p)
  {
    TargetGood(t);
    BeforeCommentGood(t);
    EngineIsGood(t);
    TableCommentLead();
    EmptyPiece("\nCOMMENT ");
    hide Good, Told, Accepted, CleanBody, TargetPieces, EnginePieces, BeforeComment;
  }

  lemma CommentLeadEnds()
    ensures EndsMidLine(Compose([Piece("\nCOMMENT ", [])]))
  {
    var l := "\nCOMMENT ";
    OneComposed(l, []);
    PlainAt(l, 8);
    hide Plain;
    assert Plain(l) + [] == Plain(l);
    assert l[8] == ' ';
  }

  lemma {:induction false} PlainAt(t: string, i: nat)
    requires i < |t|
    ensures Plain(t)[i] == Ch(t[i])
  {
    if i > 0 {
      PlainAt(t[1..], i - 1);
    }
  }

  lemma OneComposed(lead: string, c: Clause)
    ensures Compose([Piece(lead, c)]) == Plain(lead) + c
  {
    hide Plain;
    assert [Piece(lead, c)][1..] == [] && Compose([]) == [];
    assert Plain(lead) + c + [] == Plain(lead) + c;
  }

  lemma CommentHeadReads(t: Table)
    requires Accepted(t) && CleanBody(t)
    ensures Readable(CommentHead(t)) && NoComment(CommentHead(t), true)
  {
    UpToCommentGood(t);
    CommentLeadEnds();
    assert QuoteIdent(t.database).Some?;
    assert CommentHead(t) == Compose([Piece(Create(), Plain(t.database))] + UpToComment(t));
    assert UpToComment(t) == TargetPieces(t) + (EnginePieces(t) + (BeforeComment(t) + [Piece("\nCOMMENT ", [])]));
    hide *;
    EndsConcat(BeforeComment(t), [Piece("\nCOMMENT ", [])]);
    EndsConcat(EnginePieces(t), BeforeComment(t) + [Piece("\nCOMMENT ", [])]);
    EndsConcat(TargetPieces(t), EnginePieces(t) + (BeforeComment(t) + [Piece("\nCOMMENT ", [])]));
    HeadReads(t, UpToComment(t));
  }

  lemma CommentHeadIs(t: Table)
    ensures CommentHead(t) == Compose([Piece(Create(), Plain(t.database))] + UpToComment(t))
    ensures UpToComment(t) == TargetPieces(t) + (EnginePieces(t) + (BeforeComment(t) + [Piece("\nCOMMENT ", [])]))
  {
    hide Compose, Plain, TargetPieces, EnginePieces, BeforeComment;
  }

  lemma PiecesWithComment(t: Table)
    requires t.comment.Some?
    ensures AllPieces(t)
         == [Piece(Create(), Plain(t.database))]
            + (TargetPieces(t) + (EnginePieces(t)
              + (BeforeComment(t) + [Piece("\nCOMMENT ", Quoted(t.comment.value))])))
  {
    AfterIs(t);
    HeadHalf(t);
    hide Plain, TargetPieces, EnginePieces, AfterEngine, BeforeComment, AllPieces, Create, Quoted;
  }

  // The literal of the comment ends the statement.
  lemma CommentIsLast(t: Table)
    requires t.comment.Some?
    ensures Compose(AllPieces(t)) == CommentHead(t) + Quoted(t.comment.value)
  {
    hide *;
    var quoted, lead := Quoted(t.comment.value), "\nCOMMENT ";
    OneComposed(lead, quoted);
    OneComposed(lead, []);
    CommentHeadIs(t);
    PiecesWithComment(t);
    var head, target, engine, before :=
      [Piece(Create(), Plain(t.database))], TargetPieces(t), EnginePieces(t), BeforeComment(t);
    InFour(head, target, engine, before, [Piece(lead, quoted)]);
    InFour(head, target, engine, before, [Piece(lead, [])]);
    AtTheEnd(Compose(head) + Compose(target) + Compose(engine) + Compose(before), Plain(lead), quoted);
  }

  lemma AtTheEnd(a: seq<Atom>, b: seq<Atom>, c: seq<Atom>)
    ensures a + (b + c) == a + (b + []) + c
  {
  }

  lemma InFour(a: seq<Piece>, b: seq<Piece>, c: seq<Piece>, d: seq<Piece>, e: seq<Piece>)
    ensures Compose(a + (b + (c + (d + e)))) == Compose(a) + Compose(b) + Compose(c) + Compose(d) + Compose(e)
  {
    hide Compose;
    ComposeConcat(a, b + (c + (d + e)));
    ComposeConcat(b, c + (d + e));
    ComposeConcat(c, d + e);
    ComposeConcat(d, e);
    var v, w, x, y, z := Compose(a), Compose(b), Compose(c), Compose(d), Compose(e);
    assert v + (w + (x + (y + z))) == v + w + x + y + z;
  }

  lemma QuotedTexts(text: string)
    ensures Flat(Quoted(text)) == "'" + Escaped(text) + "'" && Skeleton(Quoted(text)) == "''"
  {
    OneLit(Escaped(text));
  }

  lemma OneLit(body: string)
    ensures Flat([Lit(body)]) == "'" + body + "'" && Skeleton([Lit(body)]) == "''"
  {
    assert [Lit(body)][1..] == [] && Flat([]) == "" && Emptied([]) == [] && [Lit("")][1..] == [];
    assert "'" + "" + "'" == "''";
  }

  lemma CommentTexts(t: Table)
    requires Accepted(t) && t.comment.Some?
    ensures Flat(CreateTable(t).value) == Flat(CommentHead(t)) + ("'" + Escaped(t.comment.value) + "'")
    ensures Bare(AllPieces(t)) == Skeleton(CommentHead(t)) + "''"
  {
    CreateTableIs(t);
    hide *;
    CommentIsLast(t);
    QuotedTexts(t.comment.value);
    FlatConcat(CommentHead(t), Quoted(t.comment.value));
    ComposeSkeleton(AllPieces(t));
    SkeletonConcat(CommentHead(t), Quoted(t.comment.value));
  }

  // Where the comment loses its last line and its closing quote, the gate reads what is left of the comment as
  // if it were part of the statement.
  lemma CommentSpills(t: Table)
    requires Accepted(t) && CleanBody(t) && t.comment.Some? && !Harmless(t.comment.value)
    ensures GateText(Flat(CreateTable(t).value)) == Skeleton(CommentHead(t)) + ("'" + Escaped(Tidy(t.comment.value)))
  {
    assert EndsLine([]);
    assert Flat([]) == "" && NoComment([], false);
    hide *;
    CommentTexts(t);
    CommentHeadReads(t);
    LiteralSpills(CommentHead(t), t.comment.value, []);
    var q, e := "'" + Escaped(t.comment.value) + "'", Escaped(Tidy(t.comment.value));
    assert q + "" == q && e + "" == e;
  }

  // The gate reads a table whole if and only if the comment's last line is not taken for a comment line.
  lemma TableIsReadWhole(t: Table)
    requires Accepted(t) && CleanBody(t)
    ensures GateText(Flat(CreateTable(t).value)) == Bare(AllPieces(t))
        <==> (t.comment.Some? ==> Harmless(t.comment.value))
  {
    if t.comment.Some? {
      assert EndsLine([]) by { assert NoComment([], false); }
      hide *;
      CreateTableIs(t);
      CommentHeadReads(t);
      CommentIsLast(t);
      ComposeSkeleton(AllPieces(t));
      LastLiteralDecides(CommentHead(t), t.comment.value, []);
      QuotedIs(t.comment.value);
      assert CommentHead(t) + Quoted(t.comment.value) + [] == CommentHead(t) + Quoted(t.comment.value);
    } else {
      assert CleanTable(t) by { hide CleanBody; }
      hide *;
      StatementReads(t);
    }
  }

  lemma QuotedIs(text: string)
    ensures Quoted(text) == [Lit(Escaped(text))]
  {
  }

  // ----- whole or not

  // Does the gate read the comment's own lines?
  predicate Spills(t: Table) {
    t.comment.Some? && !Harmless(t.comment.value)
  }

  // What it then reads of them.
  function Spill(t: Table): string {
    if Spills(t) then "'" + Escaped(Tidy(t.comment.value)) else ""
  }

  // What it reads behind the engine's name.
  function TailPieces(t: Table): seq<Piece> {
    BeforeComment(t) + if Spills(t) then [Piece("\nCOMMENT ", [])] else CommentPieces("\nCOMMENT ", t.comment)
  }

  function Tail(t: Table): string {
    Bare(TailPieces(t)) + Spill(t)
  }

  function Gated(t: Table): string {
    Create() + (t.database + (Bare(TargetPieces(t)) + ("\n)\nENGINE = " + (Name(t) + Tail(t)))))
  }

  lemma AroundEngine(t: Table, after: seq<Piece>)
    ensures Bare([Piece(Create(), Plain(t.database))] + (TargetPieces(t) + (EnginePieces(t) + after)))
         == Create() + (t.database + (Bare(TargetPieces(t)) + ("\n)\nENGINE = " + (Name(t) + Bare(after)))))
  {
    var target, engine := TargetPieces(t), EnginePieces(t);
    assert engine == [Piece("\n)\nENGINE = ", Plain(Name(t)))];
    hide *;
    PlainText(Name(t));
    HeadComposes(Create(), t.database, target + (engine + after));
    BareConcat(target, engine + after);
    FirstBare("\n)\nENGINE = ", Plain(Name(t)), after);
  }

  lemma Spread(a: string, b: string, c: string, d: string, e: string, f: string, x: string)
    ensures a + (b + (c + (d + (e + f)))) + x == a + (b + (c + (d + (e + (f + x)))))
  {
  }

  lemma WholeTail(t: Table)
    requires !Spills(t)
    ensures TailPieces(t) == AfterEngine(t) && Tail(t) == Bare(AfterEngine(t))
  {
    AfterIs(t);
    hide Bare, BeforeComment, CommentPieces, AfterEngine;
    assert Bare(AfterEngine(t)) + "" == Bare(AfterEngine(t));
  }

  lemma SpilledTail(t: Table)
    requires Spills(t)
    ensures CommentHead(t) == Compose([Piece(Create(), Plain(t.database))]
        + (TargetPieces(t) + (EnginePieces(t) + TailPieces(t))))
    ensures Tail(t) == Bare(TailPieces(t)) + ("'" + Escaped(Tidy(t.comment.value)))
  {
    hide Bare, Compose, BeforeComment, CommentPieces, TargetPieces, EnginePieces, Plain, Harmless, Escaped, Tidy;
  }

  lemma TailIs(t: Table)
    ensures Gated(t) == Create() + (t.database + (Bare(TargetPieces(t)) + ("\n)\nENGINE = " + (Name(t) + Tail(t)))))
  {
  }

  lemma CleanOrSpills(t: Table)
    requires CleanBody(t)
    ensures CleanTable(t) || Spills(t)
  {
    hide CleanBody;
  }

  lemma SpillsIs(t: Table)
    ensures Spills(t) == (t.comment.Some? && !Harmless(t.comment.value))
  {
  }

  // What the gate reads of any table, whatever its comment says.
  lemma TableReads(t: Table)
    requires Accepted(t) && CleanBody(t)
    ensures GateText(Flat(CreateTable(t).value)) == Gated(t)
  {
    hide *;
    CreateTableIs(t);
    CleanOrSpills(t);
    SpillsIs(t);
    TailIs(t);
    AroundEngine(t, TailPieces(t));
    if Spills(t) {
      CommentSpills(t);
      SpilledTail(t);
      ComposeSkeleton([Piece(Create(), Plain(t.database))] + (TargetPieces(t) + (EnginePieces(t) + TailPieces(t))));
      Spread(Create(), t.database, Bare(TargetPieces(t)), "\n)\nENGINE = ", Name(t), Bare(TailPieces(t)),
        "'" + Escaped(Tidy(t.comment.value)));
    } else {
      StatementReads(t);
      WholeTail(t);
      RestIs(t);
    }
  }

  lemma RestIs(t: Table)
    ensures AllPieces(t) == [Piece(Create(), Plain(t.database))]
        + (TargetPieces(t) + (EnginePieces(t) + AfterEngine(t)))
  {
    hide TargetPieces, EnginePieces, AfterEngine, Plain;
  }
}

/** What the one-DDL gate says of a rendered CREATE TABLE. */
module Verdict {
  import opened Text
  import opened Scan
  import opened Words
  import opened Literals
  import opened Gate
  import opened Atoms
  import opened Comments
  import opened Searches
  import opened Pieces
  import opened Rendered
  import opened Reading
  import opened Wrappers
  import E = Engines

  // ----- the engine, where it stands

  function EngineIs(name: string, rest: string): string { "ENGINE = " + (name + rest) }

  lemma EngineHere(name: string, rest: string)
    requires name != "" && IsFoldLetter(name[0])
    ensures BehindEngine(EngineIs(name, rest)) == Some(name + rest)
  {
    var y := EngineIs(name, rest);
    var z := name + rest;
    assert y[0] == 'E' && y[1] == 'N' && y[2] == 'G' && y[3] == 'I' && y[4] == 'N' && y[5] == 'E' && y[6] == ' '
      && y[7] == '=' && y[8] == ' ';
    assert y[9] == z[0] == name[0];
    assert Begins(y, "engine") by {
      assert forall i :: 0 <= i < 6 ==> Fold(y[i]) == "engine"[i];
      BeginsIs(y, "engine");
    }
    assert y[6..][0] == ' ' && y[6..][1] == '=' && y[8..][0] == ' ' && y[8..][1] == name[0];
    LetterIsWord(name[0]);
    SpaceLenIs(y[6..], 1);
    SpaceLenIs(y[8..], 1);
    hide IsSpace, SpaceLen, Begins, Fold;
    assert EngineLen(y) == 8;
    assert y[9..] == z;
  }

  lemma {:induction false} LettersRun(name: string, rest: string)
    requires (forall i :: 0 <= i < |name| ==> IsFoldLetter(name[i])) && (rest == "" || !IsFoldLetter(rest[0]))
    ensures LettersLen(name + rest) == |name|
  {
    hide IsFoldLetter;
    var t := name + rest;
    if name == "" {
      assert t == rest;
    } else {
      assert t[0] == name[0] && t[1..] == name[1..] + rest;
      LettersRun(name[1..], rest);
    }
  }

  lemma {:induction false} NameRuns(name: string, rest: string)
    requires forall i :: 0 <= i < |name| ==> IsFoldLetter(name[i])
    ensures NameLen(name + rest) >= |name|
  {
    hide IsFoldLetter;
    if name != "" {
      var t := name + rest;
      assert t[0] == name[0] && t[1..] == name[1..] + rest;
      NameRuns(name[1..], rest);
    }
  }

  lemma AsciiLetterFolds(c: char)
    requires 'a' <= c <= 'z' || 'A' <= c <= 'Z'
    ensures IsFoldLetter(c)
  {
  }

  lemma ReplicatedFolds()
    ensures forall i :: 0 <= i < 10 ==> Fold("Replicated"[i]) == "replicated"[i]
  {
  }

  lemma PrefixFolds(n: string)
    requires |n| >= 10 && n[..10] == "Replicated"
    ensures Begins(n, "replicated")
  {
    hide *;
    ReplicatedFolds();
    forall i | 0 <= i < 10 ensures Fold(n[i]) == "replicated"[i] {
      assert n[i] == n[..10][i];
    }
    BeginsIs(n, "replicated");
  }

  lemma SuffixFolds()
    ensures Begins("MergeTree", "mergetree")
  {
    assert forall i :: 0 <= i < 9 ==> Fold("MergeTree"[i]) == "mergetree"[i];
    hide Fold;
    BeginsIs("MergeTree", "mergetree");
  }

  lemma NameParts(f: string)
    requires |f| >= 9
    ensures ("Replicated" + f)[..10] == "Replicated" && "Replicated" <= "Replicated" + f
    ensures ("Replicated" + f)[|f| + 1..] == f[|f| - 9..]
  {
  }

  lemma NameFolds(t: Table)
    requires E.IsFamily(t.family)
    ensures forall i :: 0 <= i < |Name(t)| ==> IsFoldLetter(Name(t)[i])
    ensures IsReplicatedFamily(Name(t)) && "Replicated" <= Name(t)
  {
    NameIsLetters(t);
    var n := Name(t);
    NameParts(t.family);
    assert |n| == 10 + |t.family| && n == "Replicated" + t.family;
    hide Begins, IsFoldLetter, Name;
    forall i | 0 <= i < |n| ensures IsFoldLetter(n[i]) {
      AsciiLetterFolds(n[i]);
    }
    PrefixFolds(n);
    SuffixFolds();
    assert n[|n| - 9..] == "MergeTree";
  }

  // The gate finds the renderer's own engine, by its name.
  lemma FindsTheEngine(name: string, rest: string)
    requires "Replicated" <= name && forall i :: 0 <= i < |name| ==> IsFoldLetter(name[i])
    ensures FirstEngine(EngineIs(name, rest), false).Some?
    ensures name <= FirstEngine(EngineIs(name, rest), false).value
  {
    EngineHere(name, rest);
    NameRuns(name, rest);
    var y, z := EngineIs(name, rest), name + rest;
    assert z[0] == name[0] && y[0] == 'E';
    assert IsNameStart(z[0]);
    hide BehindEngine, NameLen, IsFoldLetter, IsNameStart;
    assert EngineAt(y) == Some(z[..NameLen(z)]);
    assert name <= z[..NameLen(z)];
  }

  // No second assignment starts inside it.
  lemma {:induction false} NoAssignAnywhere(t: string, inWord: bool)
    requires forall i :: 0 <= i < |t| ==> EngineLen(t[i..]) == 0
    ensures !FindsAssign(t, inWord)
  {
    hide EngineLen;
    if t != "" {
      assert t[0..] == t;
      forall i | 0 <= i < |t[1..]| ensures EngineLen(t[1..][i..]) == 0 {
        assert t[1..][i..] == t[i + 1..];
      }
      NoAssignAnywhere(t[1..], IsWord(t[0]));
    }
  }

  lemma NoAssignInside(name: string)
    requires '=' !in name
    ensures !FindsAssign("NGINE = " + name, true)
  {
    var a := "NGINE = " + name;
    assert a[0] == 'N';
    forall i | 0 <= i < |a| ensures EngineLen(a[i..]) == 0 {
      var t := a[i..];
      if i == 0 {
        assert "engine"[0] == 'e' && t[0] == 'N';
        BeginsNot(t, "engine", 0);
      } else {
        NeedsEquals(t);
        assert forall j :: 6 <= j < |t| ==> t[j] == a[i + j] != '=';
      }
    }
    NoAssignAnywhere(a, true);
  }

  lemma NeedsEquals(t: string)
    ensures EngineLen(t) > 0 ==> exists j :: 6 <= j < |t| && t[j] == '='
  {
    if EngineLen(t) > 0 {
      EngineLenIs(t);
    }
  }

  // ----- its arguments

  lemma BehindLocal(t: string, x: string, part: string)
    requires x != "" && !IsSpace(x[0]) && x[0] !in part
    ensures Behind(t + x, part) == match Behind(t, part) case None => None case Some(r) => Some(r + x)
  {
    var u, s := t + x, SpaceLen(t);
    assert SpaceLen(u) == s by {
      hide IsSpace;
      assert forall i :: 0 <= i < s ==> u[i] == t[i];
      assert u[s] == if s < |t| then t[s] else x[0];
      SpaceLenIs(u, s);
    }
    hide IsSpace, SpaceLen;
    var r := t[s..];
    DropConcat(t, x, s);
    if |r| < |part| {
      assert (r + x)[|r|] == x[0];
      Differs(part, r + x, |r|);
    } else {
      assert (r + x)[..|part|] == r[..|part|];
      if part <= r {
        DropConcat(r, x, |part|);
      }
    }
  }

  lemma TwoLiteralsLocal(t: string, x: string)
    requires x != "" && x[0] == ')'
    ensures TwoLiterals(t + x) == TwoLiterals(t)
  {
    assert !IsSpace(')');
    hide Behind, IsSpace;
    BehindLocal(t, x, "''");
    match Behind(t, "''") {
      case None =>
      case Some(r) =>
        BehindLocal(r, x, ",");
        match Behind(r, ",") {
          case None =>
          case Some(q) => BehindLocal(q, x, "''");
        }
    }
  }

  lemma NoArguments(rest: string)
    requires |rest| > 1 && rest[0] == '\n' && (rest[1] == 'P' || rest[1] == 'O')
    ensures Behind(rest, "(") == None
  {
    SpaceLenIs(rest, 1);
    assert rest[1..][0] == rest[1];
    Differs("(", rest[1..], 0);
  }

  lemma Arguments(params: string, more: string)
    ensures Behind("(" + (params + (")" + more)), "(") == Some(params + (")" + more))
    ensures TwoLiterals(params + (")" + more)) == TwoLiterals(params)
  {
    var x := params + (")" + more);
    var t := "(" + x;
    assert t[0] == '(' && !IsSpace('(');
    SpaceLenIs(t, 0);
    assert t[0..] == t && "(" <= t && t[1..] == x;
    hide TwoLiterals, Behind;
    TwoLiteralsLocal(params, ")" + more);
  }

  // The clause behind an engine without arguments starts a line of its own.
  lemma LeadStarts(lead: string, c: Clause, rest: seq<Piece>)
    requires StartsClause(lead)
    ensures StartsClause(Bare([Piece(lead, c)] + rest))
  {
    hide Skeleton, Bare;
    FirstBare(lead, c, rest);
  }

  lemma OrderStarts(o: Order)
    ensures StartsClause(Bare(OrderPieces(o)))
  {
    hide Bare;
    match o {
      case Raw(text) =>
        LeadStarts("\nORDER BY (", text, [Piece(")", [])]);
        assert [Piece("\nORDER BY (", text)] + [Piece(")", [])] == OrderPieces(o);
      case Unsorted => UnsortedStarts();
      case Key(names) =>
        if names == [] {
          UnsortedStarts();
        } else {
          KeyStarts(names, NamesPieces("`)\nORDER BY (`", names) + [Piece("`)", [])]);
        }
    }
  }

  lemma UnsortedStarts()
    ensures StartsClause(Bare([Piece("\nORDER BY tuple()", [])]))
  {
    hide Bare;
    LeadStarts("\nORDER BY tuple()", [], []);
    assert [Piece("\nORDER BY tuple()", [])] + [] == [Piece("\nORDER BY tuple()", [])];
  }

  lemma KeyStarts(names: seq<string>, rest: seq<Piece>)
    requires names != []
    ensures StartsClause(Bare(NamesPieces("\nPRIMARY KEY (`", names) + rest))
  {
    hide Bare, Plain;
    var lead, more := "\nPRIMARY KEY (`", NamesPieces("`, `", names[1..]);
    LeadStarts(lead, Plain(names[0]), more + rest);
    assert [Piece(lead, Plain(names[0]))] + (more + rest) == [Piece(lead, Plain(names[0]))] + more + rest;
  }

  ghost predicate StartsClause(b: string) {
    |b| > 1 && b[0] == '\n' && (b[1] == 'P' || b[1] == 'O')
  }

  lemma PartitionStarts(text: Clause)
    ensures StartsClause(Bare([Piece("\nPARTITION BY ", text)]))
  {
    FirstBare("\nPARTITION BY ", text, []);
    hide Skeleton, Bare;
  }

  lemma StartsConcat(x: string, y: string)
    requires StartsClause(x)
    ensures StartsClause(x + y)
  {
  }

  lemma NextStarts(t: Table)
    requires t.params == []
    ensures StartsClause(Tail(t))
  {
    var tail := ListPieces("\nTTL ", t.ttl) + SettingsPieces(t);
    var order, partition := OrderPieces(t.order), OptionPieces("\nPARTITION BY ", t.partition);
    assert BeforeComment(t) == [] + (partition + (order + tail)) == partition + (order + tail);
    assert Tail(t) == Bare(BeforeComment(t) + LastPieces(t)) + Spill(t) by { TailParts(t); }
    OrderStarts(t.order);
    assert Bare([]) == "" && t.partition == None ==> partition == [];
    assert t.partition.Some? ==> partition == [Piece("\nPARTITION BY ", t.partition.value)];
    hide *;
    BareConcat(order, tail);
    StartsConcat(Bare(order), Bare(tail));
    if t.partition == None {
      assert [] + (order + tail) == order + tail;
    } else {
      PartitionStarts(t.partition.value);
      BareConcat(partition, order + tail);
      StartsConcat(Bare(partition), Bare(order + tail));
    }
    BareConcat(BeforeComment(t), LastPieces(t));
    StartsConcat(Bare(BeforeComment(t)), Bare(LastPieces(t)));
    StartsConcat(Bare(BeforeComment(t)) + Bare(LastPieces(t)), Spill(t));
  }

  function LastPieces(t: Table): seq<Piece> {
    if Spills(t) then [Piece("\nCOMMENT ", [])] else CommentPieces("\nCOMMENT ", t.comment)
  }

  lemma TailParts(t: Table)
    ensures TailPieces(t) == BeforeComment(t) + LastPieces(t)
        && Tail(t) == Bare(BeforeComment(t) + LastPieces(t)) + Spill(t)
  {
    hide BeforeComment, CommentPieces, Bare, Spill;
  }

  // What the gate makes of the engine's arguments.
  lemma ReadsArguments(t: Table)
    requires E.IsFamily(t.family) && Follows(Tail(t))
    ensures ExplicitAt(EngineIs(Name(t), Tail(t)))
         == if TwoLiterals(Skeleton(t.params)) then Some(Name(t)) else None
  {
    NameFolds(t);
    NameIsLetters(t);
    var name, rest := Name(t), Tail(t);
    EngineHere(name, rest);
    assert rest == "" || !IsFoldLetter(rest[0]) by {
      if rest != "" && IsFoldLetter(rest[0]) { LetterIsWord(rest[0]); }
    }
    LettersRun(name, rest);
    var z := name + rest;
    assert z[..|name|] == name && z[|name|..] == rest;
    if t.params == [] {
      NextStarts(t);
      NoArguments(rest);
      assert Skeleton([]) == "";
      assert !TwoLiterals("") by { NoLiterals(); }
      hide *;
      ExplicitIs(EngineIs(name, rest), name, rest);
    } else {
      ParamsBare(t);
      Arguments(Skeleton(t.params), AfterParams(t));
      hide *;
      ExplicitIs(EngineIs(name, rest), name, rest);
    }
  }

  lemma NoLiterals()
    ensures !TwoLiterals("")
  {
    assert SpaceLen("") == 0 && Behind("", "''") == None;
  }

  lemma ExplicitIs(y: string, name: string, rest: string)
    requires BehindEngine(y) == Some(name + rest) && LettersLen(name + rest) == |name| && IsReplicatedFamily(name)
    ensures ExplicitAt(y) == match Behind(rest, "(") case None => None case Some(args) => if TwoLiterals(args)
        then Some(name) else None
  {
    hide BehindEngine, LettersLen, IsReplicatedFamily, Behind, TwoLiterals;
    var z := name + rest;
    assert z[..|name|] == name && z[|name|..] == rest;
  }

  function AfterParams(t: Table): string {
    Bare(OptionPieces("\nPARTITION BY ", t.partition)
      + (OrderPieces(t.order) + (ListPieces("\nTTL ", t.ttl) + SettingsPieces(t))) + LastPieces(t)) + Spill(t)
  }

  lemma ParamsBare(t: Table)
    requires t.params != []
    ensures Tail(t) == "(" + (Skeleton(t.params) + (")" + AfterParams(t)))
  {
    var before := OptionPieces("\nPARTITION BY ", t.partition)
      + (OrderPieces(t.order) + (ListPieces("\nTTL ", t.ttl) + SettingsPieces(t)));
    ParamsFirst(t, before);
    TailParts(t);
    hide *;
    BareArguments(t.params, before + LastPieces(t));
    Nested("(", Skeleton(t.params), ")", Bare(before + LastPieces(t)), Spill(t));
  }

  lemma ParamsFirst(t: Table, before: seq<Piece>)
    requires t.params != []
    requires before == OptionPieces("\nPARTITION BY ", t.partition)
                       + (OrderPieces(t.order) + (ListPieces("\nTTL ", t.ttl) + SettingsPieces(t)))
    ensures BeforeComment(t) + LastPieces(t) == [Piece("(", t.params)] + ([Piece(")", [])] + (before + LastPieces(t)))
    ensures AfterParams(t) == Bare(before + LastPieces(t)) + Spill(t)
  {
    hide OptionPieces, OrderPieces, ListPieces, SettingsPieces, LastPieces, Bare, Spill;
    assert BeforeComment(t) == [Piece("(", t.params), Piece(")", [])] + before;
  }

  lemma BareArguments(params: Clause, rest: seq<Piece>)
    ensures Bare([Piece("(", params)] + ([Piece(")", [])] + rest)) == "(" + (Skeleton(params) + (")" + Bare(rest)))
  {
    assert Skeleton([]) == "" && "" + Bare(rest) == Bare(rest);
    hide *;
    FirstBare("(", params, [Piece(")", [])] + rest);
    FirstBare(")", [], rest);
  }

  lemma Nested(a: string, b: string, c: string, d: string, e: string)
    ensures a + (b + (c + d)) + e == a + (b + (c + (d + e)))
  {
  }

  // ----- the statement's kind

  lemma KindIsTable(x: string)
    ensures KindOf("CREATE TABLE " + x) == Kind.Table
  {
    var t := "CREATE TABLE " + x;
    var r := "TABLE " + x;
    assert t[0] == 'C' && t[1] == 'R' && t[2] == 'E' && t[3] == 'A' && t[4] == 'T' && t[5] == 'E' && t[6] == ' '
      && t[7] == 'T';
    assert r[0] == 'T' && r[1] == 'A' && r[2] == 'B' && r[3] == 'L' && r[4] == 'E' && r[5] == ' ';
    SpaceLenIs(t, 0);
    assert t[0..] == t;
    assert Begins(t, "create") by {
      assert forall i :: 0 <= i < 6 ==> Fold(t[i]) == "create"[i];
      BeginsIs(t, "create");
    }
    assert t[6..][0] == ' ' && t[6..][1] == 'T';
    SpaceLenIs(t[6..], 1);
    assert t[7..] == r;
    assert Begins(r, "table") by {
      assert forall i :: 0 <= i < 5 ==> Fold(r[i]) == "table"[i];
      BeginsIs(r, "table");
    }
    assert "or"[0] == 'o' && "database"[0] == 'd';
    BeginsNot(r, "or", 0);
    BeginsNot(r, "database", 0);
    hide Begins, SpaceLen, Fold;
    assert Skip(t, "create") == Some(r);
    assert Ends(r, "table") && !Ends(r, "database");
  }

  // ----- the engine that the names name

  function ColumnNames(columns: seq<Column>): seq<string> {
    if columns == [] then [] else [columns[0].name] + ColumnNames(columns[1..])
  }

  // The names that stand before the engine.
  function NamesOf(t: Table): seq<string> {
    [t.database, t.name] + ColumnNames(t.columns)
  }

  // The engine of the first name that names one: `ENGINE=x` names `x`.
  function FirstClaim(names: seq<string>): Option<string> {
    if names == [] then None
    else
      var claim := FirstEngine(names[0], false);
      if claim.Some? then claim else FirstClaim(names[1..])
  }

  lemma {:induction false} ClausesClaimNothing(pieces: seq<Piece>)
    requires forall p <- pieces :: Settled(Skeleton(p.clause))
    ensures ClaimOf(pieces) == None
  {
    hide Settled, Skeleton, FirstEngine;
    if pieces != [] {
      SettledClaims(Skeleton(pieces[0].clause));
      ClausesClaimNothing(pieces[1..]);
    }
  }

  lemma CleanIsSettled(c: Clause)
    ensures CleanClause(c) ==> Settled(Skeleton(c))
  {
  }

  lemma QuietClause(lead: string, c: Clause)
    requires CleanClause(c)
    ensures ClaimOf([Piece(lead, c)]) == None
  {
    CleanIsSettled(c);
    hide Settled, Skeleton, CleanClause, ClaimOf;
    ClausesClaimNothing([Piece(lead, c)]);
  }

  lemma QuietConcat(a: seq<Piece>, b: seq<Piece>)
    requires ClaimOf(a) == ClaimOf(b) == None
    ensures ClaimOf(a + b) == None
  {
    ClaimConcat(a, b);
  }

  lemma QuietNothing()
    ensures ClaimOf([]) == None
  {
  }

  lemma QuietEmpty(lead: string)
    ensures ClaimOf([Piece(lead, [])]) == None
  {
    NothingIsClean();
    hide CleanClause;
    QuietClause(lead, []);
  }

  // What follows the name of a column.
  function BehindName(c: Column): seq<Piece> {
    [Piece("` ", c.chType)] + (ValuePieces(c.value) + (CommentPieces(" COMMENT ", c.comment) + CodecPieces(c.codec)))
  }

  lemma ColumnIs(lead: string, c: Column)
    ensures ColumnPieces(lead, c) == [Piece(lead, Plain(c.name))] + BehindName(c)
  {
    hide ValuePieces, CommentPieces, CodecPieces, Plain;
  }

  lemma ValueQuiet(value: Option<Value>)
    requires value.Some? ==> CleanClause(value.value.text)
    ensures ClaimOf(ValuePieces(value)) == None
  {
    hide CleanClause, ClaimOf;
    match value {
      case None => QuietNothing();
      case Some(Value(Default, text)) => QuietClause(" DEFAULT ", text);
      case Some(Value(Materialized, text)) => QuietClause(" MATERIALIZED ", text);
      case Some(Value(Alias, text)) => QuietClause(" ALIAS ", text);
    }
  }

  lemma CommentQuiet(lead: string, comment: Option<string>)
    requires comment.Some? ==> Harmless(comment.value)
    ensures ClaimOf(CommentPieces(lead, comment)) == None
  {
    hide CleanClause, ClaimOf, Harmless;
    match comment {
      case None => QuietNothing();
      case Some(text) =>
        CommentIsClean(text);
        QuietClause(lead, Quoted(text));
    }
  }

  lemma CodecQuiet(codec: Option<Clause>)
    requires codec.Some? ==> CleanClause(codec.value)
    ensures ClaimOf(CodecPieces(codec)) == None
  {
    hide CleanClause, ClaimOf;
    match codec {
      case None => QuietNothing();
      case Some(text) =>
        QuietClause(" CODEC(", text);
        QuietEmpty(")");
        QuietConcat([Piece(" CODEC(", text)], [Piece(")", [])]);
        assert [Piece(" CODEC(", text)] + [Piece(")", [])] == CodecPieces(codec);
    }
  }

  lemma BehindNameQuiet(c: Column)
    requires CleanColumn(c)
    ensures ClaimOf(BehindName(c)) == None
  {
    hide CleanClause, ClaimOf, Harmless, ValuePieces, CommentPieces, CodecPieces;
    ValueQuiet(c.value);
    CommentQuiet(" COMMENT ", c.comment);
    CodecQuiet(c.codec);
    QuietClause("` ", c.chType);
    QuietConcat(CommentPieces(" COMMENT ", c.comment), CodecPieces(c.codec));
    QuietConcat(ValuePieces(c.value), CommentPieces(" COMMENT ", c.comment) + CodecPieces(c.codec));
    QuietConcat([Piece("` ", c.chType)], ValuePieces(c.value)
      + (CommentPieces(" COMMENT ", c.comment) + CodecPieces(c.codec)));
  }

  lemma NameFirst(lead: string, name: string, more: seq<Piece>)
    ensures ClaimOf([Piece(lead, Plain(name))] + more) == if FirstEngine(name, false).Some?
        then FirstEngine(name, false) else ClaimOf(more)
  {
    PlainText(name);
    hide Plain, Skeleton;
    assert ([Piece(lead, Plain(name))] + more)[1..] == more;
  }

  lemma {:induction false} ColumnsClaim(lead: string, columns: seq<Column>)
    requires forall c <- columns :: CleanColumn(c)
    ensures ClaimOf(ColumnsPieces(lead, columns)) == FirstClaim(ColumnNames(columns))
    decreases |columns|
  {
    hide CleanColumn, FirstEngine, ColumnPieces, BehindName;
    if columns != [] {
      var c, more := columns[0], ColumnsPieces(",\n    `", columns[1..]);
      ColumnsClaim(",\n    `", columns[1..]);
      BehindNameQuiet(c);
      hide ClaimOf;
      ColumnIs(lead, c);
      NameFirst(lead, c.name, BehindName(c));
      ClaimConcat(ColumnPieces(lead, c), more);
      assert ColumnNames(columns)[1..] == ColumnNames(columns[1..]);
    } else {
      QuietNothing();
    }
  }

  lemma {:induction false} ListQuiet(lead: string, clauses: seq<Clause>)
    requires forall c <- clauses :: CleanLine(c)
    ensures ClaimOf(ListPieces(lead, clauses)) == None
    decreases |clauses|
  {
    hide CleanClause, StartsLine, ClaimOf;
    if clauses != [] {
      assert CleanLine(clauses[0]);
      QuietClause(lead, clauses[0]);
      ListQuiet(",\n    ", clauses[1..]);
      QuietConcat([Piece(lead, clauses[0])], ListPieces(",\n    ", clauses[1..]));
    } else {
      QuietNothing();
    }
  }

  lemma BodyClaims(t: Table)
    requires CleanBody(t)
    ensures ClaimOf(BodyPieces(t)) == FirstClaim(ColumnNames(t.columns))
  {
    hide CleanColumn, CleanLine, CleanOrder, CleanClause, CleanSetting, ClaimOf, ColumnsPieces, ListPieces, ColumnNames;
    if t.columns == [] {
      assert ColumnNames([]) == [] by { NoColumns(); }
      if t.indexes == [] {
        QuietEmpty("`\n(\n");
      } else {
        ListQuiet("`\n(\n    ", t.indexes);
      }
    } else {
      ColumnsClaim("`\n(\n    `", t.columns);
      ListQuiet(",\n    ", t.indexes);
      ClaimConcat(ColumnsPieces("`\n(\n    `", t.columns), ListPieces(",\n    ", t.indexes));
    }
  }

  lemma NoColumns()
    ensures ColumnNames([]) == []
  {
  }

  lemma TargetClaims(t: Table)
    requires CleanBody(t)
    ensures ClaimOf(TargetPieces(t)) == FirstClaim([t.name] + ColumnNames(t.columns))
  {
    hide CleanBody, ClaimOf, BodyPieces, ColumnNames, FirstEngine;
    BodyClaims(t);
    NameFirst("`.`", t.name, BodyPieces(t));
    assert ([t.name] + ColumnNames(t.columns))[1..] == ColumnNames(t.columns);
  }

  lemma NamesFirst(t: Table)
    ensures FirstClaim(NamesOf(t))
         == if FirstEngine(t.database, false).Some? then FirstEngine(t.database, false)
           else FirstClaim([t.name] + ColumnNames(t.columns))
  {
    hide FirstEngine;
    assert NamesOf(t)[1..] == [t.name] + ColumnNames(t.columns);
  }

  // The renderer's own engine, from the line before it on.
  function FromEngine(t: Table): string {
    "\n)\n" + EngineIs(Name(t), Tail(t))
  }

  lemma BreakToEngine(name: string, d: string)
    ensures "\n)\nENGINE = " + (name + d) == "\n)\n" + EngineIs(name, d)
  {
    assert "\n)\nENGINE = " == "\n)\n" + "ENGINE = ";
  }

  lemma FromEngineFollows(t: Table)
    ensures Follows(FromEngine(t))
    ensures FirstEngine(FromEngine(t), false) == FirstEngine(EngineIs(Name(t), Tail(t)), false)
    ensures FirstExplicit(FromEngine(t), false) == FirstExplicit(EngineIs(Name(t), Tail(t)), false)
  {
    BodyEndLead();
    var y := EngineIs(Name(t), Tail(t));
    assert !IsWord("\n)\n"[2]);
    hide EngineIs, Seam, FindsAssign, FirstEngine, FirstExplicit, Tail, Closed, Opens, Neutral, Follows, IsWord;
    LeadFollows("\n)\n", y);
    NoEqualsNoAssign("\n)\n", false);
    SeamAfterLead("\n)\n", y);
    EngineSkips("\n)\n", y, false);
  }

  lemma Halves(t: Table)
    ensures Gated(t) == Create() + (t.database + (Bare(TargetPieces(t)) + FromEngine(t)))
  {
    hide Bare, TargetPieces, Tail, EngineIs, Create;
    BreakToEngine(Name(t), Tail(t));
  }

  lemma TargetFirst(t: Table)
    ensures TargetPieces(t) != [] && Ticks(TargetPieces(t)[0].lead)
  {
    hide BodyPieces, Plain;
  }

  // The gate passes over everything before the engine but a name that names one.
  lemma ComesToTheEngine(t: Table)
    requires Accepted(t) && CleanBody(t)
    ensures var text, y := Gated(t), EngineIs(Name(t), Tail(t));
            FirstEngine(text, false) == (if FirstClaim(NamesOf(t)).Some? then FirstClaim(NamesOf(t))
              else FirstEngine(y, false))
            && FirstExplicit(text, false) == FirstExplicit(y, false)
  {
    TargetGood(t);
    NameIsOrderly(t.database);
    HeadLead();
    hide *;
    CreateIs();
    Halves(t);
    FromEngineFollows(t);
    AllLeads(TargetPieces(t));
    ClaimInPieces(TargetPieces(t), FromEngine(t));
    TargetFirst(t);
    TicksBare(TargetPieces(t), FromEngine(t));
    ClaimInStep(Create(), t.database, Bare(TargetPieces(t)) + FromEngine(t));
    TargetClaims(t);
    NamesFirst(t);
  }

  // ----- a comment that spills

  // No two quotes stand side by side.
  ghost predicate Unpaired(t: string) {
    forall i :: 0 <= i < |t| - 1 ==> t[i] != '\'' || t[i + 1] != '\''
  }

  lemma BehindIsTail(t: string, part: string)
    ensures var r := Behind(t, part); r.Some? ==> |r.value| <= |t| && r.value == t[|t| - |r.value|..]
  {
    hide SpaceLen;
  }

  lemma UnpairedTail(t: string, n: nat)
    requires Unpaired(t) && n <= |t|
    ensures Unpaired(t[n..])
  {
    var r := t[n..];
    forall i | 0 <= i < |r| - 1 ensures r[i] != '\'' || r[i + 1] != '\'' {
      assert r[i] == t[n + i] && r[i + 1] == t[n + i + 1];
    }
  }

  lemma UnpairedHasNoLiterals(t: string)
    requires Unpaired(t)
    ensures !TwoLiterals(t)
  {
    var s := SpaceLen(t);
    var r := t[s..];
    UnpairedTail(t, s);
    PairStarts(r);
    assert Behind(t, "''") == None;
  }

  lemma PairStarts(r: string)
    ensures "''" <= r ==> !Unpaired(r)
  {
    if "''" <= r {
      assert r[0] == '\'' && r[1] == '\'';
    }
  }

  lemma UnpairedIsNotExplicit(t: string)
    requires Unpaired(t)
    ensures ExplicitAt(t) == None
  {
    if BehindEngine(t).Some? {
      var r := BehindEngine(t).value;
      assert |r| <= |t| && r == t[|t| - |r|..] by { hide EngineLen, SpaceLen; }
      UnpairedTail(t, |t| - |r|);
      var q := r[LettersLen(r)..];
      UnpairedTail(r, LettersLen(r));
      BehindIsTail(q, "(");
      if Behind(q, "(").Some? {
        var args := Behind(q, "(").value;
        UnpairedTail(q, |q| - |args|);
        UnpairedHasNoLiterals(args);
      }
    }
  }

  lemma {:induction false} UnpairedFindsNothing(t: string, inWord: bool)
    requires Unpaired(t)
    ensures FirstExplicit(t, inWord) == None
  {
    hide ExplicitAt;
    if t != "" {
      UnpairedIsNotExplicit(t);
      UnpairedTail(t, 1);
      UnpairedFindsNothing(t[1..], IsWord(t[0]));
    }
  }

  lemma {:induction false} EscapedIsUnpaired(text: string)
    ensures Unpaired("'" + Escaped(text)) && Unpaired(Escaped(text))
  {
    var e := Escaped(text);
    if text != "" {
      var d, more := EscapedChar(text[0]), Escaped(text[1..]);
      EscapedIsUnpaired(text[1..]);
      assert Unpaired(d);
      assert d[0] != '\'' && (d[|d| - 1] == '\'' ==> d == "\\'");
      hide EscapedChar;
      assert Unpaired("'" + more) && (more != "" ==> more[0] != '\'') by {
        assert ("'" + more)[0] == '\'' && (more != "" ==> ("'" + more)[1] == more[0]);
      }
      UnpairedConcat(d, more);
    }
    assert e == "" || e[0] != '\'';
    UnpairedConcat("'", e);
  }

  lemma UnpairedConcat(a: string, b: string)
    requires Unpaired(a) && Unpaired(b) && (b == "" || b[0] != '\'')
    ensures Unpaired(a + b)
  {
    var t := a + b;
    forall i | 0 <= i < |t| - 1 ensures t[i] != '\'' || t[i + 1] != '\'' {
      if i + 1 < |a| {
        assert t[i] == a[i] && t[i + 1] == a[i + 1];
      } else {
        assert t[i + 1] == b[i + 1 - |a|];
        assert i >= |a| ==> t[i] == b[i - |a|];
      }
    }
  }

  // ON CLUSTER in the second of two texts is found in both, where the second begins no word.
  lemma {:induction false} FoundBehind(a: string, b: string, inWord: bool)
    requires FindsCluster(b, false) && !IsWord(b[0])
    ensures FindsCluster(a + b, inWord)
  {
    hide ClusterAt;
    if a == "" {
      assert a + b == b && !ClusterAt(b) by { WordlessIsNoCluster(b); }
    } else {
      assert (a + b)[0] == a[0] && (a + b)[1..] == a[1..] + b;
      FoundBehind(a[1..], b, IsWord(a[0]));
    }
  }

  lemma WordlessIsNoCluster(b: string)
    requires b != "" && !IsWord(b[0])
    ensures !ClusterAt(b)
  {
    if ClusterAt(b) {
      ClusterAtIs(b);
      LetterIsWord(b[0]);
    }
  }

  lemma SpillFollows(t: Table)
    ensures Follows(Spill(t)) && FirstExplicit(Spill(t), false) == None && (Spill(t) != "" ==> !IsWord(Spill(t)[0]))
  {
    if Spills(t) {
      var e := Escaped(Tidy(t.comment.value));
      var s := "'" + e;
      EscapedIsUnpaired(Tidy(t.comment.value));
      UnpairedFindsNothing(s, false);
      assert s[0] == '\'' && !IsSpace('\'') && !IsWord('\'');
      SpaceLenIs(s, 0);
      BeginsNot(s, "cl", 0);
      assert s[0..] == s;
    } else {
      NothingFollows();
    }
  }

  // What the gate finds of ON CLUSTER is what a comment that spills says of it.
  lemma SpillFinds(t: Table)
    ensures FindsCluster(Spill(t), false) <==> Spills(t) && FindsCluster(Tidy(t.comment.value), false)
  {
    if Spills(t) {
      var c := Tidy(t.comment.value);
      var e := Escaped(c);
      assert ("'" + e)[1..] == e && !IsWord('\'');
      WordlessIsNoCluster("'" + e);
      EscapedFinds(c, false);
    }
  }

  lemma SpaceIsPlain(c: char)
    ensures EscapedChar(c) != "" && IsSpace(EscapedChar(c)[0]) == IsSpace(c) && (IsSpace(c) ==> EscapedChar(c) == [c])
  {
  }

  lemma {:induction false} EscapedSpaces(t: string)
    ensures SpaceLen(Escaped(t)) == SpaceLen(t) && Escaped(t)[SpaceLen(t)..] == Escaped(t[SpaceLen(t)..])
  {
    if t != "" {
      SpaceIsPlain(t[0]);
      EscapedFirst(t);
      hide IsSpace, EscapedChar, Escaped;
      if IsSpace(t[0]) {
        EscapedSpaces(t[1..]);
        var n := SpaceLen(t[1..]);
        assert t[1 + n..] == t[1..][n..];
        assert Escaped(t)[1 + n..] == Escaped(t)[1..][n..];
      }
    }
  }

  // A word of letters is read of a text as of the escaped text.
  lemma {:induction false} EscapedBegins(t: string, word: string)
    requires forall i :: 0 <= i < |word| ==> 'a' <= word[i] <= 'z'
    ensures Begins(Escaped(t), word) == Begins(t, word)
    ensures Begins(t, word) ==> |word| <= |t| && |word| <= |Escaped(t)| && Escaped(t)[|word|..] == Escaped(t[|word|..])
  {
    if word != "" && t != "" {
      var d := EscapedChar(t[0]);
      assert Escaped(t)[0] == d[0];
      assert Fold('\\') == '\\' && Fold('\'') == '\'';
      if Fold(t[0]) == word[0] {
        assert d == [t[0]] && Escaped(t)[1..] == Escaped(t[1..]);
        assert forall i :: 0 <= i < |word[1..]| ==> word[1..][i] == word[i + 1];
        EscapedBegins(t[1..], word[1..]);
      }
    }
  }

  lemma EscapedWordEnd(r: string)
    ensures Begins(Escaped(r), "cluster") == Begins(r, "cluster")
    ensures Begins(r, "cluster") ==> (|Escaped(r)| <= 7 || !IsWord(Escaped(r)[7])) == (|r| <= 7 || !IsWord(r[7]))
  {
    ClusterIsLetters();
    EscapedBegins(r, "cluster");
    if Begins(r, "cluster") {
      hide Begins;
      var x := r[7..];
      assert Escaped(r)[7..] == Escaped(x);
      assert x != "" ==> r[7] == x[0] && Escaped(r)[7] == Escaped(x)[0] == EscapedChar(x[0])[0];
    }
  }

  lemma ClusterIsLetters()
    ensures forall i :: 0 <= i < 7 ==> 'a' <= "cluster"[i] <= 'z'
    ensures forall i :: 0 <= i < 2 ==> 'a' <= "on"[i] <= 'z'
  {
  }

  lemma EscapedCluster(t: string)
    ensures ClusterAt(Escaped(t)) == ClusterAt(t)
  {
    var e := Escaped(t);
    ClusterIsLetters();
    EscapedBegins(t, "on");
    hide Begins, Escaped, SpaceLen, IsWord;
    if Begins(t, "on") {
      var u := t[2..];
      assert e[2..] == Escaped(u);
      EscapedSpaces(u);
      var s := SpaceLen(u);
      assert t[2 + s..] == u[s..] && e[2 + s..] == e[2..][s..] == Escaped(u[s..]);
      EscapedWordEnd(u[s..]);
    }
  }

  lemma {:induction false} EscapedFinds(t: string, inWord: bool)
    ensures FindsCluster(Escaped(t), inWord) == FindsCluster(t, inWord)
  {
    if t != "" {
      var c := t[0];
      var d, more := EscapedChar(c), Escaped(t[1..]);
      EscapedFinds(t[1..], IsWord(c));
      EscapedCluster(t);
      assert Escaped(t) == d + more;
      assert !IsWord('\\') && !IsWord('\'');
      hide ClusterAt, EscapedChar, Escaped, IsWord;
      if c == '\'' || c == '\\' {
        EscapedPair(c);
        assert d + more == ['\\'] + ([c] + more);
        assert (d + more)[1..] == [c] + more && ([c] + more)[1..] == more;
        WordlessIsNoCluster([c] + more);
        WordlessIsNoCluster(t);
      } else {
        EscapedPair(c);
        assert (d + more)[1..] == more && (d + more)[0] == c;
      }
    }
  }

  lemma EscapedPair(c: char)
    ensures EscapedChar(c) == if c == '\'' || c == '\\' then ['\\'] + [c] else [c]
  {
  }

  // ----- behind the engine

  lemma TailIsGood(t: Table)
    requires Accepted(t) && CleanBody(t)
    ensures AllGood(TailPieces(t))
  {
    BeforeCommentGood(t);
    TableCommentLead();
    TailParts(t);
    hide IsLead, After, AllGood, CleanBody, BeforeComment, CommentPieces, Accepted, Harmless;
    if Spills(t) {
      EmptyPiece("\nCOMMENT ");
    } else {
      CommentGood("\nCOMMENT ", t.comment);
    }
    GoodConcat(BeforeComment(t), LastPieces(t));
  }

  // Behind the engine's own name the search for a Keeper path finds nothing.
  lemma NothingBehind(t: Table)
    requires Accepted(t) && CleanBody(t)
    ensures FirstExplicit(EngineIs(Name(t), Tail(t))[1..], true) == None && Follows(Tail(t))
  {
    FamilyOf(t);
    NoEqualsInName(t);
    hide *;
    TailIsGood(t);
    SpillFollows(t);
    var name, rest := Name(t), Tail(t);
    EngineFrom(name, rest);
    AllLeads(TailPieces(t));
    ClaimInPieces(TailPieces(t), Spill(t));
    TailIsBoth(t);
    NoAssignInside(name);
    SeamBeforeLead("NGINE = " + name, rest);
    FollowsIs(rest);
    EngineSkips("NGINE = " + name, rest, true);
  }

  lemma TailIsBoth(t: Table)
    ensures Tail(t) == Bare(TailPieces(t)) + Spill(t)
  {
  }

  lemma FollowsIs(b: string)
    requires Follows(b)
    ensures b == "" || !IsWord(b[0])
  {
  }

  lemma NoEqualsInName(t: Table)
    requires E.IsFamily(t.family)
    ensures '=' !in Name(t)
  {
    NameIsLetters(t);
  }

  lemma EngineFrom(name: string, rest: string)
    ensures EngineIs(name, rest)[1..] == "NGINE = " + name + rest
  {
  }

  lemma ExplicitHere(y: string)
    requires y != "" && IsWord(y[0]) && FirstExplicit(y[1..], true) == None
    ensures FirstExplicit(y, false) == ExplicitAt(y)
  {
    hide ExplicitAt;
  }

  // Everything but what a comment spills.
  function GatedPieces(t: Table): seq<Piece> {
    TargetPieces(t) + (EnginePieces(t) + TailPieces(t))
  }

  lemma GatedIs(t: Table)
    ensures Gated(t) == Create() + (t.database + Bare(GatedPieces(t))) + Spill(t)
  {
    var pieces := [Piece(Create(), Plain(t.database))] + GatedPieces(t);
    assert GatedPieces(t) == TargetPieces(t) + (EnginePieces(t) + TailPieces(t));
    hide *;
    AroundEngine(t, TailPieces(t));
    HeadComposes(Create(), t.database, GatedPieces(t));
    TailIs(t);
    TailIsBoth(t);
    Spread(Create(), t.database, Bare(TargetPieces(t)), "\n)\nENGINE = ", Name(t), Bare(TailPieces(t)), Spill(t));
  }

  lemma GatedIsGood(t: Table)
    requires Accepted(t) && CleanBody(t)
    ensures forall p <- GatedPieces(t) :: Good(p)
  {
    TargetGood(t);
    TailIsGood(t);
    EngineIsGood(t);
    hide Good, Told, Accepted, CleanBody, TargetPieces, EnginePieces, TailPieces;
  }

  // ON CLUSTER is found in what a comment spills or not at all.
  lemma ClusterOnlySpilled(t: Table)
    requires Accepted(t) && CleanBody(t)
    ensures FindsCluster(Gated(t), false) == FindsCluster(Spill(t), false)
  {
    NameIsOrderly(t.database);
    HeadLead();
    CreateIs();
    assert !FindsCluster(t.database, false) by { hide Readable, OneLiner, FindsCluster; }
    hide *;
    GatedIsGood(t);
    GoodPieces(GatedPieces(t));
    LeadsOf(GatedPieces(t));
    NoClusterInPieces(GatedPieces(t));
    PiecesFollow(GatedPieces(t));
    NoClusterInStep(Create(), t.database, Bare(GatedPieces(t)));
    GatedIs(t);
    SpillFollows(t);
    var h := Create() + (t.database + Bare(GatedPieces(t)));
    if FindsCluster(Spill(t), false) {
      FoundIsSome(Spill(t));
      FoundBehind(h, Spill(t), false);
    } else {
      SeamBeforeLead(h, Spill(t));
      ClusterSeam(h, Spill(t), false);
    }
  }

  lemma FoundIsSome(t: string)
    requires FindsCluster(t, false)
    ensures t != ""
  {
  }

  lemma LeadsOf(pieces: seq<Piece>)
    requires forall p <- pieces :: Good(p)
    ensures forall p <- pieces :: IsLead(p.lead)
  {
    hide IsLead, Orderly, After, StartsLine;
  }

  lemma Searched(t: Table)
    requires Accepted(t) && CleanBody(t)
    ensures var text, claim := Gated(t), FirstClaim(NamesOf(t));
            && KindOf(text) == Kind.Table && FirstEngine(text, false).Some?
            && (FindsCluster(text, false) <==> Spills(t) && FindsCluster(Tidy(t.comment.value), false))
            && (if claim.Some? then FirstEngine(text, false) == claim
              else "Replicated" <= FirstEngine(text, false).value)
            && FirstExplicit(text, false) == if TwoLiterals(Skeleton(t.params)) then Some(Name(t)) else None
  {
    SpillsIs(t);
    hide *;
    var text, y := Gated(t), EngineIs(Name(t), Tail(t));
    OpensTable(t);
    KindIsTable(text[13..]);
    ClusterOnlySpilled(t);
    SpillFinds(t);
    ComesToTheEngine(t);
    NothingBehind(t);
    FamilyOf(t);
    NameFolds(t);
    StartsWithE(Name(t), Tail(t));
    ReadsArguments(t);
    ExplicitHere(y);
    FindsTheEngine(Name(t), Tail(t));
    PrefixOf("Replicated", Name(t), FirstEngine(y, false).value);
  }

  lemma OpensTable(t: Table)
    ensures var text := Gated(t); |text| >= 13 && text == "CREATE TABLE " + text[13..]
  {
    hide Bare, TargetPieces, Tail;
    assert "CREATE TABLE " <= Create();
  }

  lemma StartsWithE(name: string, rest: string)
    ensures EngineIs(name, rest) != "" && IsWord(EngineIs(name, rest)[0])
  {
    assert EngineIs(name, rest)[0] == 'E';
  }

  lemma FamilyOf(t: Table)
    requires CleanBody(t)
    ensures E.IsFamily(t.family)
  {
  }

  lemma PrefixOf(a: string, b: string, c: string)
    requires a <= b <= c
    ensures a <= c
  {
  }

  // ----- the verdict

  // Is the engine one that a table may take?
  predicate Admitted(engine: string) {
    "Replicated" <= engine || StoresNoRows(engine)
  }

  // Does the gate take the table's comment for an ON CLUSTER?
  predicate SaysOnCluster(comment: Option<string>) {
    comment.Some? && !Harmless(comment.value) && FindsCluster(Tidy(comment.value), false)
  }

  // What is said of a text with a given name, claim and comment.
  ghost predicate IsSaid(text: string, name: string, explicit: bool, claim: Option<string>, cluster: bool, p: Problem) {
    || (explicit && p == NamesItsOwnPath(name, Head(text)))
    || (claim.Some? && !Admitted(claim.value) && p == NotReplicated(claim.value, Head(text)))
    || (cluster && p == CarriesOnCluster(Head(text)))
  }

  lemma ProblemsOf(text: string, name: string, explicit: bool, claim: Option<string>, cluster: bool, p: Problem)
    requires KindOf(text) == Kind.Table && FindsCluster(text, false) == cluster && FirstEngine(text, false).Some?
    requires if claim.Some? then FirstEngine(text, false) == claim else "Replicated" <= FirstEngine(text, false).value
    requires FirstExplicit(text, false) == if explicit then Some(name) else None
    ensures IsProblem(text, p) <==> IsSaid(text, name, explicit, claim, cluster, p)
  {
    hide KindOf, FindsCluster, FirstEngine, FirstExplicit, Head, StoresNoRows;
  }

  // The gate finds three things in a rendered CREATE TABLE and nothing else: that the engine's arguments open
  // with two literals; that a name before the engine names another one, which is not to be had; and an ON CLUSTER
  // in a comment that it reads.
  lemma TablePasses(t: Table, p: Problem)
    requires Accepted(t) && CleanBody(t)
    ensures var text, claim := GateText(Flat(CreateTable(t).value)), FirstClaim(NamesOf(t));
            IsProblem(text, p) <==>
              || (TwoLiterals(Skeleton(t.params)) && p == NamesItsOwnPath("Replicated" + t.family, Head(text)))
              || (claim.Some? && !Admitted(claim.value) && p == NotReplicated(claim.value, Head(text)))
              || (SaysOnCluster(t.comment) && p == CarriesOnCluster(Head(text)))
  {
    assert Name(t) == "Replicated" + t.family;
    var explicit, claim, cluster := TwoLiterals(Skeleton(t.params)), FirstClaim(NamesOf(t)), SaysOnCluster(t.comment);
    assert cluster == (Spills(t) && FindsCluster(Tidy(t.comment.value), false)) by {
      hide Harmless, FindsCluster, Tidy;
    }
    SaidIs(GateText(Flat(CreateTable(t).value)), Name(t), explicit, claim, cluster, p);
    hide *;
    CreateTableIs(t);
    TableReads(t);
    Searched(t);
    ProblemsOf(Gated(t), Name(t), explicit, claim, cluster, p);
  }

  lemma SaidIs(text: string, name: string, explicit: bool, claim: Option<string>, cluster: bool, p: Problem)
    ensures IsSaid(text, name, explicit, claim, cluster, p) <==>
              || (explicit && p == NamesItsOwnPath(name, Head(text)))
              || (claim.Some? && !Admitted(claim.value) && p == NotReplicated(claim.value, Head(text)))
              || (cluster && p == CarriesOnCluster(Head(text)))
  {
    hide Head, Admitted;
  }

  // A rendered table is clean exactly when the first engine read before the renderer's own is none or one that
  // a table may take, the arguments name no path, and the comment is not taken for an ON CLUSTER.
  lemma CleanVerdict(t: Table)
    requires Accepted(t) && CleanBody(t)
    ensures var claim := FirstClaim(NamesOf(t));
            (forall p :: !IsProblem(GateText(Flat(CreateTable(t).value)), p))
            <==> && !TwoLiterals(Skeleton(t.params)) && (claim.Some? ==> Admitted(claim.value))
                 && !SaysOnCluster(t.comment)
  {
    hide *;
    CreateTableIs(t);
    var text, claim := GateText(Flat(CreateTable(t).value)), FirstClaim(NamesOf(t));
    TablePasses(t, NamesItsOwnPath("Replicated" + t.family, Head(text)));
    TablePasses(t, CarriesOnCluster(Head(text)));
    if claim.Some? {
      TablePasses(t, NotReplicated(claim.value, Head(text)));
    }
    forall p
      ensures IsProblem(text, p) ==>
                TwoLiterals(Skeleton(t.params)) || (claim.Some? && !Admitted(claim.value)) || SaysOnCluster(t.comment)
    {
      TablePasses(t, p);
    }
  }

  // ----- comments do not matter

  // The same table with other comments in the same places.
  ghost predicate SameButComments(one: Table, other: Table) {
    && other == one.(columns := other.columns, comment := other.comment)
    && |one.columns| == |other.columns| && one.comment.Some? == other.comment.Some?
    && forall i :: 0 <= i < |one.columns| ==>
         other.columns[i] == one.columns[i].(comment := other.columns[i].comment)
         && one.columns[i].comment.Some? == other.columns[i].comment.Some?
  }

  ghost predicate SamePieces(a: seq<Piece>, b: seq<Piece>) {
    |a| == |b| && forall i :: 0 <= i < |a| ==> a[i].lead == b[i].lead && Emptied(a[i].clause) == Emptied(b[i].clause)
  }

  lemma {:induction false} SameCompose(a: seq<Piece>, b: seq<Piece>)
    requires SamePieces(a, b)
    ensures Emptied(Compose(a)) == Emptied(Compose(b))
  {
    hide Emptied, Plain;
    if a != [] {
      assert SamePieces(a[1..], b[1..]) by {
        forall i | 0 <= i < |a[1..]| ensures a[1..][i].lead == b[1..][i].lead
          && Emptied(a[1..][i].clause) == Emptied(b[1..][i].clause) {
          assert a[1..][i] == a[i + 1] && b[1..][i] == b[i + 1];
        }
      }
      SameCompose(a[1..], b[1..]);
      EmptiedConcat(Plain(a[0].lead) + a[0].clause, Compose(a[1..]));
      EmptiedConcat(Plain(b[0].lead) + b[0].clause, Compose(b[1..]));
      EmptiedConcat(Plain(a[0].lead), a[0].clause);
      EmptiedConcat(Plain(b[0].lead), b[0].clause);
    }
  }

  lemma SameConcat(a: seq<Piece>, b: seq<Piece>, c: seq<Piece>, d: seq<Piece>)
    requires SamePieces(a, b) && SamePieces(c, d)
    ensures SamePieces(a + c, b + d)
  {
    hide Emptied;
  }

  lemma SameComment(lead: string, one: Option<string>, other: Option<string>)
    requires one.Some? == other.Some?
    ensures SamePieces(CommentPieces(lead, one), CommentPieces(lead, other))
  {
    if one.Some? {
      OneEmptied(Escaped(one.value));
      OneEmptied(Escaped(other.value));
    }
  }

  lemma OneEmptied(body: string)
    ensures Emptied([Lit(body)]) == [Lit("")]
  {
    assert [Lit(body)][1..] == [];
  }

  lemma SameColumn(lead: string, one: Column, other: Column)
    requires other == one.(comment := other.comment) && one.comment.Some? == other.comment.Some?
    ensures SamePieces(ColumnPieces(lead, one), ColumnPieces(lead, other))
  {
    SameComment(" COMMENT ", one.comment, other.comment);
    hide Emptied, CommentPieces, ValuePieces, CodecPieces, Plain;
    var codec, value := CodecPieces(one.codec), ValuePieces(one.value);
    SameConcat(CommentPieces(" COMMENT ", one.comment), CommentPieces(" COMMENT ", other.comment), codec, codec);
    SameConcat(value, value, CommentPieces(" COMMENT ", one.comment) + codec,
      CommentPieces(" COMMENT ", other.comment) + codec);
    var start := [Piece(lead, Plain(one.name)), Piece("` ", one.chType)];
    SameConcat(start, start, value + (CommentPieces(" COMMENT ", one.comment) + codec),
      value + (CommentPieces(" COMMENT ", other.comment) + codec));
  }

  lemma {:induction false} SameColumns(lead: string, one: seq<Column>, other: seq<Column>)
    requires |one| == |other|
    requires forall i :: 0 <= i < |one| ==>
               other[i] == one[i].(comment := other[i].comment) && one[i].comment.Some? == other[i].comment.Some?
    ensures SamePieces(ColumnsPieces(lead, one), ColumnsPieces(lead, other))
    decreases |one|
  {
    hide SamePieces, ColumnPieces;
    if one == [] {
      SameNothing();
    } else {
      SameColumn(lead, one[0], other[0]);
      SameColumns(",\n    `", one[1..], other[1..]);
      SameConcat(ColumnPieces(lead, one[0]), ColumnPieces(lead, other[0]), ColumnsPieces(",\n    `", one[1..]),
        ColumnsPieces(",\n    `", other[1..]));
    }
  }

  lemma SameNothing()
    ensures SamePieces([], [])
  {
  }

  lemma SameSelf(a: seq<Piece>)
    ensures SamePieces(a, a)
  {
  }

  lemma SameBody(one: Table, other: Table)
    requires SameButComments(one, other)
    ensures SamePieces(BodyPieces(one), BodyPieces(other))
  {
    hide SamePieces, ColumnsPieces, ListPieces;
    SameSelf(BodyPieces(one));
    SameColumns("`\n(\n    `", one.columns, other.columns);
    var indexes := ListPieces(",\n    ", one.indexes);
    SameSelf(indexes);
    SameConcat(ColumnsPieces("`\n(\n    `", one.columns), ColumnsPieces("`\n(\n    `", other.columns), indexes,
      indexes);
  }

  lemma SameFoot(one: Table, other: Table)
    requires SameButComments(one, other)
    ensures SamePieces(Foot(one), Foot(other))
  {
    hide SamePieces, CommentPieces, ListPieces;
    SameComment("\nCOMMENT ", one.comment, other.comment);
    assert SettingsPieces(one) == SettingsPieces(other);
    SameSelf(SettingsPieces(one));
    SameConcat(SettingsPieces(one), SettingsPieces(other), CommentPieces("\nCOMMENT ", one.comment),
      CommentPieces("\nCOMMENT ", other.comment));
  }

  lemma SameAfter(one: Table, other: Table)
    requires SameButComments(one, other)
    ensures SamePieces(AfterEngine(one), AfterEngine(other))
  {
    SameFoot(one, other);
    hide SamePieces, CommentPieces, ListPieces, OrderPieces, OptionPieces, ParamsPieces;
    var params, partition, order, ttl :=
      ParamsPieces(one.params), OptionPieces("\nPARTITION BY ", one.partition), OrderPieces(one.order),
        ListPieces("\nTTL ", one.ttl);
    SameSelf(params);
    SameSelf(partition);
    SameSelf(order);
    SameSelf(ttl);
    SameConcat(ttl, ttl, Foot(one), Foot(other));
    SameConcat(order, order, ttl + Foot(one), ttl + Foot(other));
    SameConcat(partition, partition, order + (ttl + Foot(one)), order + (ttl + Foot(other)));
    SameConcat(params, params, partition + (order + (ttl + Foot(one))), partition + (order + (ttl + Foot(other))));
  }

  lemma SameRest(one: Table, other: Table)
    requires SameButComments(one, other)
    ensures SamePieces(AllPieces(one), AllPieces(other))
  {
    SameBody(one, other);
    SameAfter(one, other);
    hide SamePieces, BodyPieces, AfterEngine, Plain;
    var name := [Piece("`.`", Plain(one.name))];
    SameSelf(name);
    SameConcat(name, name, BodyPieces(one), BodyPieces(other));
    SameSelf(EnginePieces(one));
    SameConcat(EnginePieces(one), EnginePieces(other), AfterEngine(one), AfterEngine(other));
    SameConcat(TargetPieces(one), TargetPieces(other), EnginePieces(one) + AfterEngine(one),
      EnginePieces(other) + AfterEngine(other));
    var head := [Piece(Create(), Plain(one.database))];
    SameSelf(head);
    SameConcat(head, head, Rest(one), Rest(other));
  }

  // Rewording the comments of any table moves no verdict, clean or not: the statements need only be made of
  // literals that close and comments that keep to their line.
  lemma CommentsDoNotMatter(one: Table, other: Table, p: Problem)
    requires Accepted(one) && Accepted(other) && SameButComments(one, other)
    requires Valid(CreateTable(one).value) && Valid(CreateTable(other).value)
    ensures IsProblem(GateText(Flat(CreateTable(one).value)), p)
        == IsProblem(GateText(Flat(CreateTable(other).value)), p)
  {
    hide *;
    CreateTableIs(one);
    CreateTableIs(other);
    SameRest(one, other);
    SameCompose(AllPieces(one), AllPieces(other));
    LiteralsDoNotMatter(Compose(AllPieces(one)), Compose(AllPieces(other)), p);
  }
}

/** Tables that the gate misreads: a comment that says ON CLUSTER, and a column that names an engine. */
module Misreads {
  import opened Text
  import opened Words
  import opened Scan
  import opened Literals
  import opened Gate
  import opened Atoms
  import opened Comments
  import opened Searches
  import opened Pieces
  import E = Engines
  import opened Rendered
  import opened Reading
  import opened Verdict
  import opened Wrappers
  import S = Seams

  // ----- a comment that is taken for a clause

  function Misread(): string { "ON CLUSTER\n--" }

  lemma {:induction false} TwoLines(a: string, b: string)
    requires !HasBreak(a) && !HasBreak(b)
    ensures Lines(a + ("\n" + b)) == [a, b]
  {
    var x := "\n" + b;
    assert x[1..] == b && BreakLen(x) == 1;
    LinesOf(x);
    OneLineOnly(a);
    OneLineOnly(b);
    assert Parts(a, x) by { assert a != "" ==> !IsBreak(a[|a| - 1]); }
    hide *;
    LinesConcat(a, x);
    GluedTwo(a, b);
  }

  lemma GluedTwo(a: string, b: string)
    ensures Glued([a], [""] + [b]) == [a, b]
  {
    assert a + "" == a;
  }

  lemma NoBreakIn(t: string)
    requires forall i :: 0 <= i < |t| ==> 'A' <= t[i] <= 'Z' || t[i] == ' ' || t[i] == '-'
    ensures !HasBreak(t)
  {
  }

  lemma MisreadLines()
    ensures Lines(Misread()) == ["ON CLUSTER", "--"]
  {
    var a, b := "ON CLUSTER", "--";
    assert forall i :: 0 <= i < |a| ==> 'A' <= a[i] <= 'Z' || a[i] == ' ' || a[i] == '-';
    assert Misread() == a + ("\n" + b);
    hide *;
    NoBreakIn(a);
    NoBreakIn(b);
    TwoLines(a, b);
  }

  lemma DashesAreComment()
    ensures IsCommentLine("--")
  {
    assert LTrim("--") == "--";
  }

  lemma MisreadSpills()
    ensures !Harmless(Misread()) && Tidy(Misread()) == "ON CLUSTER"
  {
    var lines := ["ON CLUSTER", "--"];
    assert WithoutComments(["--"]) == [] by {
      DashesAreComment();
      WithoutOne("--", []);
      assert ["--"] + [] == ["--"];
    }
    assert lines[1..] == ["--"];
    assert RestKept(lines) == ["ON CLUSTER"] + [] == ["ON CLUSTER"];
    assert JoinLines(["ON CLUSTER"]) == "ON CLUSTER";
    hide *;
    DashesAreComment();
    MisreadLines();
    LastIs(Misread());
    HarmlessIs(Misread());
    TidyIs(Misread());
    KeptIs(Misread());
  }

  lemma ClusterIsThere(x: string)
    requires x == "" || !IsWord(x[0])
    ensures ClusterAt("ON CLUSTER" + x)
  {
    var t, r := "ON CLUSTER" + x, "CLUSTER" + x;
    assert t[2..] == " " + r && t[3..] == r;
    SpaceLenIs(t[2..], 1);
    assert forall i :: 0 <= i < 2 ==> Fold(t[i]) == "on"[i];
    assert forall i :: 0 <= i < 7 ==> Fold(r[i]) == "cluster"[i];
    hide Fold, SpaceLen, Begins;
    BeginsIs(t, "on");
    BeginsIs(r, "cluster");
    assert x != "" ==> r[7] == x[0];
  }

  lemma MisreadSays()
    ensures SaysOnCluster(Some(Misread()))
  {
    MisreadSpills();
    ClusterIsThere("");
    assert "ON CLUSTER" + "" == "ON CLUSTER";
    hide ClusterAt, Harmless, Tidy;
  }

  // A comment, and the gate says of any table that has it that it carries ON CLUSTER.
  lemma CommentMisleads(t: Table)
    requires Accepted(t) && CleanBody(t) && t.comment == Some(Misread())
    ensures var text := GateText(Flat(CreateTable(t).value)); IsProblem(text, CarriesOnCluster(Head(text)))
  {
    hide *;
    CreateTableIs(t);
    MisreadSays();
    TablePasses(t, CarriesOnCluster(Head(GateText(Flat(CreateTable(t).value)))));
  }

  // ----- tables

  // A table with nothing in it but what is given.
  function Small(columns: seq<Column>, comment: Option<string>): Table {
    Table.Table("d", "t", columns, [], "MergeTree", [], None, Unsorted, [], "8192", [], comment)
  }

  lemma SmallIsAccepted(columns: seq<Column>, comment: Option<string>)
    requires forall c <- columns :: QuoteIdent(c.name).Some?
    ensures Accepted(Small(columns, comment))
  {
    assert QuoteIdent("d").Some? && QuoteIdent("t").Some?;
    assert Flat([]) == "";
    ClauseIsThere();
    hide QuoteIdent, E.EngineClause, Flat;
  }

  lemma MergeTreeIsFamily()
    ensures E.IsFamily("MergeTree")
  {
    var f := "MergeTree";
    assert forall i :: 0 <= i < 9 ==> 'a' <= f[i] <= 'z' || 'A' <= f[i] <= 'Z';
    WholeIsFamily(f);
  }

  lemma WholeIsFamily(f: string)
    requires f == "MergeTree" && forall i :: 0 <= i < 9 ==> 'a' <= f[i] <= 'z' || 'A' <= f[i] <= 'Z'
    ensures E.IsFamily(f)
  {
    assert f[|f| - 9..] == f;
  }

  lemma NumberIsThere()
    ensures S.Digits("8192")
  {
  }

  lemma SmallIsClean(columns: seq<Column>, comment: Option<string>)
    requires forall c <- columns :: CleanColumn(c)
    ensures CleanBody(Small(columns, comment))
  {
    MergeTreeIsFamily();
    NumberIsThere();
    NothingIsClean();
    hide CleanColumn, CleanClause, E.IsFamily, S.Digits, CleanSetting, CleanLine;
  }

  lemma ClauseIsThere()
    ensures E.EngineClause(E.Spec("MergeTree", "")).Some?
  {
    assert "MergeTree"[0] == 'M' && "Replicated"[0] == 'R' && "Shared"[0] == 'S';
  }

  lemma CommentMisleadsHere()
    ensures var t := Small([], Some(Misread()));
            && Accepted(t)
            && var text := GateText(Flat(CreateTable(t).value)); IsProblem(text, CarriesOnCluster(Head(text)))
  {
    hide Accepted, CleanBody, CreateTable, Misread, IsProblem, GateText, Head;
    SmallIsAccepted([], Some(Misread()));
    SmallIsClean([], Some(Misread()));
    CreateTableIs(Small([], Some(Misread())));
    CommentMisleads(Small([], Some(Misread())));
  }

  function StringColumn(name: string): Column {
    Column(name, Plain("String"), None, None, None)
  }

  lemma StringIsClean(name: string)
    ensures CleanColumn(StringColumn(name))
  {
    assert forall i :: 0 <= i < 6 ==> 'a' <= "String"[i] <= 'z' || 'A' <= "String"[i] <= 'Z';
    hide CleanClause, Harmless;
    LettersAreClean("String");
  }

  // ----- a column's comment

  function CommentedColumn(): Column {
    Column("c", Plain("String"), None, Some(Misread()), None)
  }

  function CommentedTable(): Table { Small([CommentedColumn()], None) }

  // The statement up to the column's comment, and behind it.
  function UpToColumnComment(): seq<Piece> {
    [Piece("`.`", Plain("t")), Piece("`\n(\n    `", Plain("c")), Piece("` ", Plain("String")), Piece(" COMMENT ", [])]
  }

  function BehindColumnComment(): seq<Piece> {
    EnginePieces(Small([], None)) + AfterEngine(Small([], None))
  }

  function ColumnHead(): seq<Atom> {
    Compose([Piece(Create(), Plain("d"))] + UpToColumnComment())
  }

  lemma CommentedIsAccepted()
    ensures Accepted(CommentedTable()) && QuoteIdent("d").Some? && QuoteIdent("t").Some? && QuoteIdent("c").Some?
  {
    assert QuoteIdent("c").Some? && QuoteIdent("d").Some? && QuoteIdent("t").Some?;
    hide QuoteIdent, Accepted;
    SmallIsAccepted([CommentedColumn()], None);
  }

  lemma NameIsGood(lead: string, name: string)
    requires IsLead(lead) && !After(lead, true) && QuoteIdent(name).Some?
    ensures Good(Piece(lead, Plain(name)))
  {
    hide IsLead, After, Orderly;
    NameIsOrderly(name);
  }

  lemma TypeIsGood()
    ensures Good(Piece("` ", Plain("String"))) && Good(Piece(" COMMENT ", []))
  {
    TypeLead();
    CommentLead();
    StringIsClean("c");
    NothingIsClean();
    hide IsLead, After, Orderly, Settled, Plain;
  }

  lemma NamesAreGood()
    ensures Good(Piece("`.`", Plain("t"))) && Good(Piece("`\n(\n    `", Plain("c")))
  {
    CommentedIsAccepted();
    DotLead();
    FirstColumnLead();
    hide *;
    NameIsGood("`.`", "t");
    NameIsGood("`\n(\n    `", "c");
  }

  lemma CommentEndsMidLine()
    ensures EndsMidLine(Compose([Piece(" COMMENT ", [])]))
  {
    hide *;
    LeadEnds(" COMMENT ");
  }

  lemma FourGood(a: Piece, b: Piece, c: Piece, d: Piece)
    requires Good(a) && Good(b) && Good(c) && Good(d) && EndsMidLine(Compose([d]))
    ensures forall p <- [a, b, c, d] :: Good(p)
    ensures EndsMidLine(Compose([a, b, c, d]))
  {
    hide *;
    EndsConcat([a, b, c], [d]);
    assert [a, b, c] + [d] == [a, b, c, d];
  }

  lemma UpToColumnCommentGood()
    ensures forall p <- UpToColumnComment() :: Good(p)
    ensures EndsMidLine(Compose(UpToColumnComment()))
  {
    hide Good, Compose, Plain, EndsMidLine;
    TypeIsGood();
    NamesAreGood();
    CommentEndsMidLine();
    FourGood(Piece("`.`", Plain("t")), Piece("`\n(\n    `", Plain("c")), Piece("` ", Plain("String")),
      Piece(" COMMENT ", []));
  }

  lemma LeadEnds(l: string)
    requires l != "" && l[|l| - 1] != '\n'
    ensures EndsMidLine(Compose([Piece(l, [])]))
  {
    OneComposed(l, []);
    PlainAt(l, |l| - 1);
    hide Plain;
    assert Plain(l) + [] == Plain(l);
  }

  lemma {:induction false} PlainPieces(pieces: seq<Piece>)
    requires forall p <- pieces :: '\'' !in p.lead && Unquoted(p.clause)
    ensures Unquoted(Compose(pieces))
  {
    if pieces != [] {
      var p := pieces[0];
      assert p in pieces;
      PlainPieces(pieces[1..]);
      PlainAtoms(p.lead);
      hide Plain;
    }
  }

  lemma PlainIsUnquoted(t: string)
    requires '\'' !in t
    ensures Unquoted(Plain(t))
  {
    PlainAtoms(t);
  }

  lemma EngineWord()
    ensures "Replicated" + "MergeTree" == "ReplicatedMergeTree"
  {
  }

  lemma EngineFor(t: Table)
    ensures EnginePieces(t) == [Piece("\n)\nENGINE = ", Plain("Replicated" + t.family))]
  {
    hide Plain;
  }

  lemma EngineOfSmall()
    ensures EnginePieces(Small([], None)) == [Piece("\n)\nENGINE = ", Plain("ReplicatedMergeTree"))]
  {
    var t := Small([], None);
    assert t.family == "MergeTree";
    hide *;
    EngineWord();
    EngineFor(t);
  }

  lemma GranularityOfSmall()
    ensures "index_granularity" + (" = " + "8192") == "index_granularity = 8192"
  {
  }

  lemma SettingsOfSmall()
    ensures SettingsPieces(Small([], None)) == [Piece("\nSETTINGS\n    ", Plain("index_granularity = 8192"))]
  {
    GranularityOfSmall();
    var clause, s := Plain("index_granularity = 8192"), S.Setting("index_granularity", "8192");
    hide Plain;
    assert Settings(Small([], None)) == [s] && [s][1..] == [] && AssignedAll([]) == [];
    assert AssignedAll([s]) == [clause];
    assert [clause][1..] == [] && ListPieces(",\n    ", []) == [];
  }

  lemma AfterOfSmall()
    ensures AfterEngine(Small([], None)) == [Piece("\nORDER BY tuple()", [])] + SettingsPieces(Small([], None))
  {
    hide SettingsPieces, Plain;
    assert ParamsPieces([]) == [] && OptionPieces("\nPARTITION BY ", None) == [] && ListPieces("\nTTL ", []) == [];
    assert CommentPieces("\nCOMMENT ", None) == [] && OrderPieces(Unsorted) == [Piece("\nORDER BY tuple()", [])];
  }

  lemma BehindIs()
    ensures BehindColumnComment()
         == [Piece("\n)\nENGINE = ", Plain("ReplicatedMergeTree")), Piece("\nORDER BY tuple()", []),
             Piece("\nSETTINGS\n    ", Plain("index_granularity = 8192"))]
  {
    assert BehindColumnComment() == EnginePieces(Small([], None)) + AfterEngine(Small([], None));
    hide *;
    EngineOfSmall();
    SettingsOfSmall();
    AfterOfSmall();
    ThreeInARow(Piece("\n)\nENGINE = ", Plain("ReplicatedMergeTree")), Piece("\nORDER BY tuple()", []),
      Piece("\nSETTINGS\n    ", Plain("index_granularity = 8192")));
  }

  lemma ThreeInARow(a: Piece, b: Piece, c: Piece)
    ensures [a] + ([b] + [c]) == [a, b, c]
  {
  }

  lemma WordsAreUnquoted()
    ensures '\'' !in "\n)\nENGINE = " && '\'' !in "ReplicatedMergeTree"
    ensures '\'' !in "\nORDER BY tuple()"
  {
  }

  lemma SettingsAreUnquoted()
    ensures '\'' !in "\nSETTINGS\n    " && '\'' !in "index_granularity = 8192"
  {
  }

  lemma BehindGood()
    ensures forall p <- BehindColumnComment() :: Good(p)
  {
    var t := Small([], None);
    SmallIsAccepted([], None);
    SmallIsClean([], None);
    assert CleanTable(t) by { hide CleanBody; }
    assert E.IsFamily(t.family) by { MergeTreeIsFamily(); }
    hide Accepted, CleanTable, E.IsFamily, EnginePieces, AfterEngine, Good, Told, Small;
    AfterGood(t);
    EngineIsGood(t);
  }

  lemma BehindEnds()
    ensures EndsMidLine(Compose(BehindColumnComment()))
  {
    var clause := Plain("index_granularity = 8192");
    PlainAtoms("index_granularity = 8192");
    SettingHasNoBreak();
    assert OneLiner(clause) && clause != [] by { hide Plain, IsBreak; }
    hide *;
    BehindIs();
    var first := [Piece("\n)\nENGINE = ", Plain("ReplicatedMergeTree")), Piece("\nORDER BY tuple()", [])];
    ClauseEnds("\nSETTINGS\n    ", clause);
    EndsConcat(first, [Piece("\nSETTINGS\n    ", clause)]);
    assert first + [Piece("\nSETTINGS\n    ", clause)] == BehindColumnComment();
  }

  lemma SettingHasNoBreak()
    ensures forall c <- "index_granularity = 8192" :: !IsBreak(c)
  {
    var t := "index_granularity = 8192";
    assert forall i :: 0 <= i < |t| ==> ' ' <= t[i] <= '~';
    hide IsBreak;
    forall c | c in t ensures !IsBreak(c) {
      PrintableIsNoBreak(c);
    }
  }

  lemma PrintableIsNoBreak(c: char)
    requires ' ' <= c <= '~'
    ensures !IsBreak(c)
  {
  }

  lemma BehindFirst()
    ensures Compose(BehindColumnComment()) != [] && Compose(BehindColumnComment())[0] == Ch('\n')
  {
    hide *;
    BehindIs();
    ComposeFirst(BehindColumnComment());
  }

  lemma ComposeFirst(pieces: seq<Piece>)
    requires pieces != [] && pieces[0].lead != ""
    ensures Compose(pieces) != [] && Compose(pieces)[0] == Ch(pieces[0].lead[0])
  {
    PlainAtoms(pieces[0].lead);
    hide Plain;
  }

  lemma BehindEndsLine()
    ensures EndsLine(Compose(BehindColumnComment()))
  {
    hide *;
    BehindGood();
    BehindEnds();
    BehindFirst();
    BehindUnquoted();
    GoodPieces(BehindColumnComment());
    NoCommentInPieces(BehindColumnComment(), false);
    EndsLineIs(Compose(BehindColumnComment()));
  }

  lemma EndsLineIs(tail: seq<Atom>)
    requires Unquoted(tail) && NoComment(tail, false) && tail != [] && tail[0] == Ch('\n') && EndsMidLine(tail)
    ensures EndsLine(tail)
  {
  }

  lemma ThreeUnquoted(a: Piece, b: Piece, c: Piece)
    requires '\'' !in a.lead && Unquoted(a.clause) && '\'' !in b.lead && b.clause == [] && '\'' !in c.lead
        && Unquoted(c.clause)
    ensures Unquoted(Compose([a, b, c]))
  {
    hide Compose;
    PlainPieces([a, b, c]);
  }

  lemma BehindUnquoted()
    ensures Unquoted(Compose(BehindColumnComment()))
  {
    hide *;
    BehindIs();
    WordsAreUnquoted();
    SettingsAreUnquoted();
    PlainIsUnquoted("ReplicatedMergeTree");
    PlainIsUnquoted("index_granularity = 8192");
    ThreeUnquoted(Piece("\n)\nENGINE = ", Plain("ReplicatedMergeTree")), Piece("\nORDER BY tuple()", []),
      Piece("\nSETTINGS\n    ", Plain("index_granularity = 8192")));
  }

  lemma CommentedIs()
    ensures AllPieces(CommentedTable())
         == [Piece(Create(), Plain("d"))]
            + ([Piece("`.`", Plain("t")), Piece("`\n(\n    `", Plain("c")), Piece("` ", Plain("String"))]
               + ([Piece(" COMMENT ", Quoted(Misread()))] + BehindColumnComment()))
  {
    var t, c := CommentedTable(), CommentedColumn();
    hide Plain, Quoted, Misread, AfterEngine, EnginePieces;
    assert ColumnsPieces("`\n(\n    `", [c]) == ColumnPieces("`\n(\n    `", c) by {
      assert [c][1..] == [] && ColumnsPieces(",\n    `", []) == [];
    }
    assert ColumnPieces("`\n(\n    `", c)
        == [Piece("`\n(\n    `", Plain("c")), Piece("` ", Plain("String")), Piece(" COMMENT ", Quoted(Misread()))];
    assert ListPieces(",\n    ", []) == [];
    SameBehind();
  }

  lemma SameBehind()
    ensures EnginePieces(CommentedTable()) + AfterEngine(CommentedTable()) == BehindColumnComment()
  {
    hide Plain, Quoted, Misread, OrderPieces, ListPieces;
  }

  lemma CommentedComposes()
    ensures Compose(AllPieces(CommentedTable()))
        == ColumnHead() + [Lit(Escaped(Misread()))] + Compose(BehindColumnComment())
  {
    var rest := [Piece("`.`", Plain("t")), Piece("`\n(\n    `", Plain("c")), Piece("` ", Plain("String"))];
    assert ColumnHead() == Compose([Piece(Create(), Plain("d"))] + (rest + [Piece(" COMMENT ", [])])) by {
      assert rest + [Piece(" COMMENT ", [])] == UpToColumnComment();
    }
    hide *;
    CommentedIs();
    QuotedIs(Misread());
    var lead, lit, head, tail := " COMMENT ", [Lit(Escaped(Misread()))], [Piece(Create(), Plain("d"))],
      BehindColumnComment();
    OneComposed(lead, lit);
    OneComposed(lead, []);
    ComposeConcat(head, rest + ([Piece(lead, lit)] + tail));
    ComposeConcat(rest, [Piece(lead, lit)] + tail);
    ComposeConcat([Piece(lead, lit)], tail);
    ComposeConcat(head, rest + [Piece(lead, [])]);
    ComposeConcat(rest, [Piece(lead, [])]);
    InTheMiddle(Compose(head), Compose(rest), Plain(lead), lit, Compose(tail));
  }

  lemma InTheMiddle(a: seq<Atom>, b: seq<Atom>, c: seq<Atom>, d: seq<Atom>, e: seq<Atom>)
    ensures a + (b + (c + d + e)) == a + (b + (c + [])) + d + e
  {
  }

  lemma FoundHere(head: string, y: string)
    requires y != "" && !IsWord(y[0])
    ensures FindsCluster(head + ("'" + ("ON CLUSTER" + y)), false)
  {
    var x := "ON CLUSTER" + y;
    ClusterIsThere(y);
    assert ("'" + x)[1..] == x && !IsWord('\'');
    hide ClusterAt;
    FoundBehind(head, "'" + x, false);
  }

  lemma CreatePrefix(rest: string)
    ensures "CREATE TABLE " <= Create() + rest
  {
    assert "CREATE TABLE " <= Create();
  }

  lemma OpensHead()
    ensures "CREATE TABLE " <= Skeleton(ColumnHead())
  {
    ColumnHeadIs();
    hide *;
    CreatePrefix("d" + Bare(UpToColumnComment()));
    HeadComposes(Create(), "d", UpToColumnComment());
    ComposeSkeleton([Piece(Create(), Plain("d"))] + UpToColumnComment());
  }

  lemma ColumnHeadIs()
    ensures ColumnHead() == Compose([Piece(Create(), Plain("d"))] + UpToColumnComment())
  {
    hide Compose, Plain, UpToColumnComment;
  }

  lemma HeadOf(text: string, head: string, x: string)
    requires "CREATE TABLE " <= head && text == head + x
    ensures KindOf(text) == Kind.Table
  {
    assert text == "CREATE TABLE " + text[13..];
    hide KindOf;
    KindIsTable(text[13..]);
  }

  lemma CarriesCluster(text: string)
    requires KindOf(text) == Kind.Table && FindsCluster(text, false)
    ensures IsProblem(text, CarriesOnCluster(Head(text)))
  {
    hide KindOf, FindsCluster, Head, FirstEngine, FirstExplicit;
  }

  // A column's comment does the same harm where no literal follows to close it.
  lemma ColumnCommentMisleads()
    ensures var t := CommentedTable();
            && Accepted(t)
            && var text := GateText(Flat(CreateTable(t).value)); IsProblem(text, CarriesOnCluster(Head(text)))
  {
    hide *;
    var t, tail := CommentedTable(), Compose(BehindColumnComment());
    CommentedIsAccepted();
    CreateTableIs(t);
    CommentedComposes();
    UpToColumnCommentGood();
    HeadIs();
    HeadReads(Small([], None), UpToColumnComment());
    MisreadSpills();
    ClusterIsPlain();
    BehindEndsLine();
    BehindFirst();
    TailStarts(tail);
    AroundLiteral(ColumnHead(), Misread(), tail);
    LiteralSpills(ColumnHead(), Misread(), tail);
    OpensHead();
    var head, text := Skeleton(ColumnHead()), GateText(Flat(CreateTable(t).value));
    HeadOf(text, head, "'" + ("ON CLUSTER" + Flat(tail)));
    FoundHere(head, Flat(tail));
    CarriesCluster(text);
  }

  lemma HeadIs()
    ensures ColumnHead() == Compose([Piece(Create(), Plain(Small([], None).database))] + UpToColumnComment())
    ensures QuoteIdent(Small([], None).database).Some?
  {
    hide Plain, Compose, UpToColumnComment;
  }

  lemma TailStarts(tail: seq<Atom>)
    requires EndsLine(tail)
    ensures Unquoted(tail) && (tail != [] ==> Flat(tail) != "" && !IsWord(Flat(tail)[0]))
  {
  }

  lemma ClusterIsPlain()
    ensures Escaped("ON CLUSTER") == "ON CLUSTER"
  {
    PlainEscaped("ON CLUSTER");
  }

  lemma {:induction false} PlainEscaped(t: string)
    requires forall i :: 0 <= i < |t| ==> t[i] != '\'' && t[i] != '\\'
    ensures Escaped(t) == t
  {
    if t != "" {
      assert forall i :: 0 <= i < |t[1..]| ==> t[1..][i] == t[i + 1];
      PlainEscaped(t[1..]);
    }
  }

  // ----- a column's name

  lemma EngineBegins(engine: string)
    ensures Begins("ENGINE=" + engine, "engine") && ("ENGINE=" + engine)[6..] == "=" + engine
        && ("ENGINE=" + engine)[7..] == engine
  {
    var t := "ENGINE=" + engine;
    assert forall i :: 0 <= i < 6 ==> Fold(t[i]) == "engine"[i];
    hide Begins, Fold;
    BeginsIs(t, "engine");
  }

  lemma AssignHere(t: string)
    requires Begins(t, "engine") && |t| > 6 && t[6] == '='
    ensures EngineLen(t) == 7
  {
    assert t[6..][0] == '=' && !IsSpace('=');
    hide Begins, IsSpace;
    SpaceLenIs(t[6..], 0);
  }

  lemma NameIsNoSpace(engine: string)
    requires engine != "" && IsNameStart(engine[0])
    ensures SpaceLen(engine) == 0
  {
    assert !IsSpace(engine[0]);
  }

  lemma EngineLenHere(engine: string)
    requires engine != "" && IsNameStart(engine[0])
    ensures var t := "ENGINE=" + engine; EngineLen(t) == 7 && t[7..] == engine && SpaceLen(engine) == 0
  {
    hide *;
    EngineBegins(engine);
    NameIsNoSpace(engine);
    var t := "ENGINE=" + engine;
    assert t[6] == t[6..][0] == '=';
    AssignHere(t);
  }

  // `ENGINE=` and an engine.
  lemma EngineNamed(engine: string)
    requires engine != "" && IsNameStart(engine[0]) && NameLen(engine) == |engine|
    ensures FirstEngine("ENGINE=" + engine, false) == Some(engine)
  {
    hide EngineLen, NameLen, IsNameStart, SpaceLen;
    EngineLenHere(engine);
    var t := "ENGINE=" + engine;
    assert engine[..|engine|] == engine && engine[0..] == engine;
    assert BehindEngine(t) == Some(engine);
    hide BehindEngine;
    assert EngineAt(t) == Some(engine);
  }

  function NamedTable(engine: string): Table { Small([StringColumn("ENGINE=" + engine)], None) }

  lemma NamedIsClean(engine: string)
    requires QuoteIdent("ENGINE=" + engine).Some?
    ensures Accepted(NamedTable(engine)) && CleanBody(NamedTable(engine)) && NamedTable(engine).comment == None
  {
    var c := StringColumn("ENGINE=" + engine);
    StringIsClean("ENGINE=" + engine);
    hide Accepted, CleanBody, CleanColumn, QuoteIdent;
    SmallIsAccepted([c], None);
    SmallIsClean([c], None);
  }

  lemma ShortName(name: string)
    requires |name| == 1
    ensures FirstEngine(name, false) == None
  {
    assert EngineLen(name) == 0;
    assert name[1..] == "";
  }

  lemma NamedClaims(engine: string)
    ensures FirstClaim(NamesOf(NamedTable(engine))) == FirstClaim(["ENGINE=" + engine])
  {
    var c := StringColumn("ENGINE=" + engine);
    assert ColumnNames([c]) == ["ENGINE=" + engine] by { assert [c][1..] == [] && ColumnNames([]) == []; }
    ShortName("d");
    ShortName("t");
    hide FirstEngine;
    var names := NamesOf(NamedTable(engine));
    assert names == ["d", "t", "ENGINE=" + engine];
    assert names[1..] == ["t", "ENGINE=" + engine] && names[1..][1..] == ["ENGINE=" + engine];
  }

  lemma OneClaim(name: string)
    ensures FirstClaim([name]) == FirstEngine(name, false)
  {
    hide FirstEngine;
    assert [name][1..] == [];
  }

  lemma NameX()
    ensures QuoteIdent("ENGINE=" + "x").Some? && NameLen("x") == 1 && IsNameStart('x') && !Admitted("x")
  {
    assert "ENGINE=" + "x" == "ENGINE=x";
    assert "x"[1..] == "" && NameLen("") == 0;
    assert "Replicated"[0] != 'x';
  }

  // A column called `ENGINE=x` is taken for an engine called x.
  lemma NameMisleads()
    ensures Accepted(NamedTable("x"))
    ensures var text := GateText(Flat(CreateTable(NamedTable("x")).value));
            IsProblem(text, NotReplicated("x", Head(text)))
  {
    hide *;
    NameX();
    NamedIsClean("x");
    CreateTableIs(NamedTable("x"));
    EngineNamed("x");
    NamedClaims("x");
    OneClaim("ENGINE=" + "x");
    TablePasses(NamedTable("x"), NotReplicated("x", Head(GateText(Flat(CreateTable(NamedTable("x")).value)))));
  }

  // A column called `ENGINE=Replicated` draws no problem.
  lemma NameMayNameAReplica(p: Problem)
    ensures Accepted(NamedTable("Replicated"))
    ensures !IsProblem(GateText(Flat(CreateTable(NamedTable("Replicated")).value)), p)
  {
    NameReplicated();
    assert Skeleton([]) == "" && NamedTable("Replicated").params == [];
    hide *;
    NoLiterals();
    NamedIsClean("Replicated");
    CreateTableIs(NamedTable("Replicated"));
    EngineNamed("Replicated");
    NamedClaims("Replicated");
    OneClaim("ENGINE=" + "Replicated");
    TablePasses(NamedTable("Replicated"), p);
  }

  predicate IsPlainChar(c: char) {
    'a' <= c <= 'z' || 'A' <= c <= 'Z' || c == '='
  }

  lemma PlainIsQuoted(name: string)
    requires name != "" && forall i :: 0 <= i < |name| ==> IsPlainChar(name[i])
    ensures QuoteIdent(name).Some?
  {
    assert forall c :: IsPlainChar(c) ==> !IsUnsafe(c);
    hide IsUnsafe, IsPlainChar;
  }

  lemma PlainParts()
    ensures forall i :: 0 <= i < 7 ==> IsPlainChar("ENGINE="[i])
    ensures forall i :: 0 <= i < 10 ==> IsPlainChar("Replicated"[i]) && "Replicated"[i] != '='
  {
  }

  lemma NameReplicated()
    ensures QuoteIdent("ENGINE=" + "Replicated").Some? && NameLen("Replicated") == |"Replicated"|
        && IsNameStart("Replicated"[0])
    ensures Admitted("Replicated")
  {
    var e, r := "ENGINE=", "Replicated";
    PlainParts();
    assert IsNameStart(r[0]) && Admitted(r);
    LettersNamed(r);
    hide *;
    assert forall i :: 0 <= i < |e + r| ==> (e + r)[i] == if i < |e| then e[i] else r[i - |e|];
    PlainIsQuoted(e + r);
  }

  lemma {:induction false} LettersNamed(t: string)
    requires forall i :: 0 <= i < |t| ==> IsPlainChar(t[i]) && t[i] != '='
    ensures NameLen(t) == |t|
  {
    if t != "" {
      assert forall i :: 0 <= i < |t[1..]| ==> t[1..][i] == t[i + 1];
      LettersNamed(t[1..]);
    }
  }
}

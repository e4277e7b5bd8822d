/** What the one-DDL gate says of a CREATE DATABASE, and of any statement by its kind and the engine it names. */
module Statements {
  import opened Text
  import opened Scan
  import opened Words
  import opened Literals
  import opened Gate
  import opened Atoms
  import opened Comments
  import opened Searches
  import opened Patterns
  import opened Pieces
  import opened Wrappers
  import opened Databases
  import Probe
  import V = Verdict
  import R = Reading
  import D = Rendered
  import L = Layout
  import M = Misreads

  // ----- one assignment in a text

  ghost predicate IsWordOfLetters(e: string) {
    e != "" && forall i :: 0 <= i < |e| ==> IsFoldLetter(e[i])
  }

  // Two literals open the arguments.
  predicate NamesItsPath(y: string) {
    match Behind(y, "(")
    case None => false
    case Some(args) => TwoLiterals(args)
  }

  function Assigns(x: string, e: string, y: string): string {
    x + V.EngineIs(e, y)
  }

  lemma NameRunsOut(e: string, y: string)
    requires IsWordOfLetters(e) && WordEnds(y)
    ensures NameLen(e + y) == |e| && LettersLen(e + y) == |e| && (e + y)[..|e|] == e && (e + y)[|e|..] == y
    ensures IsNameStart((e + y)[0])
  {
    assert y != "" ==> !IsNameChar(y[0]) && !IsFoldLetter(y[0]) by {
      assert y != "" ==> !IsWord(y[0]);
    }
    forall i | 0 <= i < |e| ensures IsNameChar(e[i]) {
    }
    hide IsFoldLetter, IsNameChar, IsNameStart, IsWord;
    NameCharIsSolid(e[0]);
    NameLenIs(e, y);
    LettersLenIs(e, y);
    assert (e + y)[0] == e[0];
  }

  lemma AssignedHere(e: string, y: string)
    requires IsWordOfLetters(e) && WordEnds(y)
    ensures var b := V.EngineIs(e, y);
            && EngineAt(b) == Some(e)
            && ExplicitAt(b) == if IsReplicatedFamily(e) && NamesItsPath(y) then Some(e) else None
  {
    NameRunsOut(e, y);
    V.EngineHere(e, y);
    hide BehindEngine, IsFoldLetter, NameLen, LettersLen, IsNameStart, IsReplicatedFamily, Behind, TwoLiterals;
    assert V.EngineIs(e, y) != "";
  }

  lemma NothingFollows(e: string, y: string)
    requires '=' !in e && '=' !in y
    ensures FirstExplicit(V.EngineIs(e, y)[1..], true) == None
  {
    var b := "NGINE = " + (e + y);
    assert V.EngineIs(e, y)[1..] == b;
    V.NoAssignInside(e + y);
    assert Seam(b, "") by { EmptySeam(b); }
    hide FindsAssign, Seam;
    EngineSkips(b, "", true);
    assert b + "" == b;
  }

  lemma EmptySeam(b: string)
    ensures Seam(b, "")
  {
    assert SpaceLen("") == 0 && FirstSolid("") == ' ' && !StartsCl("");
  }

  // What precedes the assignment ends no word.
  ghost predicate EndsNoWord(x: string) {
    x == "" || !IsWord(x[|x| - 1])
  }

  lemma EngineSeam(x: string, rest: string)
    requires EndsNoWord(x)
    ensures Seam(x, "ENGINE = " + rest)
  {
    var b := "ENGINE = " + rest;
    assert b[0] == 'E' && !IsSpace('E') && "cl"[0] == 'c' && Fold('E') == 'e';
    hide IsSpace, Fold;
    SpaceLenIs(b, 0);
    assert b[0..] == b;
    BeginsNot(b, "cl", 0);
  }

  lemma OneAssignment(x: string, e: string, y: string)
    requires '=' !in x && '=' !in y && IsWordOfLetters(e) && WordEnds(y) && EndsNoWord(x)
    ensures var g := Assigns(x, e, y);
            && FirstEngine(g, false) == Some(e)
            && FirstExplicit(g, false) == if IsReplicatedFamily(e) && NamesItsPath(y) then Some(e) else None
  {
    var b := V.EngineIs(e, y);
    assert '=' !in e by { assert forall i :: 0 <= i < |e| ==> IsFoldLetter(e[i]) && !IsFoldLetter('='); }
    AssignedHere(e, y);
    NothingFollows(e, y);
    NoEqualsNoAssign(x, false);
    EngineSeam(x, e + y);
    assert b[0] == 'E';
    assert IsWord('E');
    hide EngineAt, ExplicitAt, FindsAssign, Seam, IsReplicatedFamily, NamesItsPath;
    EngineSkips(x, b, false);
  }

  // ----- the verdict by kind and engine

  // What the gate has to say of a statement of the kind whose one assignment of an engine is of `e`.
  ghost predicate IsSaidOf(kind: Kind, e: string, y: string, cluster: bool, head: string, p: Problem) {
    || (p == CarriesOnCluster(head) && cluster && !(kind == Kind.Database && e == "Replicated"))
    || (p == NotReplicated(e, head) && kind == Kind.Table && !("Replicated" <= e) && e != "Merge")
    || (p == InnerNotReplicated(e, head) && kind == MaterializedView && !("Replicated" <= e))
    || (p == NamesItsOwnPath(e, head) && FamilyName(e) && OpensTwoLiterals(y))
  }

  lemma KindAndEngineDecide(x: string, e: string, y: string, kind: Kind, p: Problem)
    requires '=' !in x && '=' !in y && IsWordOfLetters(e) && WordEnds(y) && EndsNoWord(x)
    requires kind != Other && Creates(Assigns(x, e, y), kind)
    ensures var g := Assigns(x, e, y);
            IsProblem(g, p) <==> IsSaidOf(kind, e, y, exists i :: ClusterAtPlace(g, i, false), Head(g), p)
  {
    assert forall i :: 0 <= i < |e| ==> IsFoldLetter(e[i]);
    hide *;
    var g := Assigns(x, e, y);
    OneAssignment(x, e, y);
    KindIsCreated(g, kind);
    FindsClusterIs(g, false);
    FamilyIs(e);
    TwoLiteralsAre(y);
    PathIs(y);
    Decides(g, e, y, kind, exists i :: ClusterAtPlace(g, i, false), p);
  }

  lemma PathIs(y: string)
    ensures NamesItsPath(y) <==> Behind(y, "(").Some? && TwoLiterals(Behind(y, "(").value)
  {
    hide Behind, TwoLiterals;
  }

  lemma Decides(g: string, e: string, y: string, kind: Kind, cluster: bool, p: Problem)
    requires KindOf(g) == kind != Other && FirstEngine(g, false) == Some(e) && FindsCluster(g, false) == cluster
    requires FirstExplicit(g, false) == if FamilyName(e) && OpensTwoLiterals(y) then Some(e) else None
    ensures IsProblem(g, p) <==> IsSaidOf(kind, e, y, cluster, Head(g), p)
  {
    hide FindsCluster, FirstEngine, FirstExplicit, KindOf, Head, FamilyName, OpensTwoLiterals;
  }

  // ----- statements without a literal

  // No quote and no dash, and no line break but the newline, which does not end the text.
  ghost predicate Ordinary(t: string) {
    t != "" && t[|t| - 1] != '\n'
    && forall i :: 0 <= i < |t| ==> t[i] != '\'' && t[i] != '-' && (IsBreak(t[i]) ==> t[i] == '\n')
  }

  lemma {:induction false} OrdinaryAtoms(t: string, atStart: bool)
    requires forall i :: 0 <= i < |t| ==> t[i] != '\'' && t[i] != '-' && (IsBreak(t[i]) ==> t[i] == '\n')
    ensures NoComment(Plain(t), atStart) && (t != "" ==> Plain(t)[|t| - 1] == Ch(t[|t| - 1]))
    ensures forall a <- Plain(t) :: IsReadable(a)
  {
    if t != "" {
      assert forall i :: 0 <= i < |t[1..]| ==> t[1..][i] == t[i + 1];
      OrdinaryAtoms(t[1..], true);
      OrdinaryAtoms(t[1..], false);
    }
  }

  lemma OrdinaryIsReadWhole(t: string)
    requires Ordinary(t)
    ensures GateText(t) == t
  {
    OrdinaryAtoms(t, true);
    PlainText(t);
    hide Plain, NoComment, IsReadable;
    GateReadsAll(Plain(t));
  }

  // A statement without a literal or a comment, by what it creates and the engine it names: a table takes a
  // replicated engine or Merge, a view's inner table a replicated engine.
  lemma PlainVerdict(x: string, e: string, y: string, kind: Kind, p: Problem)
    requires Ordinary(Assigns(x, e, y)) && '=' !in x && '=' !in y && IsWordOfLetters(e) && WordEnds(y) && EndsNoWord(x)
    requires kind != Other && Creates(Assigns(x, e, y), kind)
    requires forall i :: !ClusterAtPlace(Assigns(x, e, y), i, false)
    ensures var t := Assigns(x, e, y);
            IsProblem(GateText(t), p)
            <==> || (p == NotReplicated(e, Head(t)) && kind == Kind.Table && !("Replicated" <= e) && e != "Merge")
                 || (p == InnerNotReplicated(e, Head(t)) && kind == MaterializedView && !("Replicated" <= e))
  {
    OrdinaryIsReadWhole(Assigns(x, e, y));
    NoQuoteNoLiterals(x, e, y);
    hide Ordinary, Creates, ClusterAtPlace, IsProblem, Head, FamilyName, OpensTwoLiterals;
    KindAndEngineDecide(x, e, y, kind, p);
  }

  lemma LiteralsAreQuoted(y: string)
    requires OpensTwoLiterals(y)
    ensures '\'' in y
  {
    hide IsSpace;
    var r1, r2, r3, r4 :| Leads(y, "(", r1) && Leads(r1, "''", r2) && Leads(r2, ",", r3) && Leads(r3, "''", r4);
    var s :| AllSpace(s) && y == s + ("(" + r1);
    var v :| AllSpace(v) && r1 == v + ("''" + r2);
    assert y[|s| + 1 + |v|] == r1[|v|] == '\'';
  }

  lemma NoQuoteNoLiterals(x: string, e: string, y: string)
    requires Ordinary(Assigns(x, e, y))
    ensures !OpensTwoLiterals(y)
  {
    var t := Assigns(x, e, y);
    assert forall i :: 0 <= i < |y| ==> y[i] == t[|t| - |y| + i];
    hide IsBreak, OpensTwoLiterals;
    assert '\'' !in y;
    if OpensTwoLiterals(y) {
      LiteralsAreQuoted(y);
    }
  }

  // A table that names no engine.
  lemma NoEngineVerdict(t: string, p: Problem)
    requires Ordinary(t) && '=' !in t && Creates(t, Kind.Table) && forall i :: !ClusterAtPlace(t, i, false)
    ensures IsProblem(GateText(t), p) <==> p == DeclaresNoEngine(Head(t))
  {
    OrdinaryIsReadWhole(t);
    KindIsCreated(t, Kind.Table);
    FindsClusterIs(t, false);
    NoEqualsFindsNothing(t);
    hide FirstEngine, FirstExplicit, FindsCluster, KindOf, Creates, Head, Ordinary, GateText, ClusterAtPlace;
  }

  // ----- CREATE DATABASE

  // The self-hosted statement, naming the engine `e`.
  function NamesEngine(d: string, e: string): string {
    Opening(d) + (OnEveryServer() + ("\nENGINE = " + (e + ("(" + EngineArguments(d)))))
  }

  lemma SelfHostedNamesReplicated(d: string)
    requires IsBare(d)
    ensures CreateDatabase(d, Probe.SelfHosted) == Ok(NamesEngine(d, "Replicated"))
  {
    var args := EngineArguments(d);
    assert "\nENGINE = Replicated(" + args == "\nENGINE = " + ("Replicated" + ("(" + args)) by {
      assert "\nENGINE = Replicated(" == "\nENGINE = " + ("Replicated" + "(");
    }
    hide IsBare, Opening, OnEveryServer, EngineArguments;
  }

  lemma {:induction false} BlankedPast(a: string, x: string)
    requires '\'' !in a
    ensures Blanked(a + x) == a + Blanked(x)
  {
    if a == "" {
      assert a + x == x;
    } else {
      assert (a + x)[0] == a[0] && (a + x)[1..] == a[1..] + x;
      BlankedPast(a[1..], x);
    }
  }

  // A text of one line without quotes or backslashes.
  ghost predicate Simple(t: string) {
    forall i :: 0 <= i < |t| ==> t[i] != '\'' && t[i] != '\\' && !IsBreak(t[i])
  }

  lemma SimpleConcat(a: string, b: string)
    requires Simple(a) && Simple(b)
    ensures Simple(a + b)
  {
  }

  lemma SimpleIsAtom(body: string)
    requires Simple(body)
    ensures IsAtom(Lit(body))
  {
    hide IsBody, IsBreak;
    M.PlainEscaped(body);
    EscapedIsBody(body);
  }

  function Quote(body: string, x: string): string {
    "'" + (body + ("'" + x))
  }

  lemma WrittenIs(body: string, x: string)
    ensures Written(Lit(body)) + x == Quote(body, x)
  {
  }

  lemma BlankedLiteral(body: string, x: string)
    requires Simple(body)
    ensures Blanked(Quote(body, x)) == "''" + Blanked(x)
  {
    hide *;
    SimpleIsAtom(body);
    BlankedAtom(Lit(body), x);
    WrittenIs(body, x);
  }

  lemma LettersAreSimple(e: string)
    requires IsWordOfLetters(e)
    ensures Simple(e) && '=' !in e
  {
  }

  lemma BareIsSimple(d: string)
    requires IsBare(d)
    ensures Simple(d) && '=' !in d && forall i :: 0 <= i < |d| ==> IsWord(d[i])
  {
  }

  lemma OpeningWordsAreSimple()
    ensures Simple("CREATE DATABASE IF NOT EXISTS ") && Simple(" ON CLUSTER ") && Simple("ENGINE = ")
    ensures Simple("(") && Simple(")") && Simple(", ")
  {
  }

  lemma WordsAreSimple()
    ensures Simple("CREATE DATABASE IF NOT EXISTS ") && Simple(" ON CLUSTER ") && Simple("{cluster}")
    ensures Simple("/clickhouse/databases/") && Simple("{shard}") && Simple("{replica}") && Simple(", ")
    ensures Simple("ENGINE = ") && Simple("(") && Simple(")")
  {
    OpeningWordsAreSimple();
  }

  lemma ArgumentsBlanked(d: string)
    requires IsBare(d)
    ensures Blanked(EngineArguments(d)) == "'', '', '')"
  {
    var path := "/clickhouse/databases/" + d;
    WordsAreSimple();
    BareIsSimple(d);
    hide IsBare, Blanked;
    SimpleConcat("/clickhouse/databases/", d);
    hide *;
    var y := ", " + Quote("{replica}", ")");
    var x := ", " + Quote("{shard}", y);
    assert EngineArguments(d) == Quote(path, x) by { ArgumentsAre(d); }
    BlankedLiteral(path, x);
    BlankedPast(", ", Quote("{shard}", y));
    BlankedLiteral("{shard}", y);
    BlankedPast(", ", Quote("{replica}", ")"));
    BlankedLiteral("{replica}", ")");
    BlankedPast(")", "");
    assert Blanked("") == "" by { BlankedNothing(); }
    assert ")" + "" == ")";
    ArgumentsLeft();
  }

  lemma BlankedNothing()
    ensures Blanked("") == ""
  {
  }

  lemma ArgumentsLeft()
    ensures "''" + (", " + ("''" + (", " + ("''" + ")")))) == "'', '', '')"
  {
  }

  lemma ArgumentsAre(d: string)
    ensures var y := ", " + Quote("{replica}", ")");
            EngineArguments(d) == Quote("/clickhouse/databases/" + d, ", " + Quote("{shard}", y))
  {
    ArgumentsTail();
    var x := ", " + Quote("{shard}", ", " + Quote("{replica}", ")"));
    assert Quote("/clickhouse/databases/" + d, x) == "'/clickhouse/databases/" + d + ("'" + x) by {
      assert "'" + "/clickhouse/databases/" == "'/clickhouse/databases/";
    }
  }

  lemma ReplicaTail()
    ensures ", " + Quote("{replica}", ")") == ", '{replica}')"
  {
  }

  lemma ArgumentsTail()
    ensures "', '{shard}', '{replica}')" == "'" + (", " + Quote("{shard}", ", " + Quote("{replica}", ")")))
  {
    ReplicaTail();
    var y := ", '{replica}')";
    assert Quote("{shard}", y) == "'{shard}'" + y;
  }

  // ----- its two lines

  lemma SimpleHasNoBreak(t: string)
    requires Simple(t)
    ensures !HasBreak(t)
  {
  }

  lemma WordsHaveNoBreak()
    ensures !HasBreak(" ON CLUSTER '{cluster}'") && !HasBreak("'/clickhouse/databases/")
  {
  }

  lemma MacrosHaveNoBreak()
    ensures !HasBreak("', '{shard}', '{replica}')")
  {
  }

  function FirstLine(d: string): string { Opening(d) + OnEveryServer() }
  function SecondLine(d: string, e: string): string { "ENGINE = " + (e + ("(" + EngineArguments(d))) }

  lemma LinesHaveNoBreak(d: string, e: string)
    requires IsBare(d) && IsWordOfLetters(e)
    ensures !HasBreak(FirstLine(d)) && !HasBreak(SecondLine(d, e))
  {
    WordsAreSimple();
    WordsHaveNoBreak();
    MacrosHaveNoBreak();
    BareIsSimple(d);
    LettersAreSimple(e);
    hide IsBare, IsWordOfLetters, Simple, HasBreak;
    SimpleHasNoBreak("CREATE DATABASE IF NOT EXISTS ");
    SimpleHasNoBreak("ENGINE = ");
    SimpleHasNoBreak("(");
    SimpleHasNoBreak(d);
    SimpleHasNoBreak(e);
    NoBreakJoin("CREATE DATABASE IF NOT EXISTS ", d);
    NoBreakJoin(Opening(d), " ON CLUSTER '{cluster}'");
    NoBreakJoin("'/clickhouse/databases/", d);
    NoBreakJoin("'/clickhouse/databases/" + d, "', '{shard}', '{replica}')");
    NoBreakJoin("(", EngineArguments(d));
    NoBreakJoin(e, "(" + EngineArguments(d));
    NoBreakJoin("ENGINE = ", e + ("(" + EngineArguments(d)));
  }

  lemma StartsNoComment(t: string)
    requires t != "" && !IsSpace(t[0]) && t[0] != '-'
    ensures !IsCommentLine(t)
  {
  }

  lemma BothKept(a: string, b: string)
    requires !IsCommentLine(a) && !IsCommentLine(b)
    ensures WithoutComments([a, b]) == [a, b]
  {
    hide IsCommentLine;
    assert WithoutComments([]) == [];
    WithoutOne(b, []);
    WithoutOne(a, [b]);
    assert [b] + [] == [b] && [a] + [b] == [a, b];
  }

  lemma BothJoined(a: string, b: string)
    ensures JoinLines([a, b]) == a + ("\n" + b) && [a] + [b] == [a, b]
  {
    assert [a, b][1..] == [b];
  }

  lemma TwoLinesAreRead(a: string, b: string)
    requires a != "" && b != "" && !HasBreak(a) && !HasBreak(b) && !IsCommentLine(a) && !IsCommentLine(b)
    ensures GateText(a + ("\n" + b)) == Blanked(a + ("\n" + b))
  {
    hide *;
    L.SplitOne(a, b);
    L.SplitLast(b);
    BothKept(a, b);
    BothJoined(a, b);
    GateTextIs(a + ("\n" + b));
  }

  // The text that the gate reads: the four literals emptied.
  function HeadLine(d: string): string { Opening(d) + " ON CLUSTER ''" }
  function Read(d: string, e: string): string { Assigns(HeadLine(d) + "\n", e, "('', '', '')") }

  lemma FirstLetters(d: string, e: string)
    ensures var a, b := FirstLine(d), SecondLine(d, e); a != "" && b != "" && !IsCommentLine(a) && !IsCommentLine(b)
  {
    assert Opening(d)[0] == 'C' && FirstLine(d)[0] == 'C' && SecondLine(d, e)[0] == 'E';
    hide Opening, OnEveryServer, EngineArguments;
    StartsNoComment(FirstLine(d));
    StartsNoComment(SecondLine(d, e));
  }

  lemma NamesEngineIs(d: string, e: string)
    ensures NamesEngine(d, e) == FirstLine(d) + ("\n" + SecondLine(d, e))
  {
    var y := e + ("(" + EngineArguments(d));
    assert "\nENGINE = " + y == "\n" + ("ENGINE = " + y);
    hide Opening, OnEveryServer, EngineArguments;
  }

  lemma NamesEngineIsRead(d: string, e: string)
    requires IsBare(d) && IsWordOfLetters(e)
    ensures GateText(NamesEngine(d, e)) == Blanked(NamesEngine(d, e))
  {
    LinesHaveNoBreak(d, e);
    FirstLetters(d, e);
    NamesEngineIs(d, e);
    hide *;
    TwoLinesAreRead(FirstLine(d), SecondLine(d, e));
  }

  lemma OpeningIsSimple(d: string)
    requires IsBare(d)
    ensures Simple(Opening(d)) && '=' !in Opening(d)
  {
    WordsAreSimple();
    BareIsSimple(d);
    assert '=' !in "CREATE DATABASE IF NOT EXISTS ";
    hide IsBare, Simple;
    SimpleConcat("CREATE DATABASE IF NOT EXISTS ", d);
  }

  lemma NamesEngineBlanked(d: string, e: string)
    requires IsBare(d) && IsWordOfLetters(e)
    ensures Blanked(NamesEngine(d, e)) == Read(d, e)
  {
    OpeningIsSimple(d);
    WordsAreSimple();
    LettersAreSimple(e);
    ArgumentsBlanked(d);
    NamesEngineSpread(d, e);
    assert '\'' !in "\nENGINE = ";
    hide *;
    var args := EngineArguments(d);
    var y := "\nENGINE = " + (e + ("(" + args));
    var z := Quote("{cluster}", y);
    SimpleHasNoQuote(Opening(d));
    SimpleHasNoQuote(" ON CLUSTER ");
    SimpleHasNoQuote("(");
    SimpleHasNoQuote(e);
    BlankedPast(Opening(d), " ON CLUSTER " + z);
    BlankedPast(" ON CLUSTER ", z);
    BlankedLiteral("{cluster}", y);
    BlankedPast("\nENGINE = ", e + ("(" + args));
    BlankedPast(e, "(" + args);
    BlankedPast("(", args);
    ReadSpread(d, e);
  }

  lemma SimpleHasNoQuote(t: string)
    requires Simple(t)
    ensures '\'' !in t
  {
  }

  lemma NamesEngineSpread(d: string, e: string)
    ensures NamesEngine(d, e)
         == Opening(d) + (" ON CLUSTER " + Quote("{cluster}", "\nENGINE = " + (e + ("(" + EngineArguments(d)))))
  {
    var y := "\nENGINE = " + (e + ("(" + EngineArguments(d)));
    assert " ON CLUSTER '{cluster}'" + y == " ON CLUSTER " + Quote("{cluster}", y);
    hide Opening, EngineArguments;
  }

  lemma ReadSpread(d: string, e: string)
    ensures Opening(d) + (" ON CLUSTER " + ("''" + ("\nENGINE = " + (e + ("(" + "'', '', '')"))))) == Read(d, e)
  {
    assert "(" + "'', '', '')" == "('', '', '')";
    var y := e + "('', '', '')";
    assert " ON CLUSTER " + ("''" + ("\nENGINE = " + y)) == " ON CLUSTER ''" + ("\n" + ("ENGINE = " + y));
    hide Opening;
  }

  // The two lines of the self-hosted statement, and the one of the other.
  lemma DatabaseIsWritten(d: string)
    requires IsBare(d)
    ensures CreateDatabase(d, Probe.SelfHosted).Ok? && CreateDatabase(d, Probe.Cloud).Ok?
    ensures SplitLines(CreateDatabase(d, Probe.SelfHosted).value)
         == [ "CREATE DATABASE IF NOT EXISTS " + d + " ON CLUSTER '{cluster}'",
              "ENGINE = Replicated('/clickhouse/databases/" + d + "', '{shard}', '{replica}')" ]
    ensures SplitLines(CreateDatabase(d, Probe.Cloud).value) == ["CREATE DATABASE IF NOT EXISTS " + d]
  {
    var a, b := FirstLine(d), SecondLine(d, "Replicated");
    assert CreateDatabase(d, Probe.Cloud) == Ok(Opening(d)) by { hide IsBare, Opening; }
    assert a == "CREATE DATABASE IF NOT EXISTS " + d + " ON CLUSTER '{cluster}'";
    SecondLineIs(d);
    ReplicatedIsNoTable();
    OpeningIsSimple(d);
    assert Opening(d) == "CREATE DATABASE IF NOT EXISTS " + d != "";
    hide *;
    SelfHostedNamesReplicated(d);
    NamesEngineIs(d, "Replicated");
    LinesHaveNoBreak(d, "Replicated");
    FirstLetters(d, "Replicated");
    L.SplitOne(a, b);
    L.SplitLast(b);
    SimpleHasNoBreak(Opening(d));
    L.SplitLast(Opening(d));
    BothJoined(a, b);
  }

  lemma PathOpens()
    ensures "(" + "'/clickhouse/databases/" == "('/clickhouse/databases/"
  {
  }

  lemma ReplicatedOpens()
    ensures "Replicated" + "('/clickhouse/databases/" == "Replicated('/clickhouse/databases/"
  {
  }

  lemma EngineOpens()
    ensures "ENGINE = " + "Replicated('/clickhouse/databases/" == "ENGINE = Replicated('/clickhouse/databases/"
  {
  }

  lemma SecondLineIs(d: string)
    ensures SecondLine(d, "Replicated")
         == "ENGINE = Replicated('/clickhouse/databases/" + d + "', '{shard}', '{replica}')"
  {
    hide EngineArguments;
    EngineArgumentsAre(d);
    PathOpens();
    ReplicatedOpens();
    EngineOpens();
    Refold("ENGINE = ", "Replicated", "(", "'/clickhouse/databases/", d, "', '{shard}', '{replica}')");
  }

  lemma EngineArgumentsAre(d: string)
    ensures EngineArguments(d) == "'/clickhouse/databases/" + d + "', '{shard}', '{replica}')"
  {
  }

  lemma Refold(a: string, x: string, y: string, z: string, d: string, tail: string)
    ensures a + (x + (y + (z + d + tail))) == a + (x + (y + z)) + d + tail
  {
  }

  // ----- its verdict

  lemma ReadKind(d: string, x: string)
    requires IsBare(d)
    ensures Creates(Opening(d) + x, Kind.Database)
  {
    assert Names("DATABASE", Kind.Database) by { CreateDatabaseWords(); }
    hide *;
    CreatesWith(Kind.Database, "DATABASE", "IF NOT EXISTS " + d + x);
    OpeningSpread(d, x);
  }

  lemma OpeningSpread(d: string, x: string)
    ensures Opening(d) + x == "CREATE" + (" " + ("DATABASE" + (" " + ("IF NOT EXISTS " + d + x))))
  {
    assert "CREATE DATABASE IF NOT EXISTS " == "CREATE" + (" " + ("DATABASE" + (" " + "IF NOT EXISTS ")));
  }

  lemma CreateDatabaseWords()
    ensures Spelled("CREATE", "create") && Spelled("DATABASE", "database") && Gap(" ") && AllSpace("")
  {
  }

  lemma ClusterWords()
    ensures Spelled("ON", "on") && Spelled("CLUSTER", "cluster") && Gap(" ") && !IsWord(' ')
  {
  }

  lemma ReadSaysOnCluster(d: string, e: string)
    ensures exists i :: ClusterAtPlace(Read(d, e), i, false)
  {
    ClusterWords();
    var y := "''" + ("\n" + V.EngineIs(e, "('', '', '')"));
    var t, r, q := Read(d, e), "ON" + (" " + ("CLUSTER" + (" " + y))), " " + y;
    assert t == Opening(d) + (" " + r) by {
      assert " ON CLUSTER ''" + ("\n" + V.EngineIs(e, "('', '', '')")) == " " + r;
    }
    var i := |Opening(d)| + 1;
    hide Spelled, Gap, Opening, IsWord, Read;
    assert t[i..] == r && t[i - 1] == ' ';
    assert IsClusterMatch(r, "ON", " ", "CLUSTER", q);
    assert ClusterAtPlace(t, i, false);
  }

  lemma EmptyArguments()
    ensures OpensTwoLiterals("('', '', '')")
  {
    var q := "('', '', '')";
    var r1, r2, r3, r4 := "'', '', '')", ", '', '')", " '', '')", ", '')";
    assert AllSpace("") && AllSpace(" ");
    assert q == "" + ("(" + r1) && r1 == "" + ("''" + r2) && r2 == "" + ("," + r3) && r3 == " " + ("''" + r4);
    assert Leads(q, "(", r1) && Leads(r1, "''", r2) && Leads(r2, ",", r3) && Leads(r3, "''", r4);
  }

  lemma HeadIsFirst(a: string, x: string)
    requires a != "" && !HasBreak(a) && !IsSpace(a[0]) && !IsSpace(a[|a| - 1]) && (x == "" || x[0] == '\n')
    ensures Head(a + x) == a
  {
    var t := a + x;
    assert t[0] == a[0] && t[|a| - 1] == a[|a| - 1];
    assert LTrim(t) == t;
    var r := RTrim(t);
    hide IsSpace;
    forall k | |r| <= k < |t| ensures IsSpace(t[k]) {
      assert t[|r|..][k - |r|] == t[k];
    }
    var z := r[|a|..];
    assert r == a + z && (z == "" || z[0] == '\n') by {
      assert r == t[..|r|];
    }
    hide LTrim, RTrim;
    FirstOfSplit(a, z);
  }

  lemma FirstOfSplit(a: string, z: string)
    requires a != "" && !HasBreak(a) && (z == "" || z[0] == '\n')
    ensures SplitLines(a + z) != [] && SplitLines(a + z)[0] == a
  {
    if z == "" {
      assert SplitLines(z) == [];
    } else {
      assert BreakLen(z) == 1;
      assert SplitLines(z)[0] == "";
    }
    hide SplitLines, HasBreak;
    SplitPrefix(a, z);
    assert a + "" == a;
  }

  lemma ReadHead(d: string, e: string)
    requires IsBare(d)
    ensures Head(Read(d, e)) == HeadLine(d)
  {
    OpeningIsSimple(d);
    WordsAreSimple();
    assert !HasBreak(" ON CLUSTER ''") && !IsSpace('\'') && !IsSpace('C');
    assert Opening(d)[0] == 'C';
    hide IsBare, Opening, Simple, HasBreak, IsSpace;
    SimpleHasNoBreak(Opening(d));
    NoBreakJoin(Opening(d), " ON CLUSTER ''");
    var x := "\n" + V.EngineIs(e, "('', '', '')");
    assert Read(d, e) == HeadLine(d) + x;
    assert HeadLine(d)[|HeadLine(d)| - 1] == '\'';
    HeadIsFirst(HeadLine(d), x);
  }

  lemma HeadLineIsPlain(d: string, e: string)
    requires IsBare(d)
    ensures '=' !in HeadLine(d) + "\n" && EndsNoWord(HeadLine(d) + "\n") && '=' !in "('', '', '')"
    ensures WordEnds("('', '', '')")
  {
    OpeningIsSimple(d);
    hide Opening, IsBare, Simple;
    assert !IsWord('\n') && !IsWord('(');
  }

  // The self-hosted CREATE DATABASE and any other engine in it: ON CLUSTER stands only with Replicated.
  lemma DatabaseVerdict(d: string, e: string, p: Problem)
    requires IsBare(d) && IsWordOfLetters(e)
    ensures IsProblem(GateText(NamesEngine(d, e)), p)
         <==> || (p == CarriesOnCluster(HeadLine(d)) && e != "Replicated")
              || (p == NamesItsOwnPath(e, HeadLine(d)) && FamilyName(e))
  {
    var x, y := HeadLine(d) + "\n", "('', '', '')";
    HeadLineIsPlain(d, e);
    hide *;
    NamesEngineIsRead(d, e);
    NamesEngineBlanked(d, e);
    ReadHead(d, e);
    ReadSaysOnCluster(d, e);
    EmptyArguments();
    ReadIs(d, e);
    KindAndEngineDecide(x, e, y, Kind.Database, p);
    SaidOfDatabase(e, y, HeadLine(d), p);
  }

  lemma SaidOfDatabase(e: string, y: string, head: string, p: Problem)
    requires OpensTwoLiterals(y)
    ensures IsSaidOf(Kind.Database, e, y, true, head, p)
         <==> || (p == CarriesOnCluster(head) && e != "Replicated") || (p == NamesItsOwnPath(e, head) && FamilyName(e))
  {
    hide FamilyName, OpensTwoLiterals;
  }

  lemma ReadIs(d: string, e: string)
    requires IsBare(d)
    ensures Read(d, e) == Assigns(HeadLine(d) + "\n", e, "('', '', '')") && Creates(Read(d, e), Kind.Database)
  {
    var x := " ON CLUSTER ''" + ("\n" + V.EngineIs(e, "('', '', '')"));
    assert Read(d, e) == Opening(d) + x by { hide Opening; }
    hide Opening, IsBare, Read;
    ReadKind(d, x);
  }

  lemma ReplicatedIsNoTable()
    ensures IsWordOfLetters("Replicated") && !FamilyName("Replicated")
  {
    assert |"Replicated"| == 10;
  }

  // Neither platform's CREATE DATABASE breaks a rule.
  lemma DatabasesPass(d: string, platform: Probe.Platform, p: Problem)
    requires IsBare(d)
    ensures CreateDatabase(d, platform).Ok? && !IsProblem(GateText(CreateDatabase(d, platform).value), p)
  {
    match platform {
      case SelfHosted =>
        SelfHostedNamesReplicated(d);
        ReplicatedIsNoTable();
        hide *;
        DatabaseVerdict(d, "Replicated", p);
      case Cloud =>
        CloudPasses(d, p);
    }
  }

  // The words that a statement opens with here, and whose kind they name.
  function CreateWords(kind: Kind): string {
    match kind
    case Database => "CREATE DATABASE IF NOT EXISTS "
    case MaterializedView => "CREATE MATERIALIZED VIEW "
    case _ => "CREATE TABLE "
  }

  lemma DatabaseWords()
    ensures Neutral("CREATE DATABASE IF NOT EXISTS ") && '=' !in "CREATE DATABASE IF NOT EXISTS "
  {
    NeutralIs("CREATE DATABASE IF NOT EXISTS ", 30);
  }

  lemma ViewWords()
    ensures Neutral("CREATE MATERIALIZED VIEW ") && '=' !in "CREATE MATERIALIZED VIEW "
  {
    NeutralIs("CREATE MATERIALIZED VIEW ", 25);
  }

  lemma TableWords()
    ensures Neutral("CREATE TABLE ") && '=' !in "CREATE TABLE "
  {
    NeutralIs("CREATE TABLE ", 13);
  }

  lemma WordsHaveNoCluster(kind: Kind)
    ensures !FindsCluster(CreateWords(kind), false) && Neutral(CreateWords(kind)) && '=' !in CreateWords(kind)
  {
    DatabaseWords();
    ViewWords();
    TableWords();
    assert Neutral(CreateWords(kind)) && '=' !in CreateWords(kind) by { hide Neutral; }
    hide CreateWords, FindsCluster, Fold, IsBreak;
    NoClNoCluster(CreateWords(kind), false);
  }

  lemma LastBeforeSpace(w: string)
    requires |w| > 1 && w[|w| - 1] == ' ' && !IsSpace(w[|w| - 2])
    ensures LastSolid(w) == w[|w| - 2] && !IsWord(' ')
  {
    assert AllSpace(w[|w| - 1..]);
    hide IsSpace;
    LastSolidLast(w, |w| - 2);
  }

  lemma WordsEnd(kind: Kind)
    ensures var w := CreateWords(kind); |w| > 1 && w[|w| - 1] == ' ' && !IsWord(' ') && LastSolid(w) == w[|w| - 2]
    ensures Fold(LastSolid(CreateWords(kind))) != 'n'
  {
    var w := CreateWords(kind);
    assert |w| > 1 && w[|w| - 1] == ' ' && (w[|w| - 2] == 'S' || w[|w| - 2] == 'E' || w[|w| - 2] == 'W');
    assert !IsSpace('S') && !IsSpace('E') && !IsSpace('W');
    hide CreateWords, IsSpace, LastSolid, IsWord;
    LastBeforeSpace(w);
  }

  lemma BareStarts(d: string)
    requires IsBare(d)
    ensures FirstSolid(d) == d[0] != '=' && !IsSpace(d[0]) && !FindsCluster(d, false)
    ensures IsWord(LastSolid(d)) && '=' !in d
  {
    forall i | 0 <= i < |d| ensures !IsSpace(d[i]) && IsWord(d[i]) {
    }
    hide IsSpace, FindsCluster, IsWord;
    SpaceLenIs(d, 0);
    LastSolidLast(d, |d| - 1);
    NoSpaceNoCluster(d, false);
    BareIsSimple(d);
  }

  lemma CreateHasNoCluster(kind: Kind, d: string)
    requires IsBare(d)
    ensures !FindsCluster(CreateWords(kind) + d, false) && '=' !in CreateWords(kind) + d
  {
    WordsHaveNoCluster(kind);
    WordsEnd(kind);
    BareStarts(d);
    hide FindsCluster, IsWord, CreateWords, IsBare, StartsCl, FirstSolid, LastSolid;
    ClusterSeam(CreateWords(kind), d, false);
  }

  lemma BareIsOrdinary(d: string)
    requires IsBare(d)
    ensures d != "" && forall i :: 0 <= i < |d| ==> d[i] != '\'' && d[i] != '-' && !IsBreak(d[i])
    ensures IsBreak('\n')
  {
  }

  lemma CreateIsOrdinary(kind: Kind, d: string)
    requires IsBare(d)
    ensures Ordinary(CreateWords(kind) + d)
  {
    BareIsOrdinary(d);
    WordsHaveNoCluster(kind);
    hide CreateWords, IsBare, IsBreak, Fold, FindsCluster;
    var w := CreateWords(kind);
    var t := w + d;
    assert forall i :: 0 <= i < |t| ==> t[i] == if i < |w| then w[i] else d[i - |w|];
  }

  lemma CloudPasses(d: string, p: Problem)
    requires IsBare(d)
    ensures !IsProblem(GateText(Opening(d)), p)
  {
    var t := CreateWords(Kind.Database) + d;
    assert t == Opening(d);
    hide *;
    CreateIsOrdinary(Kind.Database, d);
    CreateHasNoCluster(Kind.Database, d);
    OrdinaryIsReadWhole(t);
    NoEqualsFindsNothing(t);
    ReadKind(d, "");
    assert t + "" == t;
    KindIsCreated(t, Kind.Database);
    NothingFound(t, p);
  }

  lemma NoEqualsFindsNothing(t: string)
    requires '=' !in t
    ensures FirstEngine(t, false) == None && FirstExplicit(t, false) == None
  {
    NoEqualsNoAssign(t, false);
    EmptySeam(t);
    hide FindsAssign, Seam;
    assert t + "" == t;
    EngineSkips(t, "", false);
  }

  lemma NothingFound(t: string, p: Problem)
    requires FirstEngine(t, false) == None && FirstExplicit(t, false) == None && !FindsCluster(t, false)
        && KindOf(t) != Kind.Table
    ensures !IsProblem(t, p)
  {
    hide FirstEngine, FirstExplicit, FindsCluster, KindOf, Head;
  }

  // ----- a table, or a view with an inner table

  function KindName(kind: Kind): string {
    if kind == MaterializedView then "MATERIALIZED VIEW" else "TABLE"
  }

  lemma WordsSpread(kind: Kind)
    requires kind == Kind.Table || kind == MaterializedView
    ensures CreateWords(kind) == "CREATE" + (" " + (KindName(kind) + " "))
  {
  }

  lemma KindIsNamed(kind: Kind)
    requires kind == Kind.Table || kind == MaterializedView
    ensures Names(KindName(kind), kind)
  {
    ViewIsNamed();
    assert Spelled("TABLE", "table");
  }

  lemma KindWords(kind: Kind, d: string, x: string)
    requires kind == Kind.Table || kind == MaterializedView
    ensures Creates(CreateWords(kind) + d + x, kind)
  {
    hide *;
    KindIsNamed(kind);
    WordsSpread(kind);
    CreatesWith(kind, KindName(kind), d + x);
    assert CreateWords(kind) + d + x == "CREATE" + (" " + (KindName(kind) + (" " + (d + x))));
  }

  lemma CreatesWith(kind: Kind, u: string, x: string)
    requires Names(u, kind)
    ensures Creates("CREATE" + (" " + (u + (" " + x))), kind)
  {
    var t, q := "CREATE" + (" " + (u + (" " + x))), " " + x;
    CreateDatabaseWords();
    assert q[0] == ' ' && !IsWord(' ');
    hide Spelled, Gap, Names, IsWord;
    assert t == "" + ("CREATE" + (" " + ("" + (u + q))));
    assert Patterns.Opens(t, kind, "", "CREATE", " ", "", u, q);
  }

  lemma ViewIsNamed()
    ensures Names("MATERIALIZED VIEW", MaterializedView)
  {
    assert "MATERIALIZED VIEW" == "MATERIALIZED" + (" " + "VIEW");
    assert Spelled("MATERIALIZED", "materialized") && Spelled("VIEW", "view") && Gap(" ");
    assert IsView("MATERIALIZED VIEW", "MATERIALIZED", " ", "VIEW");
  }

  // What follows the engine: no literal, no comment and no second assignment, and it ends on its last line.
  ghost predicate PlainTail(y: string) {
    && (forall i :: 0 <= i < |y| ==> y[i] != '\'' && y[i] != '-' && (IsBreak(y[i]) ==> y[i] == '\n'))
    && '=' !in y && WordEnds(y) && (y != "" ==> y[|y| - 1] != '\n')
  }

  function Naming(kind: Kind, v: string, e: string, y: string): string {
    Assigns(CreateWords(kind) + v + "\n", e, y)
  }

  lemma LettersAreOrdinary(e: string)
    requires IsWordOfLetters(e)
    ensures forall i :: 0 <= i < |e| ==> e[i] != '\'' && e[i] != '-' && !IsBreak(e[i])
    ensures '=' !in e && e[|e| - 1] != '\n'
  {
  }

  lemma EngineIsOrdinary(e: string, y: string)
    requires IsWordOfLetters(e) && PlainTail(y)
    ensures Ordinary(V.EngineIs(e, y)) && V.EngineIs(e, y)[0] == 'E'
  {
    LettersAreOrdinary(e);
    var w, t := "ENGINE = ", V.EngineIs(e, y);
    assert forall i :: 0 <= i < |w| ==> w[i] != '\'' && w[i] != '-' && !IsBreak(w[i]);
    hide IsWordOfLetters, IsBreak, WordEnds;
    assert forall i :: 0 <= i < |t| ==> t[i] == if i < |w| then w[i] else if i < |w| + |e| then e[i - |w|]
        else y[i - |w| - |e|];
  }

  lemma OrdinaryLines(a: string, b: string)
    requires Ordinary(a) && Ordinary(b)
    ensures Ordinary(a + "\n" + b)
  {
    hide IsBreak;
    var t := a + "\n" + b;
    assert forall i :: 0 <= i < |t| ==> t[i] == if i < |a| then a[i] else if i == |a| then '\n' else b[i - |a| - 1];
  }

  lemma EngineWordsSeam(e: string, y: string)
    ensures Seam("\nENGINE = ", e + y) && !FindsCluster("\nENGINE = ", false)
  {
    var w := "\nENGINE = ";
    assert AllSpace(w[9..]);
    LastSolidLast(w, 8);
    assert forall i :: 0 <= i < |w| - 1 ==> Fold(w[i]) != 'c';
    assert !IsWord(' ');
    hide FindsCluster;
    NoClNoCluster(w, false);
  }

  lemma LineSeam(a: string, b: string)
    requires !IsSpace('E')
    ensures Seam(a, "\nENGINE = " + b)
  {
    var t := "\nENGINE = " + b;
    assert t[0] == '\n' && t[1] == 'E' && "cl"[0] == 'c';
    SpaceLenIs(t, 1);
    BeginsNot(t[1..], "cl", 0);
  }

  lemma NamingSpread(kind: Kind, v: string, e: string, y: string)
    ensures Naming(kind, v, e, y) == CreateWords(kind) + v + ("\nENGINE = " + (e + y))
  {
    assert "\nENGINE = " == "\n" + "ENGINE = ";
    assert "\nENGINE = " + (e + y) == "\n" + ("ENGINE = " + (e + y));
    hide CreateWords;
  }

  lemma NoSpaceE()
    ensures !IsSpace('E')
  {
  }

  lemma NamingHasNoCluster(kind: Kind, v: string, e: string, y: string)
    requires IsBare(v) && !FindsCluster(e + y, false)
    ensures !FindsCluster(Naming(kind, v, e, y), false)
  {
    hide *;
    var a, b := CreateWords(kind) + v, "\nENGINE = " + (e + y);
    NamingSpread(kind, v, e, y);
    NoSpaceE();
    CreateHasNoCluster(kind, v);
    EngineWordsSeam(e, y);
    ClusterSeam("\nENGINE = ", e + y, false);
    LineSeam(a, e + y);
    ClusterSeam(a, b, false);
  }

  lemma NamingIsOrdinary(kind: Kind, v: string, e: string, y: string)
    requires IsBare(v) && IsWordOfLetters(e) && PlainTail(y)
    ensures Ordinary(Naming(kind, v, e, y))
  {
    CreateIsOrdinary(kind, v);
    EngineIsOrdinary(e, y);
    hide Ordinary, CreateWords, PlainTail, IsWordOfLetters, IsBare;
    OrdinaryLines(CreateWords(kind) + v, V.EngineIs(e, y));
  }

  lemma NamingCreates(kind: Kind, v: string, e: string, y: string)
    requires kind == Kind.Table || kind == MaterializedView
    ensures Creates(Naming(kind, v, e, y), kind)
  {
    hide Creates, CreateWords;
    var x := "\n" + V.EngineIs(e, y);
    KindWords(kind, v, x);
    assert CreateWords(kind) + v + x == Naming(kind, v, e, y);
  }

  lemma NamingParts(kind: Kind, v: string, y: string)
    requires IsBare(v) && PlainTail(y)
    ensures '=' !in CreateWords(kind) + v + "\n" && EndsNoWord(CreateWords(kind) + v + "\n")
    ensures '=' !in y && WordEnds(y)
  {
    CreateHasNoCluster(kind, v);
    assert !IsWord('\n');
    hide CreateWords, FindsCluster, IsBare, IsWord;
  }

  // A view's inner table takes a replicated engine, and a table that or Merge: nothing else is said of either.
  lemma NamedEngineVerdict(kind: Kind, v: string, e: string, y: string, p: Problem)
    requires kind == Kind.Table || kind == MaterializedView
    requires IsBare(v) && IsWordOfLetters(e) && PlainTail(y) && !FindsCluster(e + y, false)
    ensures var t := Naming(kind, v, e, y);
            IsProblem(GateText(t), p)
            <==> && !("Replicated" <= e)
                 && if kind == Kind.Table then e != "Merge" && p == NotReplicated(e, Head(t))
                    else p == InnerNotReplicated(e, Head(t))
  {
    var x := CreateWords(kind) + v + "\n";
    var t := Naming(kind, v, e, y);
    assert t == Assigns(x, e, y);
    hide *;
    NamingParts(kind, v, y);
    NamingIsOrdinary(kind, v, e, y);
    NamingHasNoCluster(kind, v, e, y);
    FindsClusterIs(t, false);
    NamingCreates(kind, v, e, y);
    PlainVerdict(x, e, y, kind, p);
  }

  // ----- the head of a rendered table

  lemma BodyOpens(t: D.Table)
    ensures exists x :: Bare(D.BodyPieces(t)) == "`" + ("\n" + x)
  {
    hide Bare, Plain;
    if t.columns != [] {
      BodyFirst("`\n(\n    `", D.BodyPieces(t));
    } else if t.indexes != [] {
      BodyFirst("`\n(\n    ", D.BodyPieces(t));
    } else {
      BodyFirst("`\n(\n", D.BodyPieces(t));
    }
  }

  lemma BodyFirst(lead: string, pieces: seq<Piece>)
    requires pieces != [] && pieces[0].lead == lead && |lead| > 1 && lead[0] == '`' && lead[1] == '\n'
    ensures exists x :: Bare(pieces) == "`" + ("\n" + x)
  {
    hide *;
    var p, more := pieces[0], pieces[1..];
    assert pieces == [Piece(p.lead, p.clause)] + more;
    R.FirstBare(p.lead, p.clause, more);
    var x := lead[2..] + (Skeleton(p.clause) + Bare(more));
    assert lead == "`" + ("\n" + lead[2..]);
    assert lead + (Skeleton(p.clause) + Bare(more)) == "`" + ("\n" + x);
  }

  lemma TargetBare(t: D.Table)
    ensures Bare(D.TargetPieces(t)) == "`.`" + (t.name + Bare(D.BodyPieces(t)))
  {
    hide Bare, Plain, D.BodyPieces;
    R.HeadComposes("`.`", t.name, D.BodyPieces(t));
  }

  lemma TableLine(d: string, n: string)
    requires QuoteIdent(d).Some? && QuoteIdent(n).Some?
    ensures var a := "CREATE TABLE IF NOT EXISTS `" + d + "`.`" + n + "`";
            !HasBreak(a) && !IsSpace(a[0]) && !IsSpace(a[|a| - 1])
  {
    var a := "CREATE TABLE IF NOT EXISTS `" + d + "`.`" + n + "`";
    assert a[0] == 'C' && a[|a| - 1] == '`' && !IsSpace('C') && !IsSpace('`');
    L.HeadWords();
    L.ColumnWords();
    L.NameHasNoBreak(d);
    L.NameHasNoBreak(n);
    hide HasBreak, IsSpace, QuoteIdent;
    NoBreakJoin("CREATE TABLE IF NOT EXISTS `", d);
    NoBreakJoin("CREATE TABLE IF NOT EXISTS `" + d, "`.`");
    NoBreakJoin("CREATE TABLE IF NOT EXISTS `" + d + "`.`", n);
    NoBreakJoin("CREATE TABLE IF NOT EXISTS `" + d + "`.`" + n, "`");
  }

  // What the gate calls a rendered table in every problem it reports.
  lemma TableHead(t: D.Table)
    requires D.Accepted(t) && D.CleanBody(t)
    ensures D.CreateTable(t).Some?
    ensures Head(GateText(Flat(D.CreateTable(t).value)))
         == "CREATE TABLE IF NOT EXISTS `" + t.database + "`.`" + t.name + "`"
  {
    assert QuoteIdent(t.database).Some? && QuoteIdent(t.name).Some?;
    hide *;
    R.CreateTableIs(t);
    R.TableReads(t);
    R.TailIs(t);
    R.CreateIs();
    BodyOpens(t);
    TargetBare(t);
    var x :| Bare(D.BodyPieces(t)) == "`" + ("\n" + x);
    var y := "\n)\nENGINE = " + (R.Name(t) + R.Tail(t));
    var a := "CREATE TABLE IF NOT EXISTS `" + t.database + "`.`" + t.name + "`";
    HeadCut("CREATE TABLE IF NOT EXISTS `", t.database, t.name, x, y);
    TableLine(t.database, t.name);
    HeadIsFirst(a, "\n" + (x + y));
  }

  lemma HeadCut(lead: string, d: string, n: string, x: string, y: string)
    ensures lead + (d + ("`.`" + (n + ("`" + ("\n" + x))) + y)) == lead + d + "`.`" + n + "`" + ("\n" + (x + y))
  {
  }
}

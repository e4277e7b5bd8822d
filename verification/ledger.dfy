/** What the applier's ledger rests on: a rendered table is hashed as one text, whatever the platform. */
module Ledger {
  import opened Wrappers
  import opened Scan
  import opened Checksum
  import opened Literals
  import opened Seams
  import opened Atoms
  import opened Pieces
  import opened Rendered
  import opened Verdict
  import JsonTypes
  import E = Engines
  import P = Platforms

  function TextOf(pieces: seq<Piece>): string {
    Flat(Compose(pieces))
  }

  // Everything between the name of the database and the settings.
  function Middle(t: Table): seq<Piece> {
    TargetPieces(t)
    + (EnginePieces(t)
    + (ParamsPieces(t.params)
    + (OptionPieces("\nPARTITION BY ", t.partition)
    + (OrderPieces(t.order) + ListPieces("\nTTL ", t.ttl)))))
  }

  function TableOf(t: Table): P.Table {
    P.Table("`" + (t.database + TextOf(Middle(t))), t.granularity, t.settings, t.comment)
  }

  lemma TextConcat(a: seq<Piece>, b: seq<Piece>)
    ensures TextOf(a + b) == TextOf(a) + TextOf(b)
  {
    hide Flat, Compose;
    ComposeConcat(a, b);
    FlatConcat(Compose(a), Compose(b));
  }

  lemma PlainPieceText(lead: string, t: string)
    ensures TextOf([Piece(lead, Plain(t))]) == lead + t
  {
    PlainText(t);
    hide Plain, Flat, Compose;
    OneFlatPiece(lead, Plain(t));
  }

  lemma CommentText(t: Table, x: P.Table)
    requires x.comment == t.comment
    ensures TextOf(CommentPieces("\nCOMMENT ", t.comment)) == P.Closing(x)
  {
    if t.comment.Some? {
      CommentIsLiteral(t.comment.value);
      OneFlatPiece("\nCOMMENT ", Quoted(t.comment.value));
      hide Flat, Compose, StringLiteral, Quoted;
    }
  }

  lemma Regroup(a: seq<Piece>, b: seq<Piece>, c: seq<Piece>)
    ensures a + (b + c) == a + b + c
  {
  }

  lemma PiecesInOrder(t: Table)
    ensures AllPieces(t)
         == [Piece("CREATE TABLE IF NOT EXISTS `", Plain(t.database))]
            + (Middle(t) + (SettingsPieces(t) + CommentPieces("\nCOMMENT ", t.comment)))
  {
    hide TargetPieces, EnginePieces, ParamsPieces, OptionPieces, OrderPieces, ListPieces, CommentPieces, Plain,
      SettingsPieces;
    var target, engine, params, partition, order, ttl :=
      TargetPieces(t), EnginePieces(t), ParamsPieces(t.params), OptionPieces("\nPARTITION BY ", t.partition),
      OrderPieces(t.order), ListPieces("\nTTL ", t.ttl);
    var foot := SettingsPieces(t) + CommentPieces("\nCOMMENT ", t.comment);
    Regroup(order, ttl, foot);
    Regroup(partition, order + ttl, foot);
    Regroup(params, partition + (order + ttl), foot);
    Regroup(engine, params + (partition + (order + ttl)), foot);
    Regroup(target, engine + (params + (partition + (order + ttl))), foot);
  }

  lemma Spread(d: string, m: string, n: string, s: string, c: string)
    ensures "CREATE TABLE IF NOT EXISTS `" + d + (m + ("\nSETTINGS\n    " + ("index_granularity = " + n + s) + c))
         == "CREATE TABLE IF NOT EXISTS " + ("`" + (d + m)) + "\nSETTINGS\n    index_granularity"
           + (" = " + n + (s + c))
  {
    Left(d, m);
    Right(n, s, c);
    var l, r := "CREATE TABLE IF NOT EXISTS `" + d, "\nSETTINGS\n    " + ("index_granularity = " + n + s) + c;
    Assoc(l, m, r);
    Assoc("CREATE TABLE IF NOT EXISTS " + ("`" + (d + m)), "\nSETTINGS\n    index_granularity", " = " + n + (s + c));
  }

  lemma Left(d: string, m: string)
    ensures "CREATE TABLE IF NOT EXISTS `" + d + m == "CREATE TABLE IF NOT EXISTS " + ("`" + (d + m))
  {
    assert "CREATE TABLE IF NOT EXISTS `" == "CREATE TABLE IF NOT EXISTS " + "`";
  }

  lemma Right(n: string, s: string, c: string)
    ensures "\nSETTINGS\n    " + ("index_granularity = " + n + s) + c
        == "\nSETTINGS\n    index_granularity" + (" = " + n + (s + c))
  {
    assert "\nSETTINGS\n    " + "index_granularity = " == "\nSETTINGS\n    index_granularity" + " = ";
  }

  lemma {:induction false} OthersText(settings: seq<Setting>)
    ensures TextOf(ListPieces(",\n    ", AssignedAll(settings))) == SettingsText(settings)
  {
    if settings == [] {
      assert Compose([]) == [] && Flat([]) == "";
    } else {
      var s, more := settings[0], AssignedAll(settings[1..]);
      OthersText(settings[1..]);
      assert AssignedAll(settings) == [Assigned(s)] + more;
      OneSettingText(s, more);
    }
  }

  lemma OneSettingText(s: Setting, more: seq<Clause>)
    ensures TextOf(ListPieces(",\n    ", [Assigned(s)] + more)) == SettingText(s) + TextOf(ListPieces(",\n    ", more))
  {
    ListFirst(",\n    ", Assigned(s), more);
    var t := s.name + (" = " + s.value);
    assert Assigned(s) == Plain(t);
    assert SettingText(s) == ",\n    " + t;
    hide *;
    TextConcat([Piece(",\n    ", Assigned(s))], ListPieces(",\n    ", more));
    PlainPieceText(",\n    ", t);
  }

  lemma ListFirst(lead: string, c: Clause, more: seq<Clause>)
    ensures ListPieces(lead, [c] + more) == [Piece(lead, c)] + ListPieces(",\n    ", more)
  {
    assert ([c] + more)[1..] == more;
  }

  lemma SettingsTextIs(t: Table)
    ensures TextOf(SettingsPieces(t)) == "\nSETTINGS\n    "
        + ("index_granularity = " + t.granularity + SettingsText(t.settings))
  {
    var lead, g := "\nSETTINGS\n    ", Setting("index_granularity", t.granularity);
    var first, more := Assigned(g), AssignedAll(t.settings);
    assert AssignedAll(Settings(t)) == [first] + more by { assert Settings(t)[1..] == t.settings; }
    assert SettingsPieces(t) == ListPieces(lead, [first] + more);
    assert first == Plain("index_granularity" + (" = " + t.granularity));
    Granularity(t.granularity, SettingsText(t.settings));
    hide *;
    ListFirst(lead, first, more);
    TextConcat([Piece(lead, first)], ListPieces(",\n    ", more));
    PlainPieceText(lead, "index_granularity" + (" = " + t.granularity));
    OthersText(t.settings);
  }

  lemma Granularity(n: string, s: string)
    ensures "\nSETTINGS\n    " + ("index_granularity" + (" = " + n)) + s
        == "\nSETTINGS\n    " + ("index_granularity = " + n + s)
  {
    assert "index_granularity" + " = " == "index_granularity = ";
    assert "index_granularity" + (" = " + n) == "index_granularity" + " = " + n;
  }

  // The statement the renderer writes is a table in the form the checksum was proved for.
  lemma RenderedIsTable(t: Table)
    ensures TextOf(AllPieces(t)) == P.TableText(TableOf(t))
  {
    var x := TableOf(t);
    assert P.TableText(x) == "CREATE TABLE IF NOT EXISTS " + ("`" + (t.database + TextOf(Middle(t))))
      + "\nSETTINGS\n    index_granularity"
                             + (" = " + t.granularity + (SettingsText(t.settings) + P.Closing(x)));
    CommentText(t, x);
    var head, comment := [Piece("CREATE TABLE IF NOT EXISTS `", Plain(t.database))],
      CommentPieces("\nCOMMENT ", t.comment);
    hide *;
    PiecesInOrder(t);
    TextConcat(head, Middle(t) + (SettingsPieces(t) + comment));
    TextConcat(Middle(t), SettingsPieces(t) + comment);
    TextConcat(SettingsPieces(t), comment);
    PlainPieceText("CREATE TABLE IF NOT EXISTS `", t.database);
    SettingsTextIs(t);
    Spread(t.database, TextOf(Middle(t)), t.granularity, SettingsText(t.settings), P.Closing(x));
  }

  // Does a column of the table name JSON in its type?
  predicate NamesJson(t: Table) {
    exists c <- t.columns :: JsonTypes.NamesJson(Flat(c.chType))
  }

  // A table rendered for a platform: its own settings, and for a JSON column the ones every platform has
  // with the platform's own over them.
  function OnPlatform(t: Table, base: seq<Setting>, own: seq<Setting>): Table {
    t.(settings := t.settings + if NamesJson(t) then P.Merged(base, own) else [])
  }

  // One definition is hashed as one text on every platform, where the normaliser knows every setting that
  // one platform gives a JSON table and another does not.
  lemma RenderedIsPlatformBlind(names: seq<string>, t: Table, base: seq<Setting>, one: seq<Setting>,
      other: seq<Setting>)
    requires Accepted(t) && Digits(t.granularity) && forall n <- names :: IsName(n)
    requires (forall s <- t.settings :: IsSetting(s)) && forall s <- base :: IsSetting(s)
    requires forall s <- one :: IsSetting(s) && s.name in names
    requires forall s <- other :: IsSetting(s) && s.name in names
    ensures var x, y := OnPlatform(t, base, one), OnPlatform(t, base, other);
            CreateTable(x).Some? && CreateTable(y).Some?
            && Hashed(names, Flat(CreateTable(x).value)) == Hashed(names, Flat(CreateTable(y).value))
  {
    var x, y := OnPlatform(t, base, one), OnPlatform(t, base, other);
    var json, bare := NamesJson(t), TableOf(t);
    SamePlatform(t, base, one);
    SamePlatform(t, base, other);
    CreateTableText(x);
    CreateTableText(y);
    assert P.IsTable(bare);
    hide *;
    RenderedIsTable(x);
    RenderedIsTable(y);
    P.TableIsPlatformBlind(names, bare, json, base, one, other);
  }

  lemma CreateTableText(t: Table)
    requires Accepted(t)
    ensures CreateTable(t).Some? && Flat(CreateTable(t).value) == TextOf(AllPieces(t))
  {
    hide Accepted, Flat, Compose, AllPieces;
  }

  lemma SamePlatform(t: Table, base: seq<Setting>, own: seq<Setting>)
    ensures TableOf(OnPlatform(t, base, own)) == P.OnPlatform(TableOf(t), NamesJson(t), base, own)
  {
    hide TextOf, P.Merged, ParamsPieces, OptionPieces, OrderPieces, ListPieces, NamesJson;
    var x := OnPlatform(t, base, own);
    assert Middle(x) == Middle(t) by {
      hide ColumnsPieces, Plain;
    }
    assert t.settings + [] == t.settings;
  }

  // The settings a platform adds leave a table clean, so the gate says of it what it says of the definition.
  lemma OnPlatformIsClean(t: Table, base: seq<Setting>, own: seq<Setting>)
    requires CleanTable(t) && (forall s <- base :: CleanSetting(s)) && forall s <- own :: CleanSetting(s)
    ensures CleanTable(OnPlatform(t, base, own)) && NamesOf(OnPlatform(t, base, own)) == NamesOf(t)
  {
    MergedAreClean(base, own);
    hide CleanColumn, CleanLine, CleanClause, CleanOrder, CleanSetting, NamesJson, P.Merged, E.IsFamily, Digits;
  }

  lemma {:induction false} PutIsClean(settings: seq<Setting>, s: Setting)
    requires CleanSetting(s) && forall o <- settings :: CleanSetting(o)
    ensures forall o <- P.Put(settings, s) :: CleanSetting(o)
  {
    if settings != [] {
      PutIsClean(settings[1..], s);
      var o := settings[0];
      assert CleanSetting(Setting(o.name, s.value)) <== o.name == s.name;
    }
  }

  lemma {:induction false} MergedAreClean(base: seq<Setting>, own: seq<Setting>)
    requires (forall s <- base :: CleanSetting(s)) && forall s <- own :: CleanSetting(s)
    ensures forall s <- P.Merged(base, own) :: CleanSetting(s)
    decreases |own|
  {
    hide CleanSetting, P.Put;
    if own != [] {
      assert own[0] in own;
      PutIsClean(base, own[0]);
      MergedAreClean(P.Put(base, own[0]), own[1..]);
    }
  }

  // ----- one engine, three spellings

  // The statement with the engine spelled otherwise.
  function WithEngine(t: Table, engine: string): string {
    TextOf([Piece("CREATE TABLE IF NOT EXISTS `", Plain(t.database))]
      + (TargetPieces(t) + ([Piece("\n)\nENGINE = ", Plain(engine))] + AfterEngine(t))))
  }

  // The statement before the line of the engine.
  function BeforeEngine(t: Table): string {
    "CREATE TABLE IF NOT EXISTS `" + (t.database + (TextOf(TargetPieces(t)) + "\n)"))
  }

  lemma EngineSpelled(t: Table, engine: string)
    ensures WithEngine(t, engine) == P.EngineText(BeforeEngine(t), engine, TextOf(AfterEngine(t)))
  {
    var lead, after := "\n)\nENGINE = ", TextOf(AfterEngine(t));
    var head, name := [Piece("CREATE TABLE IF NOT EXISTS `", Plain(t.database))], [Piece(lead, Plain(engine))];
    assert WithEngine(t, engine) == TextOf(head + (TargetPieces(t) + (name + AfterEngine(t))));
    assert BeforeEngine(t) == "CREATE TABLE IF NOT EXISTS `" + (t.database + (TextOf(TargetPieces(t)) + "\n)"));
    assert P.EngineText(BeforeEngine(t), engine, after) == BeforeEngine(t) + ("\nENGINE = " + engine + after);
    hide *;
    TextConcat(head, TargetPieces(t) + (name + AfterEngine(t)));
    TextConcat(TargetPieces(t), name + AfterEngine(t));
    TextConcat(name, AfterEngine(t));
    PlainPieceText("CREATE TABLE IF NOT EXISTS `", t.database);
    PlainPieceText(lead, engine);
    Bracket(engine, after);
    Cut("CREATE TABLE IF NOT EXISTS `", t.database, TextOf(TargetPieces(t)), "\n)", "\nENGINE = " + engine + after);
  }

  lemma Bracket(engine: string, after: string)
    ensures "\n)\nENGINE = " + engine + after == "\n)" + ("\nENGINE = " + engine + after)
  {
    assert "\n)\nENGINE = " == "\n)" + "\nENGINE = ";
  }

  lemma Cut(a: string, b: string, c: string, d: string, e: string)
    ensures a + b + (c + (d + e)) == a + (b + (c + d)) + e
  {
  }

  lemma TextStarts(pieces: seq<Piece>)
    requires pieces != []
    ensures pieces[0].lead <= TextOf(pieces)
  {
    var p, more := pieces[0], pieces[1..];
    assert Compose(pieces) == Plain(p.lead) + p.clause + Compose(more) == Plain(p.lead) + (p.clause + Compose(more));
    PlainText(p.lead);
    hide Compose, Plain, Flat;
    FlatConcat(Plain(p.lead), p.clause + Compose(more));
  }

  // What stands behind the engine: its arguments, or a clause on a line of its own that is no ON CLUSTER.
  ghost predicate ClauseLead(l: string) {
    l == "(" || (|l| > 2 && l[0] == '\n' && (l[1] == 'P' || (l[1] == 'O' && l[2] == 'R')))
  }

  lemma OrderLeads(o: Order)
    ensures OrderPieces(o) != [] && ClauseLead(OrderPieces(o)[0].lead) && OrderPieces(o)[0].lead[0] == '\n'
  {
  }

  lemma AfterLeads(t: Table)
    ensures AfterEngine(t) != [] && ClauseLead(AfterEngine(t)[0].lead)
        && (t.params == [] ==> AfterEngine(t)[0].lead[0] == '\n')
  {
    OrderLeads(t.order);
    hide OrderPieces, ListPieces, SettingsPieces, CommentPieces;
    if t.params == [] && t.partition == None {
      assert AfterEngine(t)[0] == OrderPieces(t.order)[0];
    }
  }

  lemma AfterFollows(t: Table)
    ensures P.FollowsEngine(TextOf(AfterEngine(t))) && (t.params == [] ==> TextOf(AfterEngine(t))[0] == '\n')
  {
    AfterLeads(t);
    hide AfterEngine, TextOf;
    TextStarts(AfterEngine(t));
    var a := TextOf(AfterEngine(t));
    if a[0] == '\n' {
      var x := a[1..];
      assert x[0] == a[1] && x[1] == a[2];
      assert "ON CLUSTER"[0] == 'O' && "ON CLUSTER"[1] == 'N';
      Differs("ON CLUSTER", x, if x[0] == 'P' then 0 else 1);
    }
  }

  lemma BeforeIsHead(t: Table)
    ensures P.IsTableHead(BeforeEngine(t))
  {
    hide TextOf, TargetPieces;
    var b := BeforeEngine(t);
    assert "CREATE TABLE" <= "CREATE TABLE IF NOT EXISTS `" <= b;
    var inner := t.database + (TextOf(TargetPieces(t)) + "\n)");
    assert inner[|inner| - 1] == ')';
  }

  lemma PlainFamily(t: Table)
    requires Accepted(t)
    ensures !("Replicated" <= t.family)
  {
    hide QuoteIdent;
  }

  lemma SpelledHere(t: Table)
    ensures WithEngine(t, "Replicated" + t.family) == TextOf(AllPieces(t))
  {
    hide TextOf, TargetPieces, AfterEngine, Plain;
  }

  // A rendered table is hashed as if its engine had been spelled without the prefix, or with empty brackets.
  lemma RenderedSpellingIsBlind(names: seq<string>, t: Table)
    requires Accepted(t) && E.IsFamily(t.family)
    ensures CreateTable(t).Some? && Flat(CreateTable(t).value) == WithEngine(t, "Replicated" + t.family)
    ensures Hashed(names, Flat(CreateTable(t).value)) == Hashed(names, WithEngine(t, t.family))
    ensures t.params == [] ==>
              Hashed(names, Flat(CreateTable(t).value)) == Hashed(names, WithEngine(t, t.family + "()"))
  {
    SpelledHere(t);
    hide *;
    CreateTableText(t);
    PlainFamily(t);
    BeforeIsHead(t);
    AfterFollows(t);
    EngineSpelled(t, "Replicated" + t.family);
    EngineSpelled(t, t.family);
    EngineSpelled(t, t.family + "()");
    P.SpellingIsBlind(names, BeforeEngine(t), t.family, TextOf(AfterEngine(t)));
  }
}

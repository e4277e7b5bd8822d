/** The CREATE TABLE that the renderer writes, clause by clause, and when its clauses are clean. */
module Rendered {
  import opened Literals
  import opened Atoms
  import opened Comments
  import opened Searches
  import opened Pieces
  import opened Engines
  import opened Wrappers
  import S = Seams

  datatype Mode = Default | Materialized | Alias
  datatype Value = Value(mode: Mode, text: Clause)
  datatype Column = Column(name: string, chType: Clause, value: Option<Value>, comment: Option<string>,
    codec: Option<Clause>)
  datatype Order = Raw(text: Clause) | Key(names: seq<string>) | Unsorted
  datatype Table = Table(
    database: string, name: string, columns: seq<Column>, indexes: seq<Clause>, family: string, params: Clause,
    partition: Option<Clause>, order: Order, ttl: seq<Clause>, granularity: string, settings: seq<S.Setting>,
    comment: Option<string>)

  // ----- the renderer

  function ValuePieces(value: Option<Value>): seq<Piece> {
    match value
    case None => []
    case Some(Value(Default, text)) => [Piece(" DEFAULT ", text)]
    case Some(Value(Materialized, text)) => [Piece(" MATERIALIZED ", text)]
    case Some(Value(Alias, text)) => [Piece(" ALIAS ", text)]
  }

  function CommentPieces(lead: string, comment: Option<string>): seq<Piece> {
    match comment
    case None => []
    case Some(text) => [Piece(lead, Quoted(text))]
  }

  function CodecPieces(codec: Option<Clause>): seq<Piece> {
    match codec
    case None => []
    case Some(text) => [Piece(" CODEC(", text), Piece(")", [])]
  }

  function ColumnPieces(lead: string, c: Column): seq<Piece> {
    [Piece(lead, Plain(c.name)), Piece("` ", c.chType)]
    + (ValuePieces(c.value) + (CommentPieces(" COMMENT ", c.comment) + CodecPieces(c.codec)))
  }

  function ColumnsPieces(lead: string, columns: seq<Column>): seq<Piece>
    decreases |columns|
  {
    if columns == [] then [] else ColumnPieces(lead, columns[0]) + ColumnsPieces(",\n    `", columns[1..])
  }

  function ListPieces(lead: string, clauses: seq<Clause>): seq<Piece>
    decreases |clauses|
  {
    if clauses == [] then [] else [Piece(lead, clauses[0])] + ListPieces(",\n    ", clauses[1..])
  }

  // The column list: columns, then indexes, one to a line.
  function BodyPieces(t: Table): seq<Piece> {
    if t.columns == [] then
      if t.indexes == [] then [Piece("`\n(\n", [])] else ListPieces("`\n(\n    ", t.indexes)
    else ColumnsPieces("`\n(\n    `", t.columns) + ListPieces(",\n    ", t.indexes)
  }

  function TargetPieces(t: Table): seq<Piece> {
    [Piece("`.`", Plain(t.name))] + BodyPieces(t)
  }

  function EnginePieces(t: Table): seq<Piece> {
    [Piece("\n)\nENGINE = ", Plain("Replicated" + t.family))]
  }

  function ParamsPieces(params: Clause): seq<Piece> {
    if params == [] then [] else [Piece("(", params), Piece(")", [])]
  }

  function OptionPieces(lead: string, clause: Option<Clause>): seq<Piece> {
    match clause
    case None => []
    case Some(text) => [Piece(lead, text)]
  }

  function NamesPieces(lead: string, names: seq<string>): seq<Piece>
    decreases |names|
  {
    if names == [] then [] else [Piece(lead, Plain(names[0]))] + NamesPieces("`, `", names[1..])
  }

  function OrderPieces(order: Order): seq<Piece> {
    match order
    case Raw(text) => [Piece("\nORDER BY (", text), Piece(")", [])]
    case Unsorted => [Piece("\nORDER BY tuple()", [])]
    case Key(names) =>
      if names == [] then [Piece("\nORDER BY tuple()", [])]
      else NamesPieces("\nPRIMARY KEY (`", names) + (NamesPieces("`)\nORDER BY (`", names) + [Piece("`)", [])])
  }

  function Assigned(s: S.Setting): Clause {
    Plain(s.name + (" = " + s.value))
  }

  function AssignedAll(settings: seq<S.Setting>): seq<Clause> {
    if settings == [] then [] else [Assigned(settings[0])] + AssignedAll(settings[1..])
  }

  function Settings(t: Table): seq<S.Setting> {
    [S.Setting("index_granularity", t.granularity)] + t.settings
  }

  // The index granularity, and the other settings one to a line.
  function SettingsPieces(t: Table): seq<Piece> {
    ListPieces("\nSETTINGS\n    ", AssignedAll(Settings(t)))
  }

  function AfterEngine(t: Table): seq<Piece> {
    ParamsPieces(t.params)
    + (OptionPieces("\nPARTITION BY ", t.partition)
    + (OrderPieces(t.order)
    + (ListPieces("\nTTL ", t.ttl)
    + (SettingsPieces(t)
    + CommentPieces("\nCOMMENT ", t.comment)))))
  }

  function AllPieces(t: Table): seq<Piece> {
    [Piece("CREATE TABLE IF NOT EXISTS `", Plain(t.database))] + (TargetPieces(t) + (EnginePieces(t) + AfterEngine(t)))
  }

  // Every name is quoted as it is written, and the engine is one that the renderer adds its prefix to.
  predicate Accepted(t: Table) {
    && QuoteIdent(t.database).Some? && QuoteIdent(t.name).Some?
    && (forall c <- t.columns :: QuoteIdent(c.name).Some?)
    && (t.order.Key? ==> forall n <- t.order.names :: QuoteIdent(n).Some?)
    && EngineClause(Spec(t.family, Flat(t.params))).Some?
  }

  function CreateTable(t: Table): Option<seq<Atom>> {
    if Accepted(t) then Some(Compose(AllPieces(t))) else None
  }

  // A comment is written as the literal of its text.
  lemma CommentIsLiteral(text: string)
    ensures Flat(Quoted(text)) == StringLiteral(text)
  {
    LiteralIs(text);
    assert [Lit(Escaped(text))][1..] == [] && Flat([]) == "";
  }

  lemma {:induction false} NoText(atoms: Clause)
    ensures Flat(atoms) == "" <==> atoms == []
  {
  }

  // The engine stands in the statement as its clause.
  lemma EngineIsClause(t: Table)
    requires Accepted(t)
    ensures Flat(Compose(EnginePieces(t) + ParamsPieces(t.params)))
         == "\n)\nENGINE = " + EngineClause(Spec(t.family, Flat(t.params))).value
  {
    NoText(t.params);
    EngineText(t);
    ParamsText(t.params);
    hide Compose, Flat, Plain, QuoteIdent, EnginePieces, ParamsPieces;
    ClauseText(Spec(t.family, Flat(t.params)));
    ComposeConcat(EnginePieces(t), ParamsPieces(t.params));
    FlatConcat(Compose(EnginePieces(t)), Compose(ParamsPieces(t.params)));
  }

  lemma EngineText(t: Table)
    ensures Flat(Compose(EnginePieces(t))) == "\n)\nENGINE = " + ("Replicated" + t.family)
  {
    var name := "Replicated" + t.family;
    PlainText(name);
    OneFlatPiece("\n)\nENGINE = ", Plain(name));
    hide Plain, Compose, Flat;
  }

  lemma ParamsText(params: Clause)
    ensures Flat(Compose(ParamsPieces(params))) == if params == [] then "" else "(" + (Flat(params) + ")")
  {
    if params != [] {
      var first, last := [Piece("(", params)], [Piece(")", [])];
      assert ParamsPieces(params) == first + last;
      OneFlatPiece("(", params);
      OneFlatPiece(")", []);
      assert Flat([]) == "" && ")" + "" == ")";
      hide Plain, Compose, Flat;
      ComposeConcat(first, last);
      FlatConcat(Compose(first), Compose(last));
    }
  }

  lemma OneFlatPiece(lead: string, c: Clause)
    ensures Flat(Compose([Piece(lead, c)])) == lead + Flat(c)
  {
    assert [Piece(lead, c)][1..] == [] && Compose([]) == [];
    assert Compose([Piece(lead, c)]) == Plain(lead) + c + [] == Plain(lead) + c;
    PlainText(lead);
    hide Plain, Flat;
    FlatConcat(Plain(lead), c);
  }

  // ----- the renderer's words

  lemma DefaultLead()
    ensures IsLead(" DEFAULT ") && !After(" DEFAULT ", true) && '=' !in " DEFAULT "
  {
    LeadIs(" DEFAULT ", 1, 7, 9);
  }

  lemma MaterializedLead()
    ensures IsLead(" MATERIALIZED ") && !After(" MATERIALIZED ", true) && '=' !in " MATERIALIZED "
  {
    LeadIs(" MATERIALIZED ", 1, 12, 14);
  }

  lemma AliasLead()
    ensures IsLead(" ALIAS ") && !After(" ALIAS ", true) && '=' !in " ALIAS "
  {
    LeadIs(" ALIAS ", 1, 5, 7);
  }

  lemma CommentLead()
    ensures IsLead(" COMMENT ") && !After(" COMMENT ", true) && '=' !in " COMMENT "
  {
    LeadIs(" COMMENT ", 1, 7, 9);
  }

  lemma CodecLead()
    ensures IsLead(" CODEC(") && !After(" CODEC(", true) && '=' !in " CODEC("
  {
    LeadIs(" CODEC(", 1, 6, 7);
  }

  lemma TypeLead()
    ensures IsLead("` ") && !After("` ", true) && '=' !in "` "
  {
    LeadIs("` ", 0, 0, 2);
  }

  lemma DotLead()
    ensures IsLead("`.`") && !After("`.`", true) && '=' !in "`.`"
  {
    LeadIs("`.`", 0, 2, 3);
  }

  lemma NextNameLead()
    ensures IsLead("`, `") && !After("`, `", true) && '=' !in "`, `"
  {
    LeadIs("`, `", 0, 3, 4);
  }

  lemma LastNameLead()
    ensures IsLead("`)") && !After("`)", true) && '=' !in "`)"
  {
    LeadIs("`)", 0, 1, 2);
  }

  lemma NextLineLead()
    ensures IsLead(",\n    ") && '=' !in ",\n    "
  {
    LeadIs(",\n    ", 0, 0, 6);
  }

  lemma NextColumnLead()
    ensures IsLead(",\n    `") && !After(",\n    `", true) && '=' !in ",\n    `"
  {
    LeadIs(",\n    `", 0, 6, 7);
  }

  lemma NoBodyLead()
    ensures IsLead("`\n(\n") && '=' !in "`\n(\n"
  {
    LeadIs("`\n(\n", 0, 2, 4);
  }

  lemma FirstLineLead()
    ensures IsLead("`\n(\n    ") && '=' !in "`\n(\n    "
  {
    LeadIs("`\n(\n    ", 0, 2, 8);
  }

  lemma FirstColumnLead()
    ensures IsLead("`\n(\n    `") && !After("`\n(\n    `", true) && '=' !in "`\n(\n    `"
  {
    LeadIs("`\n(\n    `", 0, 8, 9);
  }

  lemma BodyEndLead()
    ensures IsLead("\n)\n") && '=' !in "\n)\n"
  {
    LeadIs("\n)\n", 1, 1, 3);
  }

  lemma EngineLead()
    ensures IsLead("\n)\nENGINE = ") && !After("\n)\nENGINE = ", true)
  {
    LeadIs("\n)\nENGINE = ", 1, 10, 10);
  }

  lemma OpenLead()
    ensures IsLead("(") && !After("(", true) && '=' !in "("
  {
    LeadIs("(", 0, 0, 1);
  }

  lemma CloseLead()
    ensures IsLead(")") && !After(")", true) && '=' !in ")"
  {
    LeadIs(")", 0, 0, 1);
  }

  lemma PartitionLead()
    ensures IsLead("\nPARTITION BY ") && !After("\nPARTITION BY ", true) && '=' !in "\nPARTITION BY "
  {
    LeadIs("\nPARTITION BY ", 1, 12, 14);
  }

  lemma OrderLead()
    ensures IsLead("\nORDER BY (") && !After("\nORDER BY (", true) && '=' !in "\nORDER BY ("
  {
    LeadIs("\nORDER BY (", 1, 10, 11);
  }

  lemma UnsortedLead()
    ensures IsLead("\nORDER BY tuple()") && !After("\nORDER BY tuple()", true) && '=' !in "\nORDER BY tuple()"
  {
    LeadIs("\nORDER BY tuple()", 1, 16, 17);
  }

  lemma KeyLead()
    ensures IsLead("\nPRIMARY KEY (`") && !After("\nPRIMARY KEY (`", true) && '=' !in "\nPRIMARY KEY (`"
  {
    LeadIs("\nPRIMARY KEY (`", 1, 14, 15);
  }

  lemma KeyOrderLead()
    ensures IsLead("`)\nORDER BY (`") && !After("`)\nORDER BY (`", true) && '=' !in "`)\nORDER BY (`"
  {
    LeadIs("`)\nORDER BY (`", 0, 13, 14);
  }

  lemma TtlLead()
    ensures IsLead("\nTTL ") && !After("\nTTL ", true) && '=' !in "\nTTL "
  {
    LeadIs("\nTTL ", 1, 3, 5);
  }

  lemma SettingsLead()
    ensures IsLead("\nSETTINGS\n    ") && '=' !in "\nSETTINGS\n    "
  {
    LeadIs("\nSETTINGS\n    ", 1, 8, 14);
  }

  lemma TableCommentLead()
    ensures IsLead("\nCOMMENT ") && !After("\nCOMMENT ", true) && '=' !in "\nCOMMENT "
  {
    LeadIs("\nCOMMENT ", 1, 7, 9);
  }

  lemma HeadLead()
    ensures var l := "CREATE TABLE IF NOT EXISTS `"; Closed(l) && Neutral(l) && !After(l, true) && '=' !in l
  {
    var l := "CREATE TABLE IF NOT EXISTS `";
    ClosedIs(l, 27);
    AfterSolid(l, 27, true);
    HeadIsNeutral();
  }

  lemma HeadIsNeutral()
    ensures Neutral("CREATE TABLE IF NOT EXISTS `") && '=' !in "CREATE TABLE IF NOT EXISTS `"
  {
    NeutralIs("CREATE TABLE IF NOT EXISTS `", 28);
  }

  // ----- tables with nothing in them for the gate

  ghost predicate CleanColumn(c: Column) {
    && CleanClause(c.chType)
    && (c.value.Some? ==> CleanClause(c.value.value.text))
    && (c.comment.Some? ==> Harmless(c.comment.value))
    && (c.codec.Some? ==> CleanClause(c.codec.value))
  }

  ghost predicate CleanLine(c: Clause) {
    CleanClause(c) && StartsLine(c)
  }

  ghost predicate CleanOrder(o: Order) {
    o.Raw? ==> CleanClause(o.text)
  }

  // A name that keeps to its line and begins none that looks like a comment, and a number.
  ghost predicate CleanSetting(s: S.Setting) {
    S.IsSetting(s) && '\'' !in s.name && s.name[0] != '-'
  }

  // Clauses free of stray quotes, line breaks, ON CLUSTER and `ENGINE =`, columns whose comments keep their ends.
  ghost predicate CleanBody(t: Table) {
    && (forall c <- t.columns :: CleanColumn(c)) && (forall i <- t.indexes :: CleanLine(i))
    && IsFamily(t.family) && CleanClause(t.params)
    && (t.partition.Some? ==> CleanClause(t.partition.value))
    && CleanOrder(t.order) && (forall x <- t.ttl :: CleanLine(x))
    && S.Digits(t.granularity) && forall s <- t.settings :: CleanSetting(s)
  }

  ghost predicate CleanTable(t: Table) {
    CleanBody(t) && (t.comment.Some? ==> Harmless(t.comment.value))
  }

  lemma ClausePiece(lead: string, c: Clause)
    requires IsLead(lead) && '=' !in lead && CleanClause(c) && (After(lead, true) ==> StartsLine(c))
    ensures AllGood([Piece(lead, c)])
  {
    hide IsLead, Orderly, After, StartsLine, Settled, Skeleton;
    assert ToldAt([Piece(lead, c)], 0);
  }

  // The quote that a name's own piece leaves open.
  function Tick(): Piece { Piece("`", []) }

  lemma NamePiece(lead: string, name: string)
    requires IsLead(lead) && '=' !in lead && !After(lead, true) && QuoteIdent(name).Some?
    ensures AllGood([Piece(lead, Plain(name))] + [Tick()])
  {
    hide IsLead, Orderly, After, StartsLine, Settled, Skeleton, QuoteIdent;
    NameIsOrderly(name);
    NothingIsClean();
    TickLead();
    var pieces := [Piece(lead, Plain(name))] + [Tick()];
    assert ToldAt(pieces, 0) && ToldAt(pieces, 1);
  }

  lemma TickLead()
    ensures IsLead("`") && !After("`", true) && '=' !in "`"
  {
    LeadIs("`", 0, 0, 1);
  }

  lemma EmptyPiece(lead: string)
    requires IsLead(lead) && '=' !in lead
    ensures AllGood([Piece(lead, [])])
  {
    hide IsLead, After, CleanClause;
    NothingIsClean();
    ClausePiece(lead, []);
  }

  lemma GoodConcat(a: seq<Piece>, b: seq<Piece>)
    requires AllGood(a) && AllGood(b)
    ensures AllGood(a + b)
  {
    hide Good, Settled, Skeleton, Ticks;
    var all := a + b;
    forall i | 0 <= i < |all| ensures ToldAt(all, i) {
      if i < |a| {
        assert ToldAt(a, i) && all[i] == a[i];
        assert i + 1 < |a| ==> all[i + 1] == a[i + 1];
      } else {
        assert ToldAt(b, i - |a|) && all[i] == b[i - |a|];
        assert i + 1 < |all| ==> all[i + 1] == b[i - |a| + 1];
      }
    }
  }

  // A name at the end, and the quote that closes it.
  lemma GoodJoin(a: seq<Piece>, b: seq<Piece>)
    requires AllGood(a + [Tick()]) && AllGood(b) && b != [] && Ticks(b[0].lead)
    ensures AllGood(a + b)
  {
    hide Good, Settled, Skeleton, Ticks;
    var all, open := a + b, a + [Tick()];
    forall p | p in all ensures Good(p) && '=' !in p.lead {
      assert p in a ==> p in open;
    }
    forall i | 0 <= i < |all| ensures ToldAt(all, i) {
      if i < |a| {
        assert ToldAt(open, i) && all[i] == open[i];
        assert all[i + 1] == if i + 1 < |a| then open[i + 1] else b[0];
      } else {
        assert ToldAt(b, i - |a|) && all[i] == b[i - |a|];
        assert i + 1 < |all| ==> all[i + 1] == b[i - |a| + 1];
      }
    }
  }

  lemma GoodNothing()
    ensures AllGood([])
  {
  }

  lemma ValueGood(value: Option<Value>)
    requires value.Some? ==> CleanClause(value.value.text)
    ensures AllGood(ValuePieces(value))
  {
    hide IsLead, After, CleanClause, Good;
    DefaultLead();
    MaterializedLead();
    AliasLead();
    match value {
      case None => GoodNothing();
      case Some(Value(Default, text)) => ClausePiece(" DEFAULT ", text);
      case Some(Value(Materialized, text)) => ClausePiece(" MATERIALIZED ", text);
      case Some(Value(Alias, text)) => ClausePiece(" ALIAS ", text);
    }
  }

  lemma CommentGood(lead: string, comment: Option<string>)
    requires IsLead(lead) && '=' !in lead && !After(lead, true) && (comment.Some? ==> Harmless(comment.value))
    ensures AllGood(CommentPieces(lead, comment))
  {
    hide IsLead, After, CleanClause, Good;
    match comment {
      case None => GoodNothing();
      case Some(text) =>
        CommentIsClean(text);
        ClausePiece(lead, Quoted(text));
    }
  }

  lemma OptionGood(lead: string, clause: Option<Clause>)
    requires IsLead(lead) && '=' !in lead && !After(lead, true) && (clause.Some? ==> CleanClause(clause.value))
    ensures AllGood(OptionPieces(lead, clause))
  {
    hide IsLead, After, CleanClause, Good;
    match clause {
      case None => GoodNothing();
      case Some(text) => ClausePiece(lead, text);
    }
  }

  // A clause in brackets.
  lemma BracketGood(lead: string, c: Clause)
    requires IsLead(lead) && '=' !in lead && !After(lead, true) && CleanClause(c)
    ensures AllGood([Piece(lead, c), Piece(")", [])])
  {
    hide IsLead, After, CleanClause, Good;
    CloseLead();
    ClausePiece(lead, c);
    EmptyPiece(")");
    GoodConcat([Piece(lead, c)], [Piece(")", [])]);
    assert [Piece(lead, c)] + [Piece(")", [])] == [Piece(lead, c), Piece(")", [])];
  }

  lemma ColumnGood(lead: string, c: Column)
    requires IsLead(lead) && '=' !in lead && !After(lead, true) && QuoteIdent(c.name).Some? && CleanColumn(c)
    ensures AllGood(ColumnPieces(lead, c))
  {
    hide IsLead, After, CleanClause, AllGood, QuoteIdent, Harmless;
    TypeLead();
    CommentLead();
    CodecLead();
    NamePiece(lead, c.name);
    ClausePiece("` ", c.chType);
    GoodJoin([Piece(lead, Plain(c.name))], [Piece("` ", c.chType)]);
    assert [Piece(lead, Plain(c.name))] + [Piece("` ", c.chType)]
      == [Piece(lead, Plain(c.name)), Piece("` ", c.chType)];
    ValueGood(c.value);
    CommentGood(" COMMENT ", c.comment);
    match c.codec {
      case None => assert AllGood(CodecPieces(None)) by { GoodNothing(); }
      case Some(text) => BracketGood(" CODEC(", text);
    }
    GoodConcat(CommentPieces(" COMMENT ", c.comment), CodecPieces(c.codec));
    GoodConcat(ValuePieces(c.value), CommentPieces(" COMMENT ", c.comment) + CodecPieces(c.codec));
    GoodConcat([Piece(lead, Plain(c.name)), Piece("` ", c.chType)],
      ValuePieces(c.value) + (CommentPieces(" COMMENT ", c.comment) + CodecPieces(c.codec)));
  }

  lemma {:induction false} ColumnsGood(lead: string, columns: seq<Column>)
    requires IsLead(lead) && '=' !in lead && !After(lead, true)
    requires forall c <- columns :: QuoteIdent(c.name).Some? && CleanColumn(c)
    ensures AllGood(ColumnsPieces(lead, columns))
    decreases |columns|
  {
    hide IsLead, After, CleanColumn, AllGood, QuoteIdent, ColumnPieces;
    if columns == [] {
      GoodNothing();
    } else {
      NextColumnLead();
      ColumnGood(lead, columns[0]);
      ColumnsGood(",\n    `", columns[1..]);
      GoodConcat(ColumnPieces(lead, columns[0]), ColumnsPieces(",\n    `", columns[1..]));
    }
  }

  lemma {:induction false} ListGood(lead: string, clauses: seq<Clause>)
    requires IsLead(lead) && '=' !in lead && forall c <- clauses :: CleanLine(c)
    ensures AllGood(ListPieces(lead, clauses))
    decreases |clauses|
  {
    hide IsLead, After, CleanClause, StartsLine, AllGood;
    if clauses == [] {
      GoodNothing();
    } else {
      NextLineLead();
      assert clauses[0] in clauses;
      ClausePiece(lead, clauses[0]);
      ListGood(",\n    ", clauses[1..]);
      GoodConcat([Piece(lead, clauses[0])], ListPieces(",\n    ", clauses[1..]));
    }
  }

  lemma {:induction false} NamesGood(lead: string, names: seq<string>)
    requires IsLead(lead) && '=' !in lead && !After(lead, true) && Ticks("`")
    requires forall n <- names :: QuoteIdent(n).Some?
    ensures AllGood(NamesPieces(lead, names) + [Tick()])
    decreases |names|
  {
    hide IsLead, After, AllGood, QuoteIdent;
    if names == [] {
      TickLead();
      EmptyPiece("`");
      assert [] + [Tick()] == [Tick()];
    } else {
      NextNameLead();
      NamePiece(lead, names[0]);
      NamesGood("`, `", names[1..]);
      var more := NamesPieces("`, `", names[1..]) + [Tick()];
      GoodJoin([Piece(lead, Plain(names[0]))], more);
      assert [Piece(lead, Plain(names[0]))] + more == NamesPieces(lead, names) + [Tick()];
    }
  }

  lemma OrderGood(o: Order)
    requires CleanOrder(o) && (o.Key? ==> forall n <- o.names :: QuoteIdent(n).Some?)
    ensures AllGood(OrderPieces(o))
  {
    hide IsLead, After, AllGood, QuoteIdent, CleanClause;
    OrderLead();
    UnsortedLead();
    match o {
      case Raw(text) => BracketGood("\nORDER BY (", text);
      case Unsorted => EmptyPiece("\nORDER BY tuple()");
      case Key(names) =>
        if names == [] {
          EmptyPiece("\nORDER BY tuple()");
        } else {
          KeyLead();
          KeyOrderLead();
          LastNameLead();
          NamesGood("\nPRIMARY KEY (`", names);
          NamesGood("`)\nORDER BY (`", names);
          EmptyPiece("`)");
          var keys := NamesPieces("`)\nORDER BY (`", names);
          assert keys[0].lead == "`)\nORDER BY (`";
          GoodJoin(keys, [Piece("`)", [])]);
          GoodJoin(NamesPieces("\nPRIMARY KEY (`", names), keys + [Piece("`)", [])]);
        }
    }
  }

  lemma BodyGood(t: Table)
    requires forall c <- t.columns :: QuoteIdent(c.name).Some? && CleanColumn(c)
    requires forall i <- t.indexes :: CleanLine(i)
    ensures AllGood(BodyPieces(t))
  {
    hide IsLead, After, AllGood, CleanColumn, QuoteIdent, CleanLine, ColumnsPieces, ListPieces;
    NoBodyLead();
    FirstLineLead();
    FirstColumnLead();
    NextLineLead();
    if t.columns == [] {
      if t.indexes == [] {
        EmptyPiece("`\n(\n");
      } else {
        ListGood("`\n(\n    ", t.indexes);
      }
    } else {
      ColumnsGood("`\n(\n    `", t.columns);
      ListGood(",\n    ", t.indexes);
      GoodConcat(ColumnsPieces("`\n(\n    `", t.columns), ListPieces(",\n    ", t.indexes));
    }
  }

  // The body begins with the quote that closes the table's name.
  lemma BodyTicks(t: Table)
    ensures BodyPieces(t) != [] && Ticks(BodyPieces(t)[0].lead)
  {
  }

  lemma TargetGood(t: Table)
    requires Accepted(t) && CleanBody(t)
    ensures AllGood(TargetPieces(t))
  {
    hide IsLead, After, AllGood, CleanColumn, QuoteIdent, CleanLine, CleanClause, CleanOrder, CleanSetting, BodyPieces;
    DotLead();
    NamePiece("`.`", t.name);
    BodyGood(t);
    BodyTicks(t);
    GoodJoin([Piece("`.`", Plain(t.name))], BodyPieces(t));
  }

  // ----- settings

  lemma SettingIsClean(s: S.Setting)
    requires CleanSetting(s)
    ensures CleanLine(Assigned(s)) && Assigned(s) != []
  {
    assert s.name[0] in s.name;
    assert forall i :: 0 <= i < |s.name| ==> s.name[i] in s.name;
    hide CleanClause, StartsLine;
    AssignmentIsClean(s.name, s.value);
  }

  lemma {:induction false} SettingsAreClean(settings: seq<S.Setting>)
    requires forall s <- settings :: CleanSetting(s)
    ensures forall c <- AssignedAll(settings) :: CleanLine(c) && c != []
    ensures |AssignedAll(settings)| == |settings|
  {
    hide CleanSetting, CleanLine, Assigned;
    if settings != [] {
      SettingIsClean(settings[0]);
      SettingsAreClean(settings[1..]);
    }
  }

  predicate IsLower(c: char) {
    'a' <= c <= 'z' || c == '_'
  }

  lemma LowerIsName(n: string)
    requires n != "" && forall i :: 0 <= i < |n| ==> IsLower(n[i])
    ensures S.IsName(n) && '\'' !in n && n[0] != '-'
  {
  }

  lemma GranularityIsClean(g: string)
    requires S.Digits(g)
    ensures CleanSetting(S.Setting("index_granularity", g))
  {
    var n := "index_granularity";
    assert forall i :: 0 <= i < 17 ==> IsLower(n[i]);
    hide IsLower, S.IsName;
    LowerIsName(n);
  }

  lemma TableSettings(t: Table)
    requires CleanBody(t)
    ensures var lines := AssignedAll(Settings(t)); lines != [] && forall c <- lines :: CleanLine(c) && c != []
    ensures SettingsPieces(t) == ListPieces("\nSETTINGS\n    ", AssignedAll(Settings(t)))
  {
    hide CleanSetting, CleanLine, Assigned, CleanColumn, CleanOrder, CleanClause;
    GranularityIsClean(t.granularity);
    SettingsAreClean(Settings(t));
  }

  // What stands behind the engine's clauses.
  function Foot(t: Table): seq<Piece> {
    SettingsPieces(t) + CommentPieces("\nCOMMENT ", t.comment)
  }

  lemma SettingsGood(t: Table)
    requires CleanBody(t)
    ensures AllGood(SettingsPieces(t))
  {
    hide IsLead, After, AllGood, CleanLine, CleanBody, AssignedAll, Settings, ListPieces;
    TableSettings(t);
    SettingsLead();
    ListGood("\nSETTINGS\n    ", AssignedAll(Settings(t)));
  }

  // Everything between the engine's name and the table's comment.
  function BeforeComment(t: Table): seq<Piece> {
    ParamsPieces(t.params)
    + (OptionPieces("\nPARTITION BY ", t.partition)
    + (OrderPieces(t.order) + (ListPieces("\nTTL ", t.ttl) + SettingsPieces(t))))
  }

  lemma AfterIs(t: Table)
    ensures AfterEngine(t) == BeforeComment(t) + CommentPieces("\nCOMMENT ", t.comment)
  {
    hide ParamsPieces, OptionPieces, OrderPieces, ListPieces, SettingsPieces, CommentPieces;
  }

  lemma BeforeCommentGood(t: Table)
    requires Accepted(t) && CleanBody(t)
    ensures AllGood(BeforeComment(t))
  {
    SettingsGood(t);
    hide IsLead, After, AllGood, CleanColumn, QuoteIdent, CleanLine, CleanClause, CleanOrder, CleanSetting,
      OrderPieces, ListPieces, SettingsPieces;
    OpenLead();
    PartitionLead();
    TtlLead();
    var params, partition, order, ttl :=
      ParamsPieces(t.params), OptionPieces("\nPARTITION BY ", t.partition), OrderPieces(t.order),
        ListPieces("\nTTL ", t.ttl);
    if t.params == [] {
      GoodNothing();
    } else {
      BracketGood("(", t.params);
    }
    OptionGood("\nPARTITION BY ", t.partition);
    OrderGood(t.order);
    ListGood("\nTTL ", t.ttl);
    GoodConcat(ttl, SettingsPieces(t));
    GoodConcat(order, ttl + SettingsPieces(t));
    GoodConcat(partition, order + (ttl + SettingsPieces(t)));
    GoodConcat(params, partition + (order + (ttl + SettingsPieces(t))));
  }

  lemma AfterGood(t: Table)
    requires Accepted(t) && CleanTable(t)
    ensures AllGood(AfterEngine(t))
  {
    hide IsLead, After, AllGood, CleanBody, BeforeComment, CommentPieces, Accepted;
    TableCommentLead();
    AfterIs(t);
    BeforeCommentGood(t);
    CommentGood("\nCOMMENT ", t.comment);
    GoodConcat(BeforeComment(t), CommentPieces("\nCOMMENT ", t.comment));
  }
}

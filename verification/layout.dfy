/** The text of a rendered table, line by line, in the words of the statement and not of the pieces it is made of. */
module Layout {
  import opened Text
  import opened Scan
  import opened Words
  import opened Literals
  import opened Gate
  import opened Atoms
  import opened Pieces
  import opened Rendered
  import opened Engines
  import opened Wrappers
  import opened Ledger
  import S = Seams

  // ----- lines

  // Every line behind its line break.
  function Broken(lines: seq<string>): string {
    if lines == [] then "" else "\n" + (lines[0] + Broken(lines[1..]))
  }

  lemma {:induction false} BrokenConcat(a: seq<string>, b: seq<string>)
    ensures Broken(a + b) == Broken(a) + Broken(b)
  {
    if a == [] {
      assert a + b == b;
    } else {
      assert (a + b)[0] == a[0] && (a + b)[1..] == a[1..] + b;
      BrokenConcat(a[1..], b);
      Assoc3("\n", a[0], Broken(a[1..]), Broken(b));
    }
  }

  lemma Assoc3(a: string, b: string, c: string, d: string)
    ensures a + (b + (c + d)) == a + (b + c) + d
  {
  }

  lemma {:induction false} JoinIsBroken(first: string, more: seq<string>)
    ensures JoinLines([first] + more) == first + Broken(more)
    decreases |more|
  {
    var lines := [first] + more;
    if more == [] {
      assert lines == [first] && first + "" == first;
    } else {
      JoinIsBroken(more[0], more[1..]);
      assert lines[1..] == more == [more[0]] + more[1..];
      assert first + "\n" + JoinLines(more) == first + ("\n" + (more[0] + Broken(more[1..])));
    }
  }

  // Lines that end in a comma, all but the last; the first is set in as told and the others by four spaces.
  function Listed(lead: string, items: seq<string>): (r: seq<string>)
    ensures |r| == |items|
    decreases |items|
  {
    if items == [] then []
    else [lead + items[0] + if |items| > 1 then "," else ""] + Listed("    ", items[1..])
  }

  lemma {:induction false} ListedAt(lead: string, items: seq<string>, i: nat)
    requires i < |items|
    ensures Listed(lead, items)[i]
         == (if i == 0 then lead else "    ") + items[i] + if i < |items| - 1 then "," else ""
    decreases |items|
  {
    if i > 0 {
      ListedAt("    ", items[1..], i - 1);
    }
  }

  function Texts(clauses: seq<Clause>): (r: seq<string>)
    ensures |r| == |clauses| && forall i :: 0 <= i < |r| ==> r[i] == Flat(clauses[i])
  {
    if clauses == [] then [] else [Flat(clauses[0])] + Texts(clauses[1..])
  }

  // Names in quotes, as a key lists them.
  function Key(names: seq<string>): string {
    if names == [] then ""
    else if |names| == 1 then "`" + names[0] + "`"
    else "`" + names[0] + "`, " + Key(names[1..])
  }

  // ----- the layout

  function Definition(c: Column): string {
    "`" + c.name + "` " + Flat(c.chType)
    + (match c.value
       case None => ""
       case Some(Value(Default, x)) => " DEFAULT " + Flat(x)
       case Some(Value(Materialized, x)) => " MATERIALIZED " + Flat(x)
       case Some(Value(Alias, x)) => " ALIAS " + Flat(x))
    + (if c.comment.Some? then " COMMENT " + StringLiteral(c.comment.value) else "")
    + (if c.codec.Some? then " CODEC(" + Flat(c.codec.value) + ")" else "")
  }

  function Definitions(columns: seq<Column>): (r: seq<string>)
    ensures |r| == |columns| && forall i :: 0 <= i < |r| ==> r[i] == Definition(columns[i])
  {
    if columns == [] then [] else [Definition(columns[0])] + Definitions(columns[1..])
  }

  function Assignments(settings: seq<S.Setting>): (r: seq<string>)
    ensures |r| == |settings|
    ensures forall i :: 0 <= i < |r| ==> r[i] == settings[i].name + " = " + settings[i].value
  {
    if settings == [] then []
    else [settings[0].name + " = " + settings[0].value] + Assignments(settings[1..])
  }

  // What stands between the brackets: an empty line where there is nothing to list.
  function Body(t: Table): seq<string> {
    var items := Definitions(t.columns) + Texts(t.indexes);
    if items == [] then [""] else Listed("    ", items)
  }

  function SortLines(order: Order): seq<string> {
    match order
    case Raw(x) => ["ORDER BY (" + Flat(x) + ")"]
    case Unsorted => ["ORDER BY tuple()"]
    case Key(names) =>
      if names == [] then ["ORDER BY tuple()"]
      else ["PRIMARY KEY (" + Key(names) + ")", "ORDER BY (" + Key(names) + ")"]
  }

  function EngineLine(t: Table): string {
    "ENGINE = Replicated" + t.family + if t.params == [] then "" else "(" + Flat(t.params) + ")"
  }

  function Foot(t: Table): seq<string> {
    [")", EngineLine(t)]
    + (if t.partition.Some? then ["PARTITION BY " + Flat(t.partition.value)] else [])
    + SortLines(t.order)
    + Listed("TTL ", Texts(t.ttl))
    + ["SETTINGS"] + Listed("    ", ["index_granularity = " + t.granularity] + Assignments(t.settings))
    + (if t.comment.Some? then ["COMMENT " + StringLiteral(t.comment.value)] else [])
  }

  function TableLines(t: Table): seq<string> {
    ["CREATE TABLE IF NOT EXISTS `" + t.database + "`.`" + t.name + "`", "("] + Body(t) + Foot(t)
  }

  // ----- lists

  // The same lines without the breaks before them.
  function Commas(items: seq<string>): string {
    if items == [] then ""
    else if |items| == 1 then items[0]
    else items[0] + (",\n    " + Commas(items[1..]))
  }

  lemma ListedOne(lead: string, item: string)
    ensures Listed(lead, [item]) == [lead + item]
  {
    assert [item][1..] == [] && Listed("    ", []) == [];
    assert lead + item + "" == lead + item;
    assert [lead + item] + [] == [lead + item];
  }

  lemma {:induction false} ListedIs(lead: string, items: seq<string>)
    requires items != []
    ensures Broken(Listed(lead, items)) == "\n" + (lead + Commas(items))
    decreases |items|
  {
    var more := items[1..];
    if more == [] {
      ListedOne(lead, items[0]);
      assert items == [items[0]] && Commas(items) == items[0];
      BrokenOne(lead + items[0]);
    } else {
      ListedIs("    ", more);
      var line := lead + items[0] + ",";
      assert Listed(lead, items) == [line] + Listed("    ", more);
      BrokenConcat([line], Listed("    ", more));
      assert Broken([line]) == "\n" + (line + "") by { assert [line][1..] == []; }
      Breaks(lead, items[0], Commas(more));
    }
  }

  lemma Breaks(lead: string, item: string, rest: string)
    ensures "\n" + (lead + item + "," + "") + ("\n" + ("    " + rest)) == "\n" + (lead + (item + (",\n    " + rest)))
  {
    assert ",\n    " + rest == "," + ("\n" + ("    " + rest));
  }

  lemma {:induction false} CommasConcat(a: seq<string>, b: seq<string>)
    requires a != [] && b != []
    ensures Commas(a + b) == Commas(a) + (",\n    " + Commas(b))
    decreases |a|
  {
    assert (a + b)[0] == a[0] && (a + b)[1..] == a[1..] + b;
    if |a| > 1 {
      CommasConcat(a[1..], b);
      Assoc3(a[0], ",\n    ", Commas(a[1..]), ",\n    " + Commas(b));
    } else {
      assert a[1..] + b == b;
    }
  }

  lemma NoPieces()
    ensures TextOf([]) == ""
  {
  }

  lemma CommasFirst(x: string, more: seq<string>)
    ensures Commas([x] + more) == x + if more == [] then "" else ",\n    " + Commas(more)
  {
    assert ([x] + more)[1..] == more;
    assert more == [] ==> [x] + more == [x];
  }

  lemma {:induction false} ListText(lead: string, clauses: seq<Clause>)
    ensures TextOf(ListPieces(lead, clauses)) == if clauses == [] then "" else lead + Commas(Texts(clauses))
    decreases |clauses|
  {
    if clauses == [] {
      NoPieces();
    } else {
      var first, more := clauses[0], clauses[1..];
      ListText(",\n    ", more);
      assert Texts(clauses) == [Flat(first)] + Texts(more);
      assert ListPieces(lead, clauses) == [Piece(lead, first)] + ListPieces(",\n    ", more);
      hide *;
      TextIs([Piece(lead, first)]);
      OneFlatPiece(lead, first);
      TextConcat([Piece(lead, first)], ListPieces(",\n    ", more));
      CommasFirst(Flat(first), Texts(more));
      Assoc(lead, Flat(first), if more == [] then "" else ",\n    " + Commas(Texts(more)));
    }
  }

  // ----- columns

  lemma ValueText(value: Option<Value>)
    ensures TextOf(ValuePieces(value)) == match value
      case None => ""
      case Some(Value(Default, x)) => " DEFAULT " + Flat(x)
      case Some(Value(Materialized, x)) => " MATERIALIZED " + Flat(x)
      case Some(Value(Alias, x)) => " ALIAS " + Flat(x)
  {
    NoPieces();
    hide Compose, Flat;
    match value {
      case None =>
      case Some(Value(Default, x)) => OneFlatPiece(" DEFAULT ", x);
      case Some(Value(Materialized, x)) => OneFlatPiece(" MATERIALIZED ", x);
      case Some(Value(Alias, x)) => OneFlatPiece(" ALIAS ", x);
    }
  }

  lemma CommentIs(lead: string, comment: Option<string>)
    ensures TextOf(CommentPieces(lead, comment)) == if comment.Some? then lead + StringLiteral(comment.value) else ""
  {
    NoPieces();
    hide Compose, Flat, StringLiteral, Quoted;
    if comment.Some? {
      CommentIsLiteral(comment.value);
      OneFlatPiece(lead, Quoted(comment.value));
    }
  }

  lemma CodecText(codec: Option<Clause>)
    ensures TextOf(CodecPieces(codec)) == if codec.Some? then " CODEC(" + Flat(codec.value) + ")" else ""
  {
    NoPieces();
    assert Flat([]) == "" && ")" + "" == ")";
    hide Compose, Flat;
    if codec.Some? {
      var a, b := [Piece(" CODEC(", codec.value)], [Piece(")", [])];
      assert CodecPieces(codec) == a + b;
      OneFlatPiece(" CODEC(", codec.value);
      OneFlatPiece(")", []);
      TextConcat(a, b);
    }
  }

  lemma ColumnText(lead: string, c: Column)
    ensures TextOf(ColumnPieces(lead + "`", c)) == lead + Definition(c)
  {
    var name, kind := [Piece(lead + "`", Plain(c.name))], [Piece("` ", c.chType)];
    var value, comment, codec := ValuePieces(c.value), CommentPieces(" COMMENT ", c.comment), CodecPieces(c.codec);
    assert ColumnPieces(lead + "`", c) == name + (kind + (value + (comment + codec))) by {
      hide ValuePieces, CommentPieces, CodecPieces, Plain;
    }
    hide *;
    PlainPieceText(lead + "`", c.name);
    TextIs([Piece("` ", c.chType)]);
    OneFlatPiece("` ", c.chType);
    ValueText(c.value);
    CommentIs(" COMMENT ", c.comment);
    CodecText(c.codec);
    TextConcat(name, kind + (value + (comment + codec)));
    TextConcat(kind, value + (comment + codec));
    TextConcat(value, comment + codec);
    TextConcat(comment, codec);
    DefinitionParts(lead, c, TextOf(value), TextOf(comment), TextOf(codec));
  }

  lemma TextIs(pieces: seq<Piece>)
    ensures TextOf(pieces) == Flat(Compose(pieces))
  {
  }

  lemma DefinitionParts(lead: string, c: Column, value: string, comment: string, codec: string)
    requires value == match c.value
      case None => ""
      case Some(Value(Default, x)) => " DEFAULT " + Flat(x)
      case Some(Value(Materialized, x)) => " MATERIALIZED " + Flat(x)
      case Some(Value(Alias, x)) => " ALIAS " + Flat(x)
    requires comment == if c.comment.Some? then " COMMENT " + StringLiteral(c.comment.value) else ""
    requires codec == if c.codec.Some? then " CODEC(" + Flat(c.codec.value) + ")" else ""
    ensures lead + "`" + c.name + ("` " + Flat(c.chType) + (value + (comment + codec))) == lead + Definition(c)
  {
    hide Flat, StringLiteral;
    var x := Flat(c.chType);
    assert Definition(c) == "`" + c.name + "` " + x + value + comment + codec;
    Parts(lead, c.name, x, value, comment, codec);
  }

  lemma Parts(lead: string, n: string, x: string, v: string, m: string, d: string)
    ensures lead + "`" + n + ("` " + x + (v + (m + d))) == lead + ("`" + n + "` " + x + v + m + d)
  {
  }

  lemma {:induction false} ColumnsText(lead: string, columns: seq<Column>)
    ensures TextOf(ColumnsPieces(lead + "`", columns))
         == if columns == [] then "" else lead + Commas(Definitions(columns))
    decreases |columns|
  {
    if columns == [] {
      NoPieces();
    } else {
      var first, more := columns[0], columns[1..];
      ColumnsText(",\n    ", more);
      assert ",\n    `" == ",\n    " + "`";
      assert Definitions(columns) == [Definition(first)] + Definitions(more);
      assert ColumnsPieces(lead + "`", columns)
          == ColumnPieces(lead + "`", first) + ColumnsPieces(",\n    `", more) by { hide ColumnPieces; }
      hide *;
      ColumnText(lead, first);
      TextConcat(ColumnPieces(lead + "`", first), ColumnsPieces(",\n    `", more));
      CommasFirst(Definition(first), Definitions(more));
      Assoc(lead, Definition(first), if more == [] then "" else ",\n    " + Commas(Definitions(more)));
    }
  }

  lemma BodyText(t: Table)
    ensures TextOf(BodyPieces(t)) == "`" + Broken(["("] + Body(t))
  {
    var columns, indexes := Definitions(t.columns), Texts(t.indexes);
    BrokenConcat(["("], Body(t));
    assert Broken(["("]) == "\n(" by { assert ["("][1..] == [] && "(" + "" == "("; }
    if t.columns == [] && t.indexes == [] {
      EmptyBody();
    } else {
      ListedIs("    ", columns + indexes);
      BodyLead(Commas(columns + indexes));
      if t.columns == [] {
        assert columns + indexes == indexes;
        ListText("`\n(\n    ", t.indexes);
        hide TextOf;
      } else {
        assert "`\n(\n    `" == "`\n(\n    " + "`";
        ColumnsText("`\n(\n    ", t.columns);
        ListText(",\n    ", t.indexes);
        hide TextOf, ColumnsPieces, ListPieces, Definitions, Texts, Broken, Listed;
        TextConcat(ColumnsPieces("`\n(\n    `", t.columns), ListPieces(",\n    ", t.indexes));
        if t.indexes == [] {
          assert columns + indexes == columns;
          assert "`\n(\n    " + Commas(columns) + "" == "`\n(\n    " + Commas(columns);
        } else {
          CommasConcat(columns, indexes);
          Assoc("`\n(\n    ", Commas(columns), ",\n    " + Commas(indexes));
        }
      }
    }
  }

  lemma BodyLead(items: string)
    ensures "`\n(\n    " + items == "`" + ("\n(" + ("\n" + ("    " + items)))
  {
  }

  lemma EmptyBody()
    ensures TextOf([Piece("`\n(\n", [])]) == "`" + ("\n(" + Broken([""]))
  {
    assert Flat([]) == "" && "`\n(\n" + "" == "`\n(\n";
    assert [""][1..] == [] && Broken([""]) == "\n" + ("" + "");
    hide Compose, Flat, Broken;
    OneFlatPiece("`\n(\n", []);
  }

  // ----- clauses

  lemma BrokenOne(line: string)
    ensures Broken([line]) == "\n" + line
  {
    assert [line][1..] == [] && line + "" == line;
  }

  lemma BrokenTwo(a: string, b: string)
    ensures Broken([a, b]) == "\n" + (a + ("\n" + b))
  {
    assert [a, b][1..] == [b];
    BrokenOne(b);
  }

  lemma NamesFirst(lead: string, names: seq<string>)
    requires names != []
    ensures NamesPieces(lead, names) == [Piece(lead, Plain(names[0]))] + NamesPieces("`, `", names[1..])
    ensures Key(names) == if |names| == 1 then "`" + names[0] + "`" else "`" + names[0] + "`, " + Key(names[1..])
  {
    hide Plain;
  }

  lemma OneName(lead: string, name: string)
    ensures lead + "`" + name + "" + "`" == lead + ("`" + name + "`")
  {
  }

  lemma MoreNames(lead: string, name: string, rest: string, key: string)
    requires rest + "`" == "`, " + key
    ensures lead + "`" + name + rest + "`" == lead + ("`" + name + "`, " + key)
  {
    assert lead + "`" + name + rest + "`" == lead + "`" + name + (rest + "`");
    assert lead + "`" + name + ("`, " + key) == lead + ("`" + name + "`, " + key);
  }

  lemma {:induction false} NamesText(lead: string, names: seq<string>)
    requires names != []
    ensures TextOf(NamesPieces(lead + "`", names)) + "`" == lead + Key(names)
    decreases |names|
  {
    hide *;
    var name, more := names[0], names[1..];
    NamesFirst(lead + "`", names);
    PlainPieceText(lead + "`", name);
    TextConcat([Piece(lead + "`", Plain(name))], NamesPieces("`, `", more));
    if more == [] {
      NoPieces();
      NamesEnd();
      OneName(lead, name);
    } else {
      NamesText("`, ", more);
      TwoTicks();
      MoreNames(lead, name, TextOf(NamesPieces("`, `", more)), Key(more));
    }
  }

  lemma TwoTicks()
    ensures "`, " + "`" == "`, `"
  {
  }

  lemma NamesEnd()
    ensures NamesPieces("`, `", []) == []
  {
  }

  lemma OrderText(order: Order)
    ensures TextOf(OrderPieces(order)) == Broken(SortLines(order))
  {
    match order {
      case Unsorted => UnsortedText();
      case Raw(x) => RawText(x);
      case Key(names) =>
        if names == [] {
          UnsortedText();
        } else {
          KeyText(names);
        }
    }
  }

  lemma UnsortedText()
    ensures TextOf([Piece("\nORDER BY tuple()", [])]) == Broken(["ORDER BY tuple()"])
  {
    BrokenOne("ORDER BY tuple()");
    assert Flat([]) == "" && "\nORDER BY tuple()" + "" == "\n" + "ORDER BY tuple()";
    hide Compose, Flat, Broken;
    OneFlatPiece("\nORDER BY tuple()", []);
  }

  lemma BracketText()
    ensures TextOf([Piece(")", [])]) == ")"
  {
    assert Flat([]) == "" && ")" + "" == ")";
    hide Compose, Flat;
    OneFlatPiece(")", []);
  }

  lemma RawParts(x: string)
    ensures "\nORDER BY (" + x + ")" == "\n" + ("ORDER BY (" + x + ")")
  {
    assert "\nORDER BY (" == "\n" + "ORDER BY (";
  }

  lemma RawPieces(x: Clause)
    ensures [Piece("\nORDER BY (", x), Piece(")", [])] == [Piece("\nORDER BY (", x)] + [Piece(")", [])]
  {
  }

  lemma RawText(x: Clause)
    ensures TextOf([Piece("\nORDER BY (", x), Piece(")", [])]) == Broken(["ORDER BY (" + Flat(x) + ")"])
  {
    hide *;
    RawPieces(x);
    RawParts(Flat(x));
    BrokenOne("ORDER BY (" + Flat(x) + ")");
    BracketText();
    TextIs([Piece("\nORDER BY (", x)]);
    OneFlatPiece("\nORDER BY (", x);
    TextConcat([Piece("\nORDER BY (", x)], [Piece(")", [])]);
  }

  lemma KeyLeads()
    ensures "\nPRIMARY KEY (`" == "\nPRIMARY KEY (" + "`" && "`)\nORDER BY (`" == "`" + ")\nORDER BY (" + "`"
  {
  }

  lemma CloseText()
    ensures TextOf([Piece("`)", [])]) == "`" + ")"
  {
    assert Flat([]) == "" && "`)" + "" == "`" + ")";
    hide Compose, Flat;
    OneFlatPiece("`)", []);
  }

  lemma KeyText(names: seq<string>)
    requires names != []
    ensures TextOf(OrderPieces(Order.Key(names)))
         == Broken(["PRIMARY KEY (" + Key(names) + ")", "ORDER BY (" + Key(names) + ")"])
  {
    var first, then_, last :=
      NamesPieces("\nPRIMARY KEY (`", names), NamesPieces("`)\nORDER BY (`", names), [Piece("`)", [])];
    assert OrderPieces(Order.Key(names)) == first + (then_ + last) by { hide NamesPieces; }
    hide *;
    KeyLeads();
    BrokenTwo("PRIMARY KEY (" + Key(names) + ")", "ORDER BY (" + Key(names) + ")");
    CloseText();
    NamesText("\nPRIMARY KEY (", names);
    NamesText("`" + ")\nORDER BY (", names);
    TextConcat(first, then_ + last);
    TextConcat(then_, last);
    var p, q, k := TextOf(first), TextOf(then_), Key(names);
    assert q + ("`" + ")") == q + "`" + ")";
    KeyParts(p, q, k);
  }

  lemma KeyParts(p: string, q: string, k: string)
    requires p + "`" == "\nPRIMARY KEY (" + k && q + "`" == "`" + ")\nORDER BY (" + k
    ensures p + (q + "`" + ")") == "\n" + ("PRIMARY KEY (" + k + ")" + ("\n" + ("ORDER BY (" + k + ")")))
  {
    assert p + (q + "`" + ")") == p + ("`" + (")\nORDER BY (" + k + ")"));
    assert p + ("`" + (")\nORDER BY (" + k + ")")) == p + "`" + (")\nORDER BY (" + k + ")");
    assert "\nPRIMARY KEY (" == "\n" + "PRIMARY KEY (" && ")\nORDER BY (" == ")" + ("\n" + "ORDER BY (");
  }

  lemma PartitionText(partition: Option<Clause>)
    ensures TextOf(OptionPieces("\nPARTITION BY ", partition))
         == Broken(if partition.Some? then ["PARTITION BY " + Flat(partition.value)] else [])
  {
    NoPieces();
    if partition.Some? {
      BrokenOne("PARTITION BY " + Flat(partition.value));
      assert "\nPARTITION BY " + Flat(partition.value) == "\n" + ("PARTITION BY " + Flat(partition.value));
      hide Compose, Flat, Broken;
      OneFlatPiece("\nPARTITION BY ", partition.value);
    }
  }

  lemma TtlText(ttl: seq<Clause>)
    ensures TextOf(ListPieces("\nTTL ", ttl)) == Broken(Listed("TTL ", Texts(ttl)))
  {
    hide TextOf, Commas;
    ListText("\nTTL ", ttl);
    if ttl != [] {
      ListedIs("TTL ", Texts(ttl));
      assert "\nTTL " + Commas(Texts(ttl)) == "\n" + ("TTL " + Commas(Texts(ttl)));
    }
  }

  lemma {:induction false} AssignedTexts(settings: seq<S.Setting>)
    ensures Texts(AssignedAll(settings)) == Assignments(settings)
  {
    if settings != [] {
      var s := settings[0];
      AssignedTexts(settings[1..]);
      assert AssignedAll(settings)[1..] == AssignedAll(settings[1..]);
      hide Plain, Flat;
      PlainText(s.name + (" = " + s.value));
      assert s.name + (" = " + s.value) == s.name + " = " + s.value;
    }
  }

  lemma SettingsText(t: Table)
    ensures TextOf(SettingsPieces(t))
         == Broken(["SETTINGS"] + Listed("    ", ["index_granularity = " + t.granularity] + Assignments(t.settings)))
  {
    var all := Settings(t);
    var items := ["index_granularity = " + t.granularity] + Assignments(t.settings);
    assert Assignments(all) == items by {
      assert all[1..] == t.settings;
      assert "index_granularity" + " = " == "index_granularity = ";
    }
    assert AssignedAll(all) != [];
    assert SettingsPieces(t) == ListPieces("\nSETTINGS\n    ", AssignedAll(all));
    hide *;
    AssignedTexts(all);
    ListText("\nSETTINGS\n    ", AssignedAll(all));
    BrokenOne("SETTINGS");
    ListedIs("    ", items);
    BrokenConcat(["SETTINGS"], Listed("    ", items));
    SettingsParts(Commas(items));
  }

  lemma SettingsParts(items: string)
    ensures "\nSETTINGS\n    " + items == "\n" + "SETTINGS" + ("\n" + ("    " + items))
  {
  }

  lemma LastText(comment: Option<string>)
    ensures TextOf(CommentPieces("\nCOMMENT ", comment))
         == Broken(if comment.Some? then ["COMMENT " + StringLiteral(comment.value)] else [])
  {
    CommentIs("\nCOMMENT ", comment);
    hide TextOf, StringLiteral, CommentPieces;
    if comment.Some? {
      BrokenOne("COMMENT " + StringLiteral(comment.value));
      assert "\nCOMMENT " + StringLiteral(comment.value) == "\n" + ("COMMENT " + StringLiteral(comment.value));
    }
  }

  lemma EngineLead()
    ensures "\n)\nENGINE = " + "Replicated" == "\n" + (")" + ("\n" + "ENGINE = Replicated"))
  {
  }

  lemma EngineParts(name: string, params: string)
    ensures "\n)\nENGINE = " + ("Replicated" + name) + params
        == "\n" + (")" + ("\n" + ("ENGINE = Replicated" + name + params)))
  {
    EngineLead();
    Assoc("\n)\nENGINE = ", "Replicated", name);
    var l := "ENGINE = Replicated";
    assert "\n" + (")" + ("\n" + l)) + name + params == "\n" + (")" + ("\n" + (l + name + params)));
  }

  lemma EngineLineIs(t: Table)
    ensures EngineLine(t) == "ENGINE = Replicated" + t.family + if t.params == [] then ""
        else "(" + (Flat(t.params) + ")")
  {
    hide Flat;
    assert "(" + Flat(t.params) + ")" == "(" + (Flat(t.params) + ")");
  }

  lemma EngineTextIs(t: Table)
    ensures TextOf(EnginePieces(t) + ParamsPieces(t.params)) == Broken([")", EngineLine(t)])
  {
    hide *;
    var params := if t.params == [] then "" else "(" + (Flat(t.params) + ")");
    BrokenTwo(")", EngineLine(t));
    EngineText(t);
    ParamsText(t.params);
    EngineLineIs(t);
    EngineParts(t.family, params);
    TextIs(EnginePieces(t));
    TextIs(ParamsPieces(t.params));
    TextConcat(EnginePieces(t), ParamsPieces(t.params));
  }

  // ----- the whole table

  lemma TargetIs(t: Table)
    ensures TargetPieces(t) == [Piece("`.`", Plain(t.name))] + BodyPieces(t)
  {
    hide BodyPieces, Plain;
  }

  lemma TargetParts(n: string, body: string)
    ensures "`.`" + n + ("`" + body) == "`.`" + (n + ("`" + body))
  {
  }

  lemma TargetText(t: Table)
    ensures TextOf(TargetPieces(t)) == "`.`" + (t.name + ("`" + Broken(["("] + Body(t))))
  {
    hide *;
    TargetIs(t);
    PlainPieceText("`.`", t.name);
    BodyText(t);
    TextConcat([Piece("`.`", Plain(t.name))], BodyPieces(t));
    TargetParts(t.name, Broken(["("] + Body(t)));
  }

  lemma FootPieces(t: Table)
    ensures EnginePieces(t) + AfterEngine(t)
         == EnginePieces(t) + ParamsPieces(t.params)
            + (OptionPieces("\nPARTITION BY ", t.partition)
               + (OrderPieces(t.order)
                  + (ListPieces("\nTTL ", t.ttl) + (SettingsPieces(t) + CommentPieces("\nCOMMENT ", t.comment)))))
  {
    hide EnginePieces, ParamsPieces, OptionPieces, OrderPieces, ListPieces, SettingsPieces, CommentPieces;
  }

  lemma FootLines(t: Table)
    ensures Foot(t)
         == [")", EngineLine(t)]
            + ((if t.partition.Some? then ["PARTITION BY " + Flat(t.partition.value)] else [])
               + (SortLines(t.order)
                  + (Listed("TTL ", Texts(t.ttl))
                     + (["SETTINGS"]
                        + Listed("    ", ["index_granularity = " + t.granularity] + Assignments(t.settings))
                        + if t.comment.Some? then ["COMMENT " + StringLiteral(t.comment.value)] else []))))
  {
    hide Flat, EngineLine, StringLiteral, Assignments, Listed, Texts, SortLines;
  }

  lemma FootText(t: Table)
    ensures TextOf(EnginePieces(t) + AfterEngine(t)) == Broken(Foot(t))
  {
    hide *;
    var engine, partition, order, ttl, settings, comment := EnginePieces(t) + ParamsPieces(t.params),
      OptionPieces("\nPARTITION BY ", t.partition), OrderPieces(t.order), ListPieces("\nTTL ", t.ttl),
      SettingsPieces(t), CommentPieces("\nCOMMENT ", t.comment);
    var p := if t.partition.Some? then ["PARTITION BY " + Flat(t.partition.value)] else [];
    var o, l := SortLines(t.order), Listed("TTL ", Texts(t.ttl));
    var s :=
      ["SETTINGS"] + Listed("    ", ["index_granularity = " + t.granularity] + Assignments(t.settings));
    var c := if t.comment.Some? then ["COMMENT " + StringLiteral(t.comment.value)] else [];
    var e := [")", EngineLine(t)];
    FootPieces(t);
    FootLines(t);
    EngineTextIs(t);
    PartitionText(t.partition);
    OrderText(t.order);
    TtlText(t.ttl);
    SettingsText(t);
    LastText(t.comment);
    OneBehind(settings, s, comment, c);
    OneBehind(ttl, l, settings + comment, s + c);
    OneBehind(order, o, ttl + (settings + comment), l + (s + c));
    OneBehind(partition, p, order + (ttl + (settings + comment)), o + (l + (s + c)));
    OneBehind(engine, e, partition + (order + (ttl + (settings + comment))), p + (o + (l + (s + c))));
  }

  lemma OneBehind(a: seq<Piece>, x: seq<string>, b: seq<Piece>, y: seq<string>)
    requires TextOf(a) == Broken(x) && TextOf(b) == Broken(y)
    ensures TextOf(a + b) == Broken(x + y)
  {
    hide TextOf, Broken;
    TextConcat(a, b);
    BrokenConcat(x, y);
  }

  function FirstLine(t: Table): string {
    "CREATE TABLE IF NOT EXISTS `" + t.database + "`.`" + t.name + "`"
  }

  lemma LinesAre(t: Table)
    ensures TableLines(t) == [FirstLine(t)] + (["("] + Body(t) + Foot(t))
  {
    hide Body, Foot;
    var l := FirstLine(t);
    assert [l, "("] == [l] + ["("];
  }

  lemma PiecesAre(t: Table)
    ensures AllPieces(t) == [Piece("CREATE TABLE IF NOT EXISTS `", Plain(t.database))]
        + (TargetPieces(t) + (EnginePieces(t) + AfterEngine(t)))
  {
    hide TargetPieces, EnginePieces, AfterEngine, Plain;
  }

  // A rendered table, line by line.
  lemma TableIsWritten(t: Table)
    requires Accepted(t)
    ensures Flat(CreateTable(t).value) == JoinLines(TableLines(t))
  {
    hide *;
    var head := [Piece("CREATE TABLE IF NOT EXISTS `", Plain(t.database))];
    var body := ["("] + Body(t);
    PiecesAre(t);
    LinesAre(t);
    CreateTableText(t);
    PlainPieceText("CREATE TABLE IF NOT EXISTS `", t.database);
    TargetText(t);
    FootText(t);
    TextConcat(head, TargetPieces(t) + (EnginePieces(t) + AfterEngine(t)));
    TextConcat(TargetPieces(t), EnginePieces(t) + AfterEngine(t));
    BrokenConcat(body, Foot(t));
    JoinIsBroken(FirstLine(t), body + Foot(t));
    FirstLineIs(t);
    HeadParts("CREATE TABLE IF NOT EXISTS `", t.database, t.name, Broken(body), Broken(Foot(t)));
  }

  lemma FirstLineIs(t: Table)
    ensures FirstLine(t) == "CREATE TABLE IF NOT EXISTS `" + t.database + "`.`" + t.name + "`"
  {
  }

  lemma HeadParts(lead: string, d: string, n: string, body: string, foot: string)
    ensures lead + d + ("`.`" + (n + ("`" + body)) + foot) == lead + d + "`.`" + n + "`" + (body + foot)
  {
  }

  // ----- where no part of a table holds a line break

  ghost predicate OneLineColumn(c: Column) {
    && !HasBreak(Flat(c.chType))
    && (c.value.Some? ==> !HasBreak(Flat(c.value.value.text)))
    && (c.comment.Some? ==> !HasBreak(StringLiteral(c.comment.value)))
    && (c.codec.Some? ==> !HasBreak(Flat(c.codec.value)))
  }

  ghost predicate OneLineFoot(t: Table) {
    && !HasBreak(t.family) && !HasBreak(Flat(t.params))
    && (t.partition.Some? ==> !HasBreak(Flat(t.partition.value)))
    && (t.order.Raw? ==> !HasBreak(Flat(t.order.text)))
    && (forall i :: 0 <= i < |t.ttl| ==> !HasBreak(Flat(t.ttl[i])))
    && !HasBreak(t.granularity)
    && (forall i :: 0 <= i < |t.settings| ==> !HasBreak(t.settings[i].name) && !HasBreak(t.settings[i].value))
    && (t.comment.Some? ==> !HasBreak(StringLiteral(t.comment.value)))
  }

  ghost predicate OneLiners(t: Table) {
    && (forall i :: 0 <= i < |t.columns| ==> OneLineColumn(t.columns[i]))
    && (forall i :: 0 <= i < |t.indexes| ==> !HasBreak(Flat(t.indexes[i])))
    && OneLineFoot(t)
  }

  ghost predicate Unbroken(lines: seq<string>) {
    forall i :: 0 <= i < |lines| ==> !HasBreak(lines[i])
  }

  lemma UnbrokenConcat(a: seq<string>, b: seq<string>)
    requires Unbroken(a) && Unbroken(b)
    ensures Unbroken(a + b)
  {
    hide HasBreak;
  }

  lemma NameHasNoBreak(name: string)
    requires QuoteIdent(name).Some?
    ensures !HasBreak(name)
  {
    forall i | 0 <= i < |name| ensures !IsBreak(name[i]) {
      assert !IsUnsafe(name[i]);
    }
  }

  lemma ColumnWords()
    ensures !HasBreak("`") && !HasBreak("` ") && !HasBreak(" DEFAULT ") && !HasBreak(" MATERIALIZED ")
    ensures !HasBreak(" ALIAS ") && !HasBreak(" COMMENT ") && !HasBreak(" CODEC(") && !HasBreak(")") && !HasBreak("")
  {
  }

  lemma HeadWords()
    ensures !HasBreak("CREATE TABLE IF NOT EXISTS `") && !HasBreak("`.`") && !HasBreak("(") && !HasBreak("`, ")
  {
  }

  lemma EngineWords()
    ensures !HasBreak("ENGINE = Replicated") && !HasBreak("PARTITION BY ") && !HasBreak("ORDER BY (")
    ensures !HasBreak("ORDER BY tuple()") && !HasBreak("PRIMARY KEY (")
  {
  }

  lemma FootWords()
    ensures !HasBreak("SETTINGS") && !HasBreak("index_granularity = ") && !HasBreak(" = ") && !HasBreak("COMMENT ")
    ensures !HasBreak(",") && !HasBreak("TTL ") && !HasBreak("    ")
  {
  }

  lemma WordsHaveNoBreak()
    ensures !HasBreak("`") && !HasBreak("` ") && !HasBreak(" DEFAULT ") && !HasBreak(" MATERIALIZED ")
    ensures !HasBreak(" ALIAS ") && !HasBreak(" COMMENT ") && !HasBreak(" CODEC(") && !HasBreak(")") && !HasBreak("")
    ensures !HasBreak("CREATE TABLE IF NOT EXISTS `") && !HasBreak("`.`") && !HasBreak("(") && !HasBreak("`, ")
    ensures !HasBreak("ENGINE = Replicated") && !HasBreak("PARTITION BY ") && !HasBreak("ORDER BY (")
    ensures !HasBreak("ORDER BY tuple()") && !HasBreak("PRIMARY KEY (") && !HasBreak("TTL ") && !HasBreak("    ")
    ensures !HasBreak("SETTINGS") && !HasBreak("index_granularity = ") && !HasBreak(" = ") && !HasBreak("COMMENT ")
    ensures !HasBreak(",")
  {
    hide HasBreak;
    ColumnWords();
    HeadWords();
    EngineWords();
    FootWords();
  }

  lemma DefinitionHasNoBreak(c: Column)
    requires QuoteIdent(c.name).Some? && OneLineColumn(c)
    ensures !HasBreak(Definition(c))
  {
    NameHasNoBreak(c.name);
    WordsHaveNoBreak();
    hide HasBreak, QuoteIdent, Flat, StringLiteral;
    forall a: string, b: string | !HasBreak(a) && !HasBreak(b) ensures !HasBreak(a + b) {
      NoBreakJoin(a, b);
    }
  }

  lemma {:induction false} ListedUnbroken(lead: string, items: seq<string>)
    requires !HasBreak(lead) && Unbroken(items)
    ensures Unbroken(Listed(lead, items))
    decreases |items|
  {
    WordsHaveNoBreak();
    hide HasBreak;
    if items != [] {
      var tail := if |items| > 1 then "," else "";
      NoBreakJoin(lead, items[0]);
      NoBreakJoin(lead + items[0], tail);
      ListedUnbroken("    ", items[1..]);
    }
  }

  lemma {:induction false} KeyHasNoBreak(names: seq<string>)
    requires forall n <- names :: QuoteIdent(n).Some?
    ensures !HasBreak(Key(names))
    decreases |names|
  {
    WordsHaveNoBreak();
    hide HasBreak, QuoteIdent;
    if names != [] {
      NameHasNoBreak(names[0]);
      KeyHasNoBreak(names[1..]);
      NoBreakJoin("`", names[0]);
      NoBreakJoin("`" + names[0], "`");
      NoBreakJoin("`" + names[0], "`, ");
      NoBreakJoin("`" + names[0] + "`, ", Key(names[1..]));
    }
  }

  lemma SortUnbroken(order: Order)
    requires order.Raw? ==> !HasBreak(Flat(order.text))
    requires order.Key? ==> forall n <- order.names :: QuoteIdent(n).Some?
    ensures Unbroken(SortLines(order))
  {
    WordsHaveNoBreak();
    if order.Key? {
      KeyHasNoBreak(order.names);
    }
    hide HasBreak, QuoteIdent, Flat, Key;
    match order {
      case Unsorted =>
      case Raw(x) =>
        NoBreakJoin("ORDER BY (", Flat(x));
        NoBreakJoin("ORDER BY (" + Flat(x), ")");
      case Key(names) =>
        NoBreakJoin("ORDER BY (", Key(names));
        NoBreakJoin("ORDER BY (" + Key(names), ")");
        NoBreakJoin("PRIMARY KEY (", Key(names));
        NoBreakJoin("PRIMARY KEY (" + Key(names), ")");
    }
  }

  lemma BodyUnbroken(t: Table)
    requires OneLiners(t) && forall c <- t.columns :: QuoteIdent(c.name).Some?
    ensures Unbroken(Body(t))
  {
    WordsHaveNoBreak();
    var columns, indexes := Definitions(t.columns), Texts(t.indexes);
    forall i | 0 <= i < |columns| ensures !HasBreak(columns[i]) {
      assert t.columns[i] in t.columns;
      DefinitionHasNoBreak(t.columns[i]);
    }
    hide HasBreak, QuoteIdent, Flat, Definition, OneLineColumn, OneLineFoot;
    UnbrokenConcat(columns, indexes);
    ListedUnbroken("    ", columns + indexes);
  }

  lemma EngineUnbroken(t: Table)
    requires !HasBreak(t.family) && !HasBreak(Flat(t.params))
    ensures !HasBreak(EngineLine(t))
  {
    WordsHaveNoBreak();
    hide HasBreak, Flat;
    forall a: string, b: string | !HasBreak(a) && !HasBreak(b) ensures !HasBreak(a + b) {
      NoBreakJoin(a, b);
    }
  }

  lemma SettingsUnbroken(t: Table)
    requires OneLineFoot(t)
    ensures Unbroken(["index_granularity = " + t.granularity] + Assignments(t.settings))
  {
    WordsHaveNoBreak();
    hide HasBreak, Flat, StringLiteral;
    NoBreakJoin("index_granularity = ", t.granularity);
    forall i | 0 <= i < |t.settings| ensures !HasBreak(Assignments(t.settings)[i]) {
      NoBreakJoin(t.settings[i].name, " = ");
      NoBreakJoin(t.settings[i].name + " = ", t.settings[i].value);
    }
  }

  lemma FootUnbroken(t: Table)
    requires OneLineFoot(t) && (t.order.Key? ==> forall n <- t.order.names :: QuoteIdent(n).Some?)
    ensures Unbroken(Foot(t))
  {
    WordsHaveNoBreak();
    EngineUnbroken(t);
    SortUnbroken(t.order);
    SettingsUnbroken(t);
    hide HasBreak, Flat, StringLiteral, QuoteIdent, EngineLine, Assignments, SortLines;
    ListedUnbroken("TTL ", Texts(t.ttl));
    ListedUnbroken("    ", ["index_granularity = " + t.granularity] + Assignments(t.settings));
    if t.partition.Some? {
      NoBreakJoin("PARTITION BY ", Flat(t.partition.value));
    }
    if t.comment.Some? {
      NoBreakJoin("COMMENT ", StringLiteral(t.comment.value));
    }
    hide Listed, Texts;
  }

  lemma FirstUnbroken(t: Table)
    requires QuoteIdent(t.database).Some? && QuoteIdent(t.name).Some?
    ensures !HasBreak(FirstLine(t))
  {
    WordsHaveNoBreak();
    NameHasNoBreak(t.database);
    NameHasNoBreak(t.name);
    hide HasBreak, QuoteIdent;
    NoBreakJoin("CREATE TABLE IF NOT EXISTS `", t.database);
    NoBreakJoin("CREATE TABLE IF NOT EXISTS `" + t.database, "`.`");
    NoBreakJoin("CREATE TABLE IF NOT EXISTS `" + t.database + "`.`", t.name);
    NoBreakJoin("CREATE TABLE IF NOT EXISTS `" + t.database + "`.`" + t.name, "`");
  }

  lemma LinesUnbroken(t: Table)
    requires Accepted(t) && OneLiners(t)
    ensures Unbroken(TableLines(t))
  {
    WordsHaveNoBreak();
    FirstUnbroken(t);
    BodyUnbroken(t);
    FootUnbroken(t);
    LinesAre(t);
    hide HasBreak, Body, Foot, FirstLine, Accepted, OneLiners;
    UnbrokenConcat(["("] + Body(t), Foot(t));
  }

  lemma SplitOne(a: string, t: string)
    requires !HasBreak(a)
    ensures SplitLines(a + ("\n" + t)) == [a] + SplitLines(t)
  {
    var x := "\n" + t;
    assert BreakLen(x) == 1 && x[1..] == t;
    assert SplitLines(x) == [""] + SplitLines(t);
    hide SplitLines, HasBreak;
    if a == "" {
      assert a + x == x;
    } else {
      SplitPrefix(a, x);
      assert a + "" == a;
      assert ([""] + SplitLines(t))[1..] == SplitLines(t);
    }
  }

  lemma SplitLast(a: string)
    requires a != "" && !HasBreak(a)
    ensures SplitLines(a) == [a]
  {
    assert SplitLines("") == [] && a + "" == a;
    hide SplitLines, HasBreak;
    SplitPrefix(a, "");
  }

  lemma {:induction false} SplitJoin(lines: seq<string>)
    requires lines != [] && Unbroken(lines) && lines[|lines| - 1] != ""
    ensures SplitLines(JoinLines(lines)) == lines
  {
    hide SplitLines, HasBreak;
    var a, more := lines[0], lines[1..];
    if more == [] {
      SplitLast(a);
    } else {
      SplitJoin(more);
      SplitOne(a, JoinLines(more));
      assert a + "\n" + JoinLines(more) == a + ("\n" + JoinLines(more));
    }
  }

  lemma {:induction false} ListedEnds(lead: string, items: seq<string>)
    requires items != [] && lead != ""
    ensures Listed(lead, items) != [] && Listed(lead, items)[|items| - 1] != ""
    decreases |items|
  {
    if |items| > 1 {
      ListedEnds("    ", items[1..]);
    }
  }

  lemma LastIsNotEmpty(t: Table)
    ensures TableLines(t) != [] && TableLines(t)[|TableLines(t)| - 1] != ""
  {
    var items := ["index_granularity = " + t.granularity] + Assignments(t.settings);
    ListedEnds("    ", items);
    hide Body, EngineLine, SortLines, Texts, Assignments, StringLiteral, Flat, Listed;
  }

  // The lines of the statement, as `str.splitlines` cuts it, are the table's.
  lemma LinesReadBack(t: Table)
    requires Accepted(t) && OneLiners(t)
    ensures SplitLines(Flat(CreateTable(t).value)) == TableLines(t)
  {
    hide *;
    TableIsWritten(t);
    LinesUnbroken(t);
    LastIsNotEmpty(t);
    SplitJoin(TableLines(t));
  }

  // ----- which line stands where

  // The lines of the statement, and where its clauses begin.
  function Statement(t: Table): seq<string>
    requires Accepted(t)
  {
    SplitLines(Flat(CreateTable(t).value))
  }

  function BodyEnd(t: Table): nat {
    2 + if t.columns == [] && t.indexes == [] then 1 else |t.columns| + |t.indexes|
  }

  function OrderAt(t: Table): nat {
    BodyEnd(t) + 2 + if t.partition.Some? then 1 else 0
  }

  function TtlAt(t: Table): nat {
    OrderAt(t) + if t.order.Key? && t.order.names != [] then 2 else 1
  }

  function SettingsAt(t: Table): nat {
    TtlAt(t) + |t.ttl|
  }

  function Comma(more: bool): string { if more then "," else "" }

  lemma SectionLengths(t: Table)
    ensures |Body(t)| == BodyEnd(t) - 2 && |SortLines(t.order)| == TtlAt(t) - OrderAt(t)
    ensures |Foot(t)| == SettingsAt(t) - BodyEnd(t) + 2 + |t.settings| + if t.comment.Some? then 1 else 0
    ensures TableLines(t) == [FirstLine(t), "("] + Body(t) + Foot(t)
  {
    hide EngineLine, Flat, StringLiteral, Key, Definition;
    assert |Texts(t.ttl)| == |t.ttl|;
  }

  lemma StatementIs(t: Table)
    requires Accepted(t) && OneLiners(t)
    ensures Statement(t) == [FirstLine(t), "("] + Body(t) + Foot(t) && |Body(t)| == BodyEnd(t) - 2
    ensures BodyEnd(t) == 2 + if t.columns == [] && t.indexes == [] then 1 else |t.columns| + |t.indexes|
  {
    assert Statement(t) == SplitLines(Flat(CreateTable(t).value)) by {
      hide SplitLines, Flat, CreateTable, Accepted;
    }
    assert BodyEnd(t) == 2 + if t.columns == [] && t.indexes == [] then 1 else |t.columns| + |t.indexes|;
    hide *;
    LinesReadBack(t);
    SectionLengths(t);
  }

  lemma BodyAt(t: Table, k: nat)
    requires Accepted(t) && OneLiners(t) && k < |Body(t)|
    ensures |Statement(t)| > 2 + k && Statement(t)[2 + k] == Body(t)[k]
  {
    hide *;
    StatementIs(t);
    var l := [FirstLine(t), "("];
    assert |l| == 2 && (l + Body(t) + Foot(t))[2 + k] == Body(t)[k];
  }

  lemma FootAt(t: Table, k: nat)
    requires Accepted(t) && OneLiners(t) && k < |Foot(t)|
    ensures |Statement(t)| == BodyEnd(t) + |Foot(t)| && Statement(t)[BodyEnd(t) + k] == Foot(t)[k]
  {
    hide *;
    StatementIs(t);
    var l := [FirstLine(t), "("];
    assert |l| == 2 && (l + Body(t) + Foot(t))[2 + |Body(t)| + k] == Foot(t)[k];
  }

  lemma FootStarts(t: Table)
    ensures |Foot(t)| > 1 && Foot(t)[0] == ")" && Foot(t)[1] == EngineLine(t)
  {
    hide EngineLine, Texts, Listed, SortLines, Assignments, StringLiteral, Flat;
  }

  lemma EmptyBodyIs(t: Table)
    requires t.columns == [] && t.indexes == []
    ensures Body(t) == [""]
  {
  }

  // The head, the end of the body, and the engine.
  lemma HeadStands(t: Table)
    requires Accepted(t) && OneLiners(t)
    ensures |Statement(t)| > BodyEnd(t) + 1
    ensures Statement(t)[0] == "CREATE TABLE IF NOT EXISTS `" + t.database + "`.`" + t.name + "`"
    ensures Statement(t)[1] == "(" && Statement(t)[BodyEnd(t)] == ")"
    ensures Statement(t)[BodyEnd(t) + 1] == "ENGINE = " + EngineClause(Spec(t.family, Flat(t.params))).value
    ensures t.columns == [] && t.indexes == [] ==> Statement(t)[2] == ""
  {
    hide *;
    StatementIs(t);
    FirstLineIs(t);
    EngineStands(t);
    FootStarts(t);
    FootAt(t, 0);
    FootAt(t, 1);
    if t.columns == [] && t.indexes == [] {
      EmptyBodyIs(t);
    }
  }

  lemma EngineStands(t: Table)
    requires Accepted(t)
    ensures EngineClause(Spec(t.family, Flat(t.params))).Some?
    ensures EngineLine(t) == "ENGINE = " + EngineClause(Spec(t.family, Flat(t.params))).value
  {
    EngineIsClause(t);
    EngineTextIs(t);
    BrokenTwo(")", EngineLine(t));
    var x := EngineClause(Spec(t.family, Flat(t.params))).value;
    TextIs(EnginePieces(t) + ParamsPieces(t.params));
    hide TextOf, Flat, Compose, EnginePieces, ParamsPieces, EngineLine, Broken, EngineClause;
    EngineCut(EngineLine(t), x);
  }

  lemma EngineCut(a: string, x: string)
    requires "\n" + (")" + ("\n" + a)) == "\n)\nENGINE = " + x
    ensures a == "ENGINE = " + x
  {
    assert "\n)\nENGINE = " == "\n)\n" + "ENGINE = " && "\n" + (")" + ("\n" + a)) == "\n)\n" + a;
    assert "\n)\nENGINE = " + x == "\n)\n" + ("ENGINE = " + x);
    assert ("\n)\n" + a)[3..] == a;
  }

  lemma ItemAt(t: Table, i: nat)
    requires i < |t.columns| + |t.indexes|
    ensures |Body(t)| == |t.columns| + |t.indexes|
    ensures Body(t)[i]
         == "    " + (if i < |t.columns| then Definition(t.columns[i]) else Flat(t.indexes[i - |t.columns|]))
            + Comma(i + 1 < |t.columns| + |t.indexes|)
  {
    var items := Definitions(t.columns) + Texts(t.indexes);
    ListedAt("    ", items, i);
    hide Listed, Definition, Flat;
    assert Body(t) == Listed("    ", items);
  }

  // Each column on its line.
  lemma ColumnStands(t: Table, i: nat)
    requires Accepted(t) && OneLiners(t) && i < |t.columns|
    ensures |Statement(t)| > 2 + i
    ensures var c := t.columns[i];
            Statement(t)[2 + i]
              == "    " + ("`" + c.name + "` " + Flat(c.chType)
                           + (match c.value
                              case None => ""
                              case Some(Value(Default, x)) => " DEFAULT " + Flat(x)
                              case Some(Value(Materialized, x)) => " MATERIALIZED " + Flat(x)
                              case Some(Value(Alias, x)) => " ALIAS " + Flat(x))
                           + (if c.comment.Some? then " COMMENT " + StringLiteral(c.comment.value) else "")
                           + (if c.codec.Some? then " CODEC(" + Flat(c.codec.value) + ")" else ""))
                 + Comma(i + 1 < |t.columns| + |t.indexes|)
  {
    hide Statement, Accepted, OneLiners, Body, Flat, StringLiteral, Comma;
    ItemAt(t, i);
    BodyAt(t, i);
  }

  // Each index on its line.
  lemma IndexStands(t: Table, i: nat)
    requires Accepted(t) && OneLiners(t) && i < |t.indexes|
    ensures |Statement(t)| > 2 + |t.columns| + i
    ensures Statement(t)[2 + |t.columns| + i] == "    " + Flat(t.indexes[i]) + Comma(i + 1 < |t.indexes|)
  {
    hide *;
    ItemAt(t, |t.columns| + i);
    BodyAt(t, |t.columns| + i);
  }

  lemma SortStands(t: Table)
    ensures |Foot(t)| > OrderAt(t) - BodyEnd(t)
    ensures t.partition.Some? ==> Foot(t)[2] == "PARTITION BY " + Flat(t.partition.value)
    ensures forall i :: 0 <= i < |SortLines(t.order)| ==>
              OrderAt(t) - BodyEnd(t) + i < |Foot(t)|
              && Foot(t)[OrderAt(t) - BodyEnd(t) + i] == SortLines(t.order)[i]
  {
    SectionLengths(t);
    hide EngineLine, Texts, Listed, SortLines, Assignments, StringLiteral, Flat, Body, TableLines, FirstLine;
  }

  lemma SortInFoot(t: Table, i: nat)
    requires i < |SortLines(t.order)|
    ensures var k := OrderAt(t) - BodyEnd(t) + i; 0 <= k < |Foot(t)| && Foot(t)[k] == SortLines(t.order)[i]
    ensures t.partition.Some? ==>
              |Foot(t)| > 2 && Foot(t)[2] == "PARTITION BY " + Flat(t.partition.value)
                && OrderAt(t) - 1 == BodyEnd(t) + 2
  {
    SortStands(t);
    SectionLengths(t);
    hide Foot, SortLines, BodyEnd, TableLines, Body;
  }

  lemma SortAt(t: Table, i: nat)
    requires Accepted(t) && OneLiners(t) && i < |SortLines(t.order)|
    ensures |Statement(t)| > OrderAt(t) + i && Statement(t)[OrderAt(t) + i] == SortLines(t.order)[i]
    ensures t.partition.Some? ==>
              0 < OrderAt(t) <= |Statement(t)|
              && Statement(t)[OrderAt(t) - 1] == "PARTITION BY " + Flat(t.partition.value)
  {
    hide *;
    SortInFoot(t, i);
    FootAt(t, OrderAt(t) - BodyEnd(t) + i);
    if t.partition.Some? {
      FootAt(t, 2);
    }
  }

  lemma SortEnds(t: Table)
    ensures |SortLines(t.order)| == TtlAt(t) - OrderAt(t) > 0
  {
    SectionLengths(t);
    hide Foot, TableLines, Body, SortLines;
  }

  // The partition, and the key the table is sorted by.
  lemma OrderStands(t: Table)
    requires Accepted(t) && OneLiners(t)
    ensures |Statement(t)| >= TtlAt(t) > OrderAt(t)
    ensures t.partition.Some? ==> Statement(t)[OrderAt(t) - 1] == "PARTITION BY " + Flat(t.partition.value)
    ensures match t.order
            case Raw(x) => Statement(t)[OrderAt(t)] == "ORDER BY (" + Flat(x) + ")"
            case Unsorted => Statement(t)[OrderAt(t)] == "ORDER BY tuple()"
            case Key(names) =>
              if names == [] then Statement(t)[OrderAt(t)] == "ORDER BY tuple()"
              else
                && TtlAt(t) == OrderAt(t) + 2
                && Statement(t)[OrderAt(t)] == "PRIMARY KEY (" + Key(names) + ")"
                && Statement(t)[OrderAt(t) + 1] == "ORDER BY (" + Key(names) + ")"
  {
    SortEnds(t);
    hide Statement, Accepted, OneLiners, Flat, Key, TtlAt, OrderAt;
    forall i: nat | i < |SortLines(t.order)|
      ensures |Statement(t)| > OrderAt(t) + i && Statement(t)[OrderAt(t) + i] == SortLines(t.order)[i]
    {
      SortAt(t, i);
    }
    SortAt(t, 0);
    assert Statement(t)[OrderAt(t)] == SortLines(t.order)[0];
    SortAt(t, |SortLines(t.order)| - 1);
  }

  // A key lists its names in quotes, in order.
  lemma {:induction false} KeyIs(a: seq<string>, b: seq<string>)
    requires a != [] && b != []
    ensures Key([a[0]]) == "`" + a[0] + "`" && Key(a + b) == Key(a) + ", " + Key(b)
    decreases |a|
  {
    assert (a + b)[0] == a[0] && (a + b)[1..] == a[1..] + b;
    var tick := "`" + a[0];
    assert tick + "`, " == tick + "`" + ", ";
    if |a| == 1 {
      assert a[1..] + b == b;
    } else {
      KeyIs(a[1..], b);
      assert tick + "`, " + (Key(a[1..]) + ", " + Key(b)) == tick + "`, " + Key(a[1..]) + ", " + Key(b);
    }
  }

  lemma LastSections(t: Table)
    ensures var p := TtlAt(t) - BodyEnd(t); var s := SettingsAt(t) - BodyEnd(t);
            && |Foot(t)| == s + 2 + |t.settings| + (if t.comment.Some? then 1 else 0)
            && (forall i :: 0 <= i < |t.ttl| ==> Foot(t)[p + i] == Listed("TTL ", Texts(t.ttl))[i])
            && Foot(t)[s] == "SETTINGS"
            && (forall i :: 0 <= i <= |t.settings| ==>
                  Foot(t)[s + 1 + i]
                  == Listed("    ", ["index_granularity = " + t.granularity] + Assignments(t.settings))[i])
            && (t.comment.Some? ==> Foot(t)[|Foot(t)| - 1] == "COMMENT " + StringLiteral(t.comment.value))
  {
    SectionLengths(t);
    hide EngineLine, Texts, Listed, SortLines, Assignments, StringLiteral, Flat, Body, TableLines, FirstLine;
  }

  lemma LastLengths(t: Table)
    ensures BodyEnd(t) < TtlAt(t) <= SettingsAt(t) == TtlAt(t) + |t.ttl| && |Texts(t.ttl)| == |t.ttl|
    ensures |Foot(t)| == SettingsAt(t) - BodyEnd(t) + 2 + |t.settings| + if t.comment.Some? then 1 else 0
  {
    LastSections(t);
    hide Foot, Listed, Flat;
  }

  lemma TtlInFoot(t: Table, i: nat)
    requires i < |t.ttl|
    ensures var k := TtlAt(t) - BodyEnd(t) + i;
            0 <= k < |Foot(t)|
            && Foot(t)[k] == (if i == 0 then "TTL " else "    ") + Flat(t.ttl[i]) + Comma(i + 1 < |t.ttl|)
  {
    LastSections(t);
    ListedAt("TTL ", Texts(t.ttl), i);
    LastLengths(t);
    hide Foot, Listed, SettingsAt, TtlAt, BodyEnd, Flat;
  }

  // The TTL of each column, on its line.
  lemma TtlStands(t: Table, i: nat)
    requires Accepted(t) && OneLiners(t) && i < |t.ttl|
    ensures |Statement(t)| > TtlAt(t) + i
    ensures Statement(t)[TtlAt(t) + i]
         == (if i == 0 then "TTL " else "    ") + Flat(t.ttl[i]) + Comma(i + 1 < |t.ttl|)
  {
    hide *;
    TtlInFoot(t, i);
    FootAt(t, TtlAt(t) - BodyEnd(t) + i);
  }

  lemma AssignmentAt(t: Table, i: nat)
    requires i <= |t.settings|
    ensures var items := ["index_granularity = " + t.granularity] + Assignments(t.settings);
            Listed("    ", items)[i]
              == "    " + items[i] + Comma(i < |t.settings|)
  {
    var items := ["index_granularity = " + t.granularity] + Assignments(t.settings);
    ListedAt("    ", items, i);
    hide Listed, Assignments;
  }

  lemma SettingLine(t: Table, i: nat)
    requires Accepted(t) && OneLiners(t) && i <= |t.settings|
    ensures |Statement(t)| == SettingsAt(t) + 2 + |t.settings| + if t.comment.Some? then 1 else 0
    ensures Statement(t)[SettingsAt(t) + 1 + i]
         == "    " + (["index_granularity = " + t.granularity] + Assignments(t.settings))[i] + Comma(i < |t.settings|)
  {
    LastSections(t);
    hide *;
    LastLengths(t);
    AssignmentAt(t, i);
    FootAt(t, SettingsAt(t) - BodyEnd(t) + 1 + i);
  }

  // The settings on theirs.
  lemma SettingsStand(t: Table, i: nat)
    requires Accepted(t) && OneLiners(t) && i < |t.settings|
    ensures |Statement(t)| > SettingsAt(t) + 2 + i
    ensures Statement(t)[SettingsAt(t) + 2 + i]
         == "    " + (t.settings[i].name + " = " + t.settings[i].value) + Comma(i + 1 < |t.settings|)
  {
    hide *;
    SettingLine(t, i + 1);
  }

  // The index granularity first, and the comment on the last line of all.
  lemma LastLinesStand(t: Table)
    requires Accepted(t) && OneLiners(t)
    ensures |Statement(t)| == SettingsAt(t) + 2 + |t.settings| + if t.comment.Some? then 1 else 0
    ensures Statement(t)[SettingsAt(t)] == "SETTINGS"
    ensures Statement(t)[SettingsAt(t) + 1] == "    index_granularity = " + t.granularity + Comma(0 < |t.settings|)
    ensures t.comment.Some? ==> Statement(t)[|Statement(t)| - 1] == "COMMENT " + StringLiteral(t.comment.value)
  {
    LastSections(t);
    hide *;
    LastLengths(t);
    SettingLine(t, 0);
    GranularityLine(t.granularity);
    FootAt(t, SettingsAt(t) - BodyEnd(t));
    FootAt(t, |Foot(t)| - 1);
  }

  lemma GranularityLine(n: string)
    ensures "    " + ("index_granularity = " + n) == "    index_granularity = " + n
  {
  }
}

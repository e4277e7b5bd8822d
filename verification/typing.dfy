/** The type rules of the schema generator, against a reading of them on the rows themselves. */
module Typing {
  import opened Profile
  import opened Order
  import opened Wrappers

  datatype Result<T> = Ok(value: T) | Err(error: Error)

  datatype Primitive = TBoolean | TInteger | TFloat | TString | TUuid | TIp | TDatetime | TText | TJson
  datatype Attribute = LowCardinality | NotNull | Nullable
  datatype UseCase = Dimension | Range | ExactMatch

  datatype Error =
    | NoRows
    | RowKeyMissing
    | BadNames(names: seq<string>)
    | Reserved(names: seq<string>)
    | RowKeyType(type_: Primitive)

  // `isArray` stands for the `ch_override: Array(...)` of the element primitive and its codec.
  datatype Field = Field(
    name: string, type_: Primitive, isArray: bool, attribute: seq<Attribute>, useCase: Option<UseCase>, expr: string)

  datatype Options = Options(rowKey: string, recordPath: string, textMinLength: int)

  // ----- the rules, on statistics

  function StringShape(st: Stats, textMinLength: int): Primitive {
    if st.strClasses == {} then TString
    else if st.emptyStrings > 0 && st.strClasses <= {Uuid, Ip, Rfc3339} then TString
    else if st.strClasses == {Uuid} then TUuid
    else if st.strClasses == {Ip} then TIp
    else if st.strClasses == {Rfc3339} then TDatetime
    else if Multiline in st.strClasses || st.maxLen > textMinLength then TText
    else TString
  }

  function ArrayType(st: Stats): Primitive {
    var kinds := st.elementKinds;
    if kinds == {KDict} then TJson
    else if kinds == {KInt} then TInteger
    else if kinds != {} && kinds <= {KInt, KFloat} then TFloat
    else if kinds == {KBool} then TBoolean
    else TString
  }

  function ScalarUse(st: Stats, type_: Primitive, rows: nat): (Option<UseCase>, seq<Attribute>) {
    match type_
    case TUuid => (Some(if |st.distinct| * 2 >= rows then ExactMatch else Dimension), [])
    case TIp => (Some(Range), [])
    case TDatetime => (Some(Range), [])
    case TString => (Some(Dimension), if |st.distinct| * 2 < rows then [LowCardinality] else [])
    case _ => (None, [])
  }

  // The type, whether it is an array, and the use case and attributes it comes with.
  function Shape(st: Stats, rows: nat, textMinLength: int): (Primitive, bool, Option<UseCase>, seq<Attribute>) {
    if st.kinds == {} then (TString, false, None, [])
    else if st.kinds == {KBool} then (TBoolean, false, Some(Dimension), [])
    else if st.kinds == {KInt} then (TInteger, false, Some(Range), [])
    else if st.kinds <= {KInt, KFloat} then (TFloat, false, Some(Range), [])
    else if st.kinds == {KStr} then
      var t := StringShape(st, textMinLength);
      var (use, attribute) := ScalarUse(st, t, rows);
      (t, false, use, attribute)
    else if st.kinds == {KDict} then (TJson, false, None, [])
    else if st.kinds == {KList} then (ArrayType(st), true, None, [])
    else (TString, false, None, [])
  }

  function DeriveColumn(key: string, st: Stats, rows: nat, o: Options): Result<Field> {
    var (type_, isArray, use, attribute) := Shape(st, rows, o.textMinLength);
    var optional := st.present < rows || st.nulls > 0;
    var isRowKey := key == o.rowKey;
    if isRowKey && type_ != TString && type_ != TUuid then Err(RowKeyType(type_))
    else
      var kept := if isRowKey then [] else attribute;
      var all := if isArray then kept else if type_ == TJson then kept + [NotNull]
        else if optional then kept + [Nullable] else kept;
      var path := if o.recordPath != "" then o.recordPath + "." + key else key;
      Ok(Field(key, type_, isArray, all, if isRowKey then Some(ExactMatch) else use, "@source: " + path))
  }

  // ----- the rules, on the rows

  // Every value under the key that is not null is one of these kinds, and there is one.
  ghost predicate Only(vs: seq<Json>, ks: set<Kind>) {
    (exists i :: 0 <= i < |vs| && !vs[i].Null?) && forall i :: 0 <= i < |vs| && !vs[i].Null? ==> KindOf(vs[i]) in ks
  }

  // Every value is a string of this class, none of them empty.
  ghost predicate AllOfClass(r: Reader, vs: seq<Json>, c: StrClass) {
    forall i :: 0 <= i < |vs| && !vs[i].Null? ==> vs[i].Str? && vs[i].s != "" && ClassOf(r, vs[i].s) == c
  }

  ghost predicate IsShaped(c: StrClass) {
    c == Uuid || c == Ip || c == Rfc3339
  }

  // Every string but the empty ones has a shape, and some are empty.
  ghost predicate ShapedOrEmpty(r: Reader, vs: seq<Json>) {
    Str("") in vs && forall i :: 0 <= i < |vs| && vs[i].Str? && vs[i].s != "" ==> IsShaped(ClassOf(r, vs[i].s))
  }

  ghost predicate SomeText(r: Reader, vs: seq<Json>, textMinLength: int) {
    SeenClass(r, vs, Multiline) || (exists i :: 0 <= i < |vs| && vs[i].Str? && |vs[i].s| > textMinLength)
  }

  ghost predicate ElementsOnly(vs: seq<Json>, ks: set<Kind>) {
    (exists i :: 0 <= i < |vs| && vs[i].List? && vs[i].xs != []) &&
    forall i, j :: 0 <= i < |vs| && vs[i].List? && 0 <= j < |vs[i].xs| ==> KindOf(vs[i].xs[j]) in ks
  }

  ghost function StringRule(r: Reader, vs: seq<Json>, textMinLength: int): Primitive {
    if forall i :: 0 <= i < |vs| && vs[i].Str? ==> vs[i].s == "" then TString
    else if ShapedOrEmpty(r, vs) then TString
    else if AllOfClass(r, vs, Uuid) then TUuid
    else if AllOfClass(r, vs, Ip) then TIp
    else if AllOfClass(r, vs, Rfc3339) then TDatetime
    else if SomeText(r, vs, textMinLength) then TText
    else TString
  }

  ghost function ElementRule(vs: seq<Json>): Primitive {
    if ElementsOnly(vs, {KDict}) then TJson
    else if ElementsOnly(vs, {KInt}) then TInteger
    else if ElementsOnly(vs, {KInt, KFloat}) then TFloat
    else if ElementsOnly(vs, {KBool}) then TBoolean
    else TString
  }

  // The documented rules, read off the values of one key.
  ghost function TypeRule(r: Reader, vs: seq<Json>, textMinLength: int): (Primitive, bool) {
    if Only(vs, {KBool}) then (TBoolean, false)
    else if Only(vs, {KInt}) then (TInteger, false)
    else if Only(vs, {KInt, KFloat}) then (TFloat, false)
    else if Only(vs, {KStr}) then (StringRule(r, vs, textMinLength), false)
    else if Only(vs, {KDict}) then (TJson, false)
    else if Only(vs, {KList}) then (ElementRule(vs), true)
    else (TString, false)
  }

  lemma KindsOnly(r: Reader, vs: seq<Json>, ks: set<Kind>)
    ensures var st := Fold(r, vs); st.kinds != {} && st.kinds <= ks <==> Only(vs, ks)
    ensures var st := Fold(r, vs); st.kinds == {} <==> forall i :: 0 <= i < |vs| ==> vs[i].Null?
  {
    FoldMeans(r, vs);
    hide Fold;
    var st := Fold(r, vs);
    if Only(vs, ks) {
      var i :| 0 <= i < |vs| && !vs[i].Null?;
      assert Seen(vs, KindOf(vs[i]));
    }
    if st.kinds != {} && st.kinds <= ks {
      var k := Any(st.kinds);
      assert Seen(vs, k);
      forall i | 0 <= i < |vs| && !vs[i].Null? ensures KindOf(vs[i]) in ks {
        assert Seen(vs, KindOf(vs[i]));
      }
    }
    if st.kinds == {} {
      forall i | 0 <= i < |vs| ensures vs[i].Null? {
        assert !Seen(vs, KindOf(vs[i]));
      }
    }
  }

  lemma OneKind(r: Reader, vs: seq<Json>, k: Kind)
    ensures Fold(r, vs).kinds == {k} <==> Only(vs, {k})
  {
    hide Fold, Only;
    KindsOnly(r, vs, {k});
  }

  lemma ElementKindsOnly(r: Reader, vs: seq<Json>, ks: set<Kind>)
    ensures var st := Fold(r, vs); st.elementKinds != {} && st.elementKinds <= ks <==> ElementsOnly(vs, ks)
  {
    FoldMeans(r, vs);
    hide Fold;
    var st := Fold(r, vs);
    if ElementsOnly(vs, ks) {
      var i :| 0 <= i < |vs| && vs[i].List? && vs[i].xs != [];
      assert vs[i].xs[0] in vs[i].xs && KindOf(vs[i].xs[0]) in ElementKinds(vs[i].xs);
      assert SeenElement(vs, KindOf(vs[i].xs[0]));
    }
    if st.elementKinds != {} && st.elementKinds <= ks {
      var k := Any(st.elementKinds);
      assert SeenElement(vs, k);
      forall i, j | 0 <= i < |vs| && vs[i].List? && 0 <= j < |vs[i].xs| ensures KindOf(vs[i].xs[j]) in ks {
        assert vs[i].xs[j] in vs[i].xs;
        assert KindOf(vs[i].xs[j]) in ElementKinds(vs[i].xs);
        assert SeenElement(vs, KindOf(vs[i].xs[j]));
      }
    }
  }

  lemma ClassesOnly(r: Reader, vs: seq<Json>, c: StrClass)
    requires Only(vs, {KStr})
    ensures var st := Fold(r, vs); st.strClasses == {c} && st.emptyStrings == 0 <==> AllOfClass(r, vs, c)
  {
    FoldMeans(r, vs);
    hide Fold, ClassOf;
    var st := Fold(r, vs);
    if AllOfClass(r, vs, c) {
      var i :| 0 <= i < |vs| && !vs[i].Null?;
      assert SeenClass(r, vs, c);
      assert st.strClasses == {c};
    }
    if st.strClasses == {c} && st.emptyStrings == 0 {
      forall i | 0 <= i < |vs| && !vs[i].Null? ensures vs[i].Str? && vs[i].s != "" && ClassOf(r, vs[i].s) == c {
        assert KindOf(vs[i]) == KStr;
        assert vs[i] == Str(vs[i].s);
        assert SeenClass(r, vs, ClassOf(r, vs[i].s));
      }
    }
  }

  lemma ShapedOnly(r: Reader, vs: seq<Json>)
    ensures var st := Fold(r, vs);
            && (st.strClasses == {} <==> forall i :: 0 <= i < |vs| && vs[i].Str? ==> vs[i].s == "")
            && (st.emptyStrings > 0 && st.strClasses <= {Uuid, Ip, Rfc3339} <==> ShapedOrEmpty(r, vs))
  {
    FoldMeans(r, vs);
    hide Fold, ClassOf;
    var st := Fold(r, vs);
    forall i | 0 <= i < |vs| && vs[i].Str? && vs[i].s != "" ensures ClassOf(r, vs[i].s) in st.strClasses {
      assert SeenClass(r, vs, ClassOf(r, vs[i].s));
    }
    if st.strClasses != {} {
      assert SeenClass(r, vs, Any(st.strClasses));
    }
    if ShapedOrEmpty(r, vs) {
      forall c | c in st.strClasses ensures c in {Uuid, Ip, Rfc3339} {
        assert SeenClass(r, vs, c);
      }
    }
  }

  lemma LongOnly(r: Reader, vs: seq<Json>, n: int)
    requires Only(vs, {KStr})
    ensures Fold(r, vs).maxLen > n <==> exists i :: 0 <= i < |vs| && vs[i].Str? && |vs[i].s| > n
  {
    FoldMeans(r, vs);
    hide Fold;
    if n < 0 {
      var i :| 0 <= i < |vs| && !vs[i].Null?;
      assert KindOf(vs[i]) == KStr;
      assert vs[i].Str? && |vs[i].s| > n;
    } else {
      assert SeenLonger(vs, n) <==> exists i :: 0 <= i < |vs| && vs[i].Str? && |vs[i].s| > n;
    }
  }

  lemma StringShapeIsRule(r: Reader, vs: seq<Json>, textMinLength: int)
    requires Only(vs, {KStr})
    ensures StringShape(Fold(r, vs), textMinLength) == StringRule(r, vs, textMinLength)
  {
    ShapedOnly(r, vs);
    ClassesOnly(r, vs, Uuid);
    ClassesOnly(r, vs, Ip);
    ClassesOnly(r, vs, Rfc3339);
    LongOnly(r, vs, textMinLength);
    FoldMeans(r, vs);
    hide Fold, ClassOf, Only, ShapedOrEmpty, AllOfClass;
  }

  lemma ArrayTypeIsRule(r: Reader, vs: seq<Json>)
    ensures ArrayType(Fold(r, vs)) == ElementRule(vs)
  {
    ElementKindsOnly(r, vs, {KDict});
    ElementKindsOnly(r, vs, {KInt});
    ElementKindsOnly(r, vs, {KInt, KFloat});
    ElementKindsOnly(r, vs, {KBool});
    hide Fold, ElementsOnly;
  }

  // The type read off the statistics is the type the rules give the values.
  lemma ShapeIsRule(r: Reader, vs: seq<Json>, rows: nat, textMinLength: int)
    ensures var shape := Shape(Fold(r, vs), rows, textMinLength); (shape.0, shape.1) == TypeRule(r, vs, textMinLength)
  {
    hide Fold, Only, StringShape, ArrayType, StringRule, ElementRule, ScalarUse;
    OneKind(r, vs, KBool);
    OneKind(r, vs, KInt);
    KindsOnly(r, vs, {KInt, KFloat});
    OneKind(r, vs, KStr);
    OneKind(r, vs, KDict);
    OneKind(r, vs, KList);
    if Only(vs, {KStr}) {
      StringShapeIsRule(r, vs, textMinLength);
    }
    ArrayTypeIsRule(r, vs);
  }

  // ----- soundness

  ghost predicate Fits(v: Json, t: Primitive) {
    match t
    case TBoolean => v.Bool?
    case TInteger => v.Int?
    case TFloat => v.Int? || v.Float?
    case TJson => v.Dict?
    case _ => true
  }

  ghost predicate Inhabits(r: Reader, v: Json, t: Primitive, isArray: bool) {
    if isArray then v.List? && forall j :: 0 <= j < |v.xs| ==> Fits(v.xs[j], t)
    else match t
      case TUuid => v.Str? && v.s != "" && r.isUuid(v.s)
      case TIp => v.Str? && v.s != "" && r.isIp(v.s)
      case TDatetime => v.Str? && v.s != "" && r.isRfc3339(v.s)
      case TText => v.Str?
      case _ => Fits(v, t)
  }

  // A value the dump showed under a key is a value of the type the key is given.
  lemma TypeIsSound(r: Reader, rows: seq<Row>, key: string, o: Options, i: nat)
    requires i < |rows| && key in rows[i] && !rows[i][key].Null?
    ensures var f := DeriveColumn(key, Fold(r, Column(rows, key)), |rows|, o);
            f.Ok? ==> Inhabits(r, rows[i][key], f.value.type_, f.value.isArray)
  {
    var vs := Column(rows, key);
    ColumnLen(rows, key);
    assert rows[i][key] in vs;
    var j :| 0 <= j < |vs| && vs[j] == rows[i][key];
    ShapeIsRule(r, vs, |rows|, o.textMinLength);
    RuleIsSound(r, vs, o.textMinLength, j);
    hide Fold, TypeRule, Inhabits, Shape;
  }

  lemma RuleIsSound(r: Reader, vs: seq<Json>, textMinLength: int, i: nat)
    requires i < |vs| && !vs[i].Null?
    ensures var (t, isArray) := TypeRule(r, vs, textMinLength); Inhabits(r, vs[i], t, isArray)
  {
    if Only(vs, {KList}) {
      assert KindOf(vs[i]) == KList;
    }
  }

  // A column is nullable exactly when some row lacks the key or holds null, JSON objects and arrays aside.
  lemma NullableIsExact(r: Reader, rows: seq<Row>, key: string, o: Options)
    ensures var f := DeriveColumn(key, Fold(r, Column(rows, key)), |rows|, o);
            f.Ok? ==>
              && (Nullable in f.value.attribute <==>
                    && (exists i :: 0 <= i < |rows| && (key !in rows[i] || rows[i][key] == Null))
                    && !f.value.isArray && f.value.type_ != TJson)
              && (NotNull in f.value.attribute <==> f.value.type_ == TJson && !f.value.isArray)
  {
    var vs := Column(rows, key);
    var st := Fold(r, vs);
    ColumnLen(rows, key);
    FoldMeans(r, vs);
    hide Fold;
    assert st.present < |rows| || st.nulls > 0
      <==> exists i :: 0 <= i < |rows| && (key !in rows[i] || rows[i][key] == Null);
    UseHasNoNull(st, |rows|, o.textMinLength);
  }

  lemma UseHasNoNull(st: Stats, rows: nat, textMinLength: int)
    ensures var attribute := Shape(st, rows, textMinLength).3; Nullable !in attribute && NotNull !in attribute
  {
  }

  // ----- what a column is for

  // The use case the rules give a key that is no row key: by its type, and for a UUID by whether the values are
  // mostly different ones.
  ghost function UseRule(r: Reader, vs: seq<Json>, rows: nat, textMinLength: int): Option<UseCase> {
    var (t, isArray) := TypeRule(r, vs, textMinLength);
    if isArray then None
    else match t
      case TBoolean => Some(Dimension)
      case TInteger => Some(Range)
      case TFloat => Some(Range)
      case TIp => Some(Range)
      case TDatetime => Some(Range)
      case TUuid => Some(if |Dumps(r, vs)| * 2 >= rows then ExactMatch else Dimension)
      case TString => if Only(vs, {KStr}) then Some(Dimension) else None
      case TText => None
      case TJson => None
  }

  // A string column with fewer different values than half the rows.
  ghost predicate FewValues(r: Reader, vs: seq<Json>, rows: nat, textMinLength: int) {
    Only(vs, {KStr}) && TypeRule(r, vs, textMinLength) == (TString, false) && |Dumps(r, vs)| * 2 < rows
  }

  lemma ShapeUse(st: Stats, rows: nat, textMinLength: int)
    ensures var shape := Shape(st, rows, textMinLength);
            shape.2 == (if shape.1 then None
                        else match shape.0
                          case TBoolean => Some(Dimension)
                          case TInteger => Some(Range)
                          case TFloat => Some(Range)
                          case TIp => Some(Range)
                          case TDatetime => Some(Range)
                          case TUuid => Some(if |st.distinct| * 2 >= rows then ExactMatch else Dimension)
                          case TString => if st.kinds == {KStr} then Some(Dimension) else None
                          case TText => None
                          case TJson => None)
    ensures var shape := Shape(st, rows, textMinLength);
            shape.3 == if st.kinds == {KStr} && shape.0 == TString && !shape.1 && |st.distinct| * 2 < rows then
                         [LowCardinality]
                       else []
  {
  }

  lemma DerivedIs(key: string, st: Stats, rows: nat, o: Options)
    ensures var (_, _, use, attribute) := Shape(st, rows, o.textMinLength);
            var f := DeriveColumn(key, st, rows, o);
            f.Ok? ==>
              && f.value.useCase == (if key == o.rowKey then Some(ExactMatch) else use)
              && (LowCardinality in f.value.attribute <==> key != o.rowKey && LowCardinality in attribute)
              && f.value.expr == "@source: " + if o.recordPath == "" then key else o.recordPath + "." + key
  {
    hide Shape;
  }

  lemma ShapeUseIsRule(r: Reader, vs: seq<Json>, rows: nat, textMinLength: int)
    ensures var (_, _, use, attribute) := Shape(Fold(r, vs), rows, textMinLength);
            && use == UseRule(r, vs, rows, textMinLength)
            && (LowCardinality in attribute <==> FewValues(r, vs, rows, textMinLength))
  {
    FoldCounts(r, vs);
    OneKind(r, vs, KStr);
    ShapeIsRule(r, vs, rows, textMinLength);
    ShapeUse(Fold(r, vs), rows, textMinLength);
    hide Fold, TypeRule, Shape, Only, Dumps;
  }

  // What a column is read for, whether its few values are kept once, and where it is read from.
  lemma UseIsRule(r: Reader, rows: seq<Row>, key: string, o: Options)
    ensures var vs := Column(rows, key);
            var f := DeriveColumn(key, Fold(r, vs), |rows|, o);
            f.Ok? ==>
              && f.value.useCase == (if key == o.rowKey then Some(ExactMatch)
                                     else UseRule(r, vs, |rows|, o.textMinLength))
              && (LowCardinality in f.value.attribute <==>
                    key != o.rowKey && FewValues(r, vs, |rows|, o.textMinLength))
              && f.value.expr == "@source: " + if o.recordPath == "" then key else o.recordPath + "." + key
  {
    hide *;
    DerivedIs(key, Fold(r, Column(rows, key)), |rows|, o);
    ShapeUseIsRule(r, Column(rows, key), |rows|, o.textMinLength);
  }

  // ----- the row key

  // The guard of the row key reads the element type of an array as the type of the column.
  lemma RowKeyAccepted(r: Reader, rows: seq<Row>, o: Options)
    ensures var vs := Column(rows, o.rowKey);
            var (t, isArray) := TypeRule(r, vs, o.textMinLength);
            DeriveColumn(o.rowKey, Fold(r, vs), |rows|, o).Ok? <==> t == TString || t == TUuid
  {
    ShapeIsRule(r, Column(rows, o.rowKey), |rows|, o.textMinLength);
    hide Fold, TypeRule, Shape;
  }

  // So a row key is a string or UUID column exactly when its values are not all lists.
  lemma RowKeyIsScalar(r: Reader, rows: seq<Row>, o: Options)
    ensures var vs := Column(rows, o.rowKey);
            var f := DeriveColumn(o.rowKey, Fold(r, vs), |rows|, o);
            f.Ok? ==>
              (f.value.type_ == TString || f.value.type_ == TUuid) && (!f.value.isArray <==> !Only(vs, {KList}))
  {
    var vs := Column(rows, o.rowKey);
    ShapeIsRule(r, vs, |rows|, o.textMinLength);
    if Only(vs, {KList}) {
      var i :| 0 <= i < |vs| && !vs[i].Null?;
      assert KindOf(vs[i]) == KList;
    }
    hide Fold, Shape;
  }

  lemma RowKeyMayBeAnArray(r: Reader, o: Options)
    ensures var rows: seq<Row> := [map[o.rowKey := List([Str("a")])]];
            var f := DeriveColumn(o.rowKey, Fold(r, Column(rows, o.rowKey)), |rows|, o);
            f.Ok? && f.value.isArray
  {
    var v := List([Str("a")]);
    var rows: seq<Row> := [map[o.rowKey := v]];
    OneRow(o.rowKey, v);
    OneStringList(r, v, o.textMinLength);
    RowKeyAccepted(r, rows, o);
    ShapeIsRule(r, [v], 1, o.textMinLength);
    hide Fold, Shape, TypeRule, Column;
  }

  lemma OneRow(key: string, v: Json)
    ensures Column([map[key := v]], key) == [v]
  {
    var rows: seq<Row> := [map[key := v]];
    assert rows[..0] == [];
  }

  lemma OneStringList(r: Reader, v: Json, textMinLength: int)
    requires v == List([Str("a")])
    ensures TypeRule(r, [v], textMinLength) == (TString, true)
  {
    var vs := [v];
    assert KindOf(vs[0]) == KList && KindOf(vs[0].xs[0]) == KStr;
  }

  // ----- one store

  predicate IsLetter(c: char) {
    'A' <= c <= 'Z' || 'a' <= c <= 'z' || c == '_'
  }

  // `^[A-Za-z_][A-Za-z0-9_]*$`, where `$` also matches before a final newline.
  predicate IsColumnName(s: string) {
    var t := if s != "" && s[|s| - 1] == '\n' then s[..|s| - 1] else s;
    t != "" && IsLetter(t[0]) && forall i :: 0 <= i < |t| ==> IsLetter(t[i]) || '0' <= t[i] <= '9'
  }

  function DeriveAll(stats: map<string, Stats>, keys: seq<string>, rows: nat, o: Options): Result<seq<Field>>
    requires forall k :: k in keys ==> k in stats
  {
    if keys == [] then Ok([])
    else
      var first := DeriveColumn(keys[0], stats[keys[0]], rows, o);
      var rest := DeriveAll(stats, keys[1..], rows, o);
      if first.Err? then Err(first.error)
      else if rest.Err? then Err(rest.error)
      else Ok([first.value] + rest.value)
  }

  ghost function DeriveStore(r: Reader, rows: seq<Row>, o: Options, reserved: set<string>): Result<seq<Field>> {
    if rows == [] then Err(NoRows)
    else
      var stats := Profiled(r, rows);
      var bad := BadKeys(stats);
      var clashes := stats.Keys * reserved;
      if o.rowKey !in stats then Err(RowKeyMissing)
      else if bad != {} then Err(BadNames(Sorted(bad)))
      else if clashes != {} then Err(Reserved(Sorted(clashes)))
      else DeriveAll(stats, StoreKeys(stats.Keys, o.rowKey), |rows|, o)
  }

  ghost function BadKeys(stats: map<string, Stats>): set<string> {
    set k | k in stats && !IsColumnName(k)
  }

  ghost function StoreKeys(all: set<string>, rowKey: string): (keys: seq<string>)
    ensures forall k :: k in keys ==> k in all || k == rowKey
  {
    [rowKey] + Sorted(all - {rowKey})
  }

  lemma {:induction false} DeriveAllNames(stats: map<string, Stats>, keys: seq<string>, rows: nat, o: Options)
    requires forall k :: k in keys ==> k in stats
    requires DeriveAll(stats, keys, rows, o).Ok?
    ensures var fields := DeriveAll(stats, keys, rows, o).value;
            |fields| == |keys|
            && forall i :: 0 <= i < |keys| ==> Ok(fields[i]) == DeriveColumn(keys[i], stats[keys[i]], rows, o)
  {
    if keys != [] {
      DeriveAllNames(stats, keys[1..], rows, o);
      hide DeriveColumn;
    }
  }

  // The columns are the union of the keys, once each, row key first and the rest sorted, each with the type
  // the rules give its values.
  lemma StoreColumns(r: Reader, rows: seq<Row>, o: Options, reserved: set<string>)
    requires DeriveStore(r, rows, o, reserved).Ok?
    ensures var fields := DeriveStore(r, rows, o, reserved).value;
            && |fields| == |Keys(rows)| && fields != [] && fields[0].name == o.rowKey
            && (forall i, j :: 1 <= i < j < |fields| ==> Less(fields[i].name, fields[j].name))
            && (forall i :: 0 <= i < |fields| ==>
                  && fields[i].name in Keys(rows)
                  && (i > 0 ==> fields[i].name != o.rowKey)
                  && (fields[i].type_, fields[i].isArray) == TypeRule(r, Column(rows, fields[i].name), o.textMinLength))
            && (forall k :: k in Keys(rows) ==> exists i :: 0 <= i < |fields| && fields[i].name == k)
  {
    var keys := StoreKeys(Keys(rows), o.rowKey);
    var fields := DeriveStore(r, rows, o, reserved).value;
    StoreFields(r, rows, o, reserved);
    StoreKeysAre(Keys(rows), o.rowKey);
    hide *;
    forall i, j | 1 <= i < j < |fields| ensures Less(fields[i].name, fields[j].name) {
      assert fields[i].name == keys[i] && fields[j].name == keys[j];
    }
    forall i | 0 <= i < |fields|
      ensures fields[i].name in Keys(rows) && (i > 0 ==> fields[i].name != o.rowKey)
      ensures (fields[i].type_, fields[i].isArray) == TypeRule(r, Column(rows, fields[i].name), o.textMinLength)
    {
      assert fields[i].name == keys[i] && keys[i] in keys;
    }
    forall k | k in Keys(rows) ensures exists i :: 0 <= i < |fields| && fields[i].name == k {
      assert k in keys;
      var i :| 0 <= i < |keys| && keys[i] == k;
      assert fields[i].name == k;
    }
  }

  lemma StoreKeysAre(all: set<string>, rowKey: string)
    requires rowKey in all
    ensures var keys := StoreKeys(all, rowKey);
            && |keys| == |all| && keys[0] == rowKey
            && (forall k :: k in keys <==> k in all)
            && (forall i, j :: 1 <= i < j < |keys| ==> Less(keys[i], keys[j]))
            && (forall i :: 1 <= i < |keys| ==> keys[i] != rowKey)
  {
    var rest := Sorted(all - {rowKey});
    hide Less;
    assert forall i :: 0 <= i < |rest| ==> rest[i] in rest;
    assert all == (all - {rowKey}) + {rowKey};
  }

  lemma StoreFields(r: Reader, rows: seq<Row>, o: Options, reserved: set<string>)
    requires DeriveStore(r, rows, o, reserved).Ok?
    ensures var keys, fields := StoreKeys(Keys(rows), o.rowKey), DeriveStore(r, rows, o, reserved).value;
            && o.rowKey in Keys(rows) && |fields| == |keys|
            && forall i :: 0 <= i < |keys| ==>
                 fields[i].name == keys[i] &&
                 (fields[i].type_, fields[i].isArray) == TypeRule(r, Column(rows, keys[i]), o.textMinLength)
  {
    var stats := Profiled(r, rows);
    assert stats.Keys == Keys(rows);
    var keys := StoreKeys(Keys(rows), o.rowKey);
    var fields := DeriveStore(r, rows, o, reserved).value;
    assert o.rowKey in stats;
    StoreKeysAre(Keys(rows), o.rowKey);
    assert DeriveAll(stats, keys, |rows|, o) == Ok(fields);
    hide Shape, TypeRule, Fold, Column, IsColumnName, DeriveAll, Less, DeriveStore, StoreKeys, DeriveColumn;
    DeriveAllNames(stats, keys, |rows|, o);
    forall i | 0 <= i < |keys|
      ensures fields[i].name == keys[i]
      ensures (fields[i].type_, fields[i].isArray) == TypeRule(r, Column(rows, keys[i]), o.textMinLength)
    {
      assert keys[i] in keys;
      FieldIs(r, rows, keys[i], o, fields[i]);
    }
  }

  lemma FieldIs(r: Reader, rows: seq<Row>, key: string, o: Options, f: Field)
    requires Ok(f) == DeriveColumn(key, Fold(r, Column(rows, key)), |rows|, o)
    ensures f.name == key && (f.type_, f.isArray) == TypeRule(r, Column(rows, key), o.textMinLength)
  {
    ShapeIsRule(r, Column(rows, key), |rows|, o.textMinLength);
    hide Shape, TypeRule, Fold, Column;
  }

  // When a dump is refused, and for what: no rows, a row key that is no row's, keys that cannot be columns' names,
  // and names that are taken, in that order; otherwise only for the row key's type.
  lemma StoreErrors(r: Reader, rows: seq<Row>, o: Options, reserved: set<string>)
    ensures var got := DeriveStore(r, rows, o, reserved);
            if rows == [] then got == Err(NoRows)
            else if forall i :: 0 <= i < |rows| ==> o.rowKey !in rows[i] then got == Err(RowKeyMissing)
            else if exists k :: k in Keys(rows) && !IsColumnName(k) then
              got.Err? && got.error.BadNames? && Ascending(got.error.names)
              && forall k :: k in got.error.names <==> k in Keys(rows) && !IsColumnName(k)
            else if exists k :: k in Keys(rows) && k in reserved then
              got.Err? && got.error.Reserved? && Ascending(got.error.names)
              && forall k :: k in got.error.names <==> k in Keys(rows) && k in reserved
            else
              var t := TypeRule(r, Column(rows, o.rowKey), o.textMinLength).0;
              if t == TString || t == TUuid then got.Ok? else got == Err(RowKeyType(t))
  {
    KeysAre(rows, o.rowKey);
    var stats := Profiled(r, rows);
    assert stats.Keys == Keys(rows);
    StoreUnfolds(r, rows, o, reserved);
    hide *;
    if rows != [] && o.rowKey in stats {
      var bad, clashes := BadKeys(stats), stats.Keys * reserved;
      KeysInQuestion(stats, reserved);
      if bad == {} && clashes == {} {
        var rest := Sorted(stats.Keys - {o.rowKey});
        RestDerives(stats, rest, |rows|, o);
        RowKeyDecides(r, rows, o, stats, rest);
      }
    }
  }

  lemma KeysInQuestion(stats: map<string, Stats>, reserved: set<string>)
    ensures BadKeys(stats) != {} <==> exists k :: k in stats.Keys && !IsColumnName(k)
    ensures stats.Keys * reserved != {} <==> exists k :: k in stats.Keys && k in reserved
    ensures forall k :: k in BadKeys(stats) <==> k in stats.Keys && !IsColumnName(k)
  {
    hide IsColumnName;
    assert forall k :: k in stats.Keys && !IsColumnName(k) ==> k in BadKeys(stats);
    assert forall k :: k in stats.Keys && k in reserved ==> k in stats.Keys * reserved;
    if BadKeys(stats) != {} {
      var k := Any(BadKeys(stats));
      assert k in stats.Keys && !IsColumnName(k);
    }
    if stats.Keys * reserved != {} {
      var k := Any(stats.Keys * reserved);
      assert k in stats.Keys && k in reserved;
    }
  }

  lemma StoreUnfolds(r: Reader, rows: seq<Row>, o: Options, reserved: set<string>)
    ensures var got, stats := DeriveStore(r, rows, o, reserved), Profiled(r, rows);
            && (rows == [] ==> got == Err(NoRows))
            && (rows != [] && o.rowKey !in stats ==> got == Err(RowKeyMissing))
            && (rows != [] && o.rowKey in stats ==>
                  got == if BadKeys(stats) != {} then Err(BadNames(Sorted(BadKeys(stats))))
                         else if stats.Keys * reserved != {} then Err(Reserved(Sorted(stats.Keys * reserved)))
                         else DeriveAll(stats, [o.rowKey] + Sorted(stats.Keys - {o.rowKey}), |rows|, o))
  {
    hide BadKeys, Profiled, DeriveAll, Sorted;
  }

  lemma {:induction false} RestDerives(stats: map<string, Stats>, keys: seq<string>, rows: nat, o: Options)
    requires forall k :: k in keys ==> k in stats && k != o.rowKey
    ensures DeriveAll(stats, keys, rows, o).Ok?
  {
    if keys != [] {
      assert keys[0] in keys;
      assert DeriveColumn(keys[0], stats[keys[0]], rows, o).Ok?;
      hide DeriveColumn;
      assert forall k :: k in keys[1..] ==> k in keys;
      RestDerives(stats, keys[1..], rows, o);
    }
  }

  lemma RowKeyDecides(r: Reader, rows: seq<Row>, o: Options, stats: map<string, Stats>, rest: seq<string>)
    requires stats == Profiled(r, rows) && o.rowKey in stats && (forall k :: k in rest ==> k in stats)
    requires DeriveAll(stats, rest, |rows|, o).Ok?
    ensures var t := TypeRule(r, Column(rows, o.rowKey), o.textMinLength).0;
            var got := DeriveAll(stats, [o.rowKey] + rest, |rows|, o);
            if t == TString || t == TUuid then got.Ok? else got == Err(RowKeyType(t))
  {
    var vs := Column(rows, o.rowKey);
    var keys := [o.rowKey] + rest;
    assert stats[o.rowKey] == Fold(r, vs) && keys[0] == o.rowKey && keys[1..] == rest;
    KeyTypeDecides(r, rows, o);
    hide Fold, TypeRule, DeriveColumn, Profiled;
  }

  lemma KeyTypeDecides(r: Reader, rows: seq<Row>, o: Options)
    ensures var vs := Column(rows, o.rowKey);
            var t := TypeRule(r, vs, o.textMinLength).0;
            var got := DeriveColumn(o.rowKey, Fold(r, vs), |rows|, o);
            if t == TString || t == TUuid then got.Ok? else got == Err(RowKeyType(t))
  {
    ShapeIsRule(r, Column(rows, o.rowKey), |rows|, o.textMinLength);
    hide Fold, TypeRule, Shape;
  }

  // Neither the order of the rows nor of a row's keys shows in the columns.
  lemma StoreOfShuffle(r: Reader, a: seq<Row>, b: seq<Row>, o: Options, reserved: set<string>)
    requires multiset(a) == multiset(b)
    ensures DeriveStore(r, a, o, reserved) == DeriveStore(r, b, o, reserved)
  {
    ProfileOfShuffle(r, a, b);
    assert |a| == |multiset(a)| == |multiset(b)| == |b|;
  }
}

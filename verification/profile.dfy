/** What a dump of rows shows for each key, folded one value at a time. */
module Profile {

  // Objects are held with their members in the order the line gave them.
  datatype Json =
    | Null
    | Bool(b: bool)
    | Int(n: int)
    | Float(x: real)
    | Str(s: string)
    | List(xs: seq<Json>)
    | Dict(members: seq<(string, Json)>)

  type Row = map<string, Json>

  datatype Kind = KNull | KBool | KInt | KFloat | KStr | KList | KDict
  datatype StrClass = Uuid | Ip | Rfc3339 | Multiline | Plain

  // The pattern tests and the canonical dump, whose definitions nothing here depends on.
  datatype Reader = Reader(isUuid: string -> bool, isIp: string -> bool, isRfc3339: string -> bool,
    dump: Json -> string)

  const EPOCH_MIN := 946_684_800
  const EPOCH_MAX := 4_102_444_800

  function KindOf(v: Json): Kind {
    match v
    case Null => KNull
    case Bool(_) => KBool
    case Int(_) => KInt
    case Float(_) => KFloat
    case Str(_) => KStr
    case List(_) => KList
    case Dict(_) => KDict
  }

  function ClassOf(r: Reader, s: string): StrClass {
    if r.isUuid(s) then Uuid
    else if r.isIp(s) then Ip
    else if r.isRfc3339(s) then Rfc3339
    else if '\n' in s then Multiline
    else Plain
  }

  datatype Stats = Stats(
    present: nat, nulls: nat, kinds: set<Kind>, distinct: set<string>, emptyStrings: nat, strClasses: set<StrClass>,
    maxLen: nat, elementKinds: set<Kind>, intZeros: nat, intNonzero: nat, intEpochLike: nat)

  const NOTHING := Stats(0, 0, {}, {}, 0, {}, 0, {}, 0, 0, 0)

  function Max(a: nat, b: nat): nat { if a < b then b else a }

  function ElementKinds(xs: seq<Json>): set<Kind> {
    set x | x in xs :: KindOf(x)
  }

  // What one value adds.
  function One(r: Reader, v: Json): Stats {
    if v.Null? then NOTHING.(present := 1, nulls := 1)
    else
      var base := NOTHING.(present := 1, kinds := {KindOf(v)}, distinct := {r.dump(v)});
      match v
      case Str(s) =>
        if s == "" then base.(emptyStrings := 1)
        else base.(strClasses := {ClassOf(r, s)}, maxLen := |s|)
      case Int(n) =>
        if n == 0 then base.(intZeros := 1)
        else base.(intNonzero := 1, intEpochLike := if EPOCH_MIN <= n <= EPOCH_MAX then 1 else 0)
      case List(xs) => base.(elementKinds := ElementKinds(xs))
      case _ => base
  }

  function Merge(a: Stats, b: Stats): Stats {
    Stats(a.present + b.present, a.nulls + b.nulls, a.kinds + b.kinds, a.distinct + b.distinct,
          a.emptyStrings + b.emptyStrings, a.strClasses + b.strClasses, Max(a.maxLen, b.maxLen),
          a.elementKinds + b.elementKinds, a.intZeros + b.intZeros, a.intNonzero + b.intNonzero,
          a.intEpochLike + b.intEpochLike)
  }

  function Fold(r: Reader, vs: seq<Json>): Stats {
    if vs == [] then NOTHING else Merge(Fold(r, vs[..|vs| - 1]), One(r, vs[|vs| - 1]))
  }

  // The values the rows hold under one key, in order.
  function Column(rows: seq<Row>, key: string): seq<Json> {
    if rows == [] then []
    else
      var last := rows[|rows| - 1];
      Column(rows[..|rows| - 1], key) + if key in last then [last[key]] else []
  }

  function Keys(rows: seq<Row>): set<string> {
    if rows == [] then {} else Keys(rows[..|rows| - 1]) + rows[|rows| - 1].Keys
  }

  // The statistics of every key, as a function of the rows.
  function Profiled(r: Reader, rows: seq<Row>): map<string, Stats> {
    map k | k in Keys(rows) :: Fold(r, Column(rows, k))
  }

  // ----- the accumulating loops

  class KeyStats {
    var present: nat
    var nulls: nat
    var kinds: set<Kind>
    var distinct: set<string>
    var emptyStrings: nat
    var strClasses: set<StrClass>
    var maxLen: nat
    var elementKinds: set<Kind>
    var intZeros: nat
    var intNonzero: nat
    var intEpochLike: nat

    function Value(): Stats
      reads this
    {
      Stats(present, nulls, kinds, distinct, emptyStrings, strClasses, maxLen, elementKinds, intZeros, intNonzero,
        intEpochLike)
    }

    constructor ()
      ensures Value() == NOTHING
    {
      present, nulls, kinds, distinct, emptyStrings, strClasses := 0, 0, {}, {}, 0, {};
      maxLen, elementKinds, intZeros, intNonzero, intEpochLike := 0, {}, 0, 0, 0;
    }

    // The body of the inner loop.
    method Observe(r: Reader, value: Json)
      modifies this
      ensures Value() == Merge(old(Value()), One(r, value))
    {
      ghost var was := Value();
      MergeOne(r, was, value);
      hide Merge, One, ElementKinds;
      present := present + 1;
      var kind := KindOf(value);
      if kind == KNull {
        nulls := nulls + 1;
        return;
      }
      kinds := kinds + {kind};
      distinct := distinct + {r.dump(value)};
      if kind == KStr {
        if value.s == "" {
          emptyStrings := emptyStrings + 1;
        } else {
          strClasses := strClasses + {ClassOf(r, value.s)};
        }
        maxLen := Max(maxLen, |value.s|);
      } else if kind == KInt {
        if value.n == 0 {
          intZeros := intZeros + 1;
        } else {
          intNonzero := intNonzero + 1;
          if EPOCH_MIN <= value.n <= EPOCH_MAX {
            intEpochLike := intEpochLike + 1;
          }
        }
      } else if kind == KList {
        AddElementKinds(value.xs);
      }
    }

    method AddElementKinds(xs: seq<Json>)
      modifies this`elementKinds
      ensures elementKinds == old(elementKinds) + ElementKinds(xs)
    {
      var i := 0;
      while i < |xs|
        invariant 0 <= i <= |xs|
        invariant elementKinds == old(elementKinds) + ElementKinds(xs[..i])
      {
        ElementKindsNext(xs, i);
        elementKinds := elementKinds + {KindOf(xs[i])};
        i := i + 1;
      }
      assert xs[..i] == xs;
    }
  }

  // What counting one value changes.
  lemma MergeOne(r: Reader, a: Stats, v: Json)
    ensures var next := Merge(a, One(r, v));
            var seen := a.(present := a.present + 1, kinds := a.kinds + {KindOf(v)},
              distinct := a.distinct + {r.dump(v)});
            match v
            case Null => next == a.(present := a.present + 1, nulls := a.nulls + 1)
            case Str(s) =>
              next == (if s == "" then seen.(emptyStrings := a.emptyStrings + 1)
                       else seen.(strClasses := a.strClasses + {ClassOf(r, s)})).(maxLen := Max(a.maxLen, |s|))
            case Int(n) =>
              next == if n == 0 then seen.(intZeros := a.intZeros + 1)
                      else seen.(intNonzero := a.intNonzero + 1,
                                 intEpochLike := a.intEpochLike + if EPOCH_MIN <= n <= EPOCH_MAX then 1 else 0)
            case List(xs) => next == seen.(elementKinds := a.elementKinds + ElementKinds(xs))
            case _ => next == seen
  {
    hide ClassOf, ElementKinds, KindOf;
    assert a.kinds + {} == a.kinds && a.distinct + {} == a.distinct && a.strClasses + {} == a.strClasses
           && a.elementKinds + {} == a.elementKinds;
  }

  lemma ElementKindsNext(xs: seq<Json>, i: nat)
    requires i < |xs|
    ensures ElementKinds(xs[..i + 1]) == ElementKinds(xs[..i]) + {KindOf(xs[i])}
  {
    assert xs[..i + 1] == xs[..i] + [xs[i]];
  }

  // One object a key, none shared between keys.
  ghost predicate Separate(stats: map<string, KeyStats>) {
    forall j, k :: j in stats && k in stats && j != k ==> stats[j] != stats[k]
  }

  ghost predicate Holds(stats: map<string, KeyStats>, want: map<string, Stats>)
    reads stats.Values
  {
    stats.Keys == want.Keys && forall k :: k in stats ==> stats[k].Value() == want[k]
  }

  // The profile of the first rows and of some keys of the next one.
  ghost function Partly(r: Reader, rows: seq<Row>, row: Row, done: set<string>): map<string, Stats> {
    map k | k in Keys(rows) + (row.Keys * done) ::
      Fold(r, Column(rows, k) + if k in row && k in done then [row[k]] else [])
  }

  method Profile(r: Reader, rows: seq<Row>) returns (stats: map<string, KeyStats>)
    ensures Separate(stats) && fresh(stats.Values)
    ensures Holds(stats, Profiled(r, rows))
  {
    hide Profiled, Partly, Fold, Merge, One;
    stats := map[];
    var i := 0;
    NothingProfiled(r);
    assert rows[..0] == [];
    while i < |rows|
      invariant 0 <= i <= |rows|
      invariant Separate(stats) && fresh(stats.Values)
      invariant Holds(stats, Profiled(r, rows[..i]))
    {
      var row := rows[i];
      var todo := row.Keys;
      PartlyStart(r, rows[..i], row);
      while todo != {}
        invariant todo <= row.Keys
        invariant Separate(stats) && fresh(stats.Values)
        invariant Holds(stats, Partly(r, rows[..i], row, row.Keys - todo))
        decreases todo
      {
        var key :| key in todo;
        PartlyStep(r, rows[..i], row, row.Keys - todo, key);
        stats := Record(r, stats, key, row[key], Partly(r, rows[..i], row, row.Keys - todo));
        assert row.Keys - (todo - {key}) == row.Keys - todo + {key};
        todo := todo - {key};
      }
      assert row.Keys - todo == row.Keys;
      PartlyEnd(r, rows, i, row.Keys);
      i := i + 1;
    }
    assert rows[..i] == rows;
  }

  // `stats.setdefault(key, KeyStats())`, then the value is counted into it.
  method Record(r: Reader, stats: map<string, KeyStats>, key: string, value: Json, ghost want: map<string, Stats>)
    returns (next: map<string, KeyStats>)
    requires Separate(stats) && Holds(stats, want)
    modifies stats.Values
    ensures Separate(next) && fresh(next.Values - stats.Values)
    ensures Holds(next, want[key := Merge(if key in want then want[key] else NOTHING, One(r, value))])
  {
    hide Merge, One;
    next := stats;
    if key !in stats {
      var entry := new KeyStats();
      next := next[key := entry];
    }
    assert forall k :: k in stats ==> next[k] == stats[k];
    next[key].Observe(r, value);
  }

  lemma NothingProfiled(r: Reader)
    ensures Profiled(r, []) == map[]
  {
  }

  lemma PartlyStart(r: Reader, rows: seq<Row>, row: Row)
    ensures Partly(r, rows, row, row.Keys - row.Keys) == Profiled(r, rows)
  {
    hide Fold;
    var p := Partly(r, rows, row, row.Keys - row.Keys);
    forall k | k in p ensures p[k] == Profiled(r, rows)[k] {
      assert Column(rows, k) + [] == Column(rows, k);
    }
  }

  lemma PartlyStep(r: Reader, rows: seq<Row>, row: Row, done: set<string>, key: string)
    requires key in row && key !in done
    ensures var p, q := Partly(r, rows, row, done), Partly(r, rows, row, done + {key});
            q == p[key := Merge(if key in p then p[key] else NOTHING, One(r, row[key]))]
  {
    var p, q := Partly(r, rows, row, done), Partly(r, rows, row, done + {key});
    hide Fold, Merge, One, Keys, Column;
    PartlyAt(r, rows, row, done, key);
    assert q.Keys == p.Keys + {key};
    assert forall k :: k in p && k != key ==> q[k] == p[k];
  }

  lemma PartlyAt(r: Reader, rows: seq<Row>, row: Row, done: set<string>, key: string)
    requires key in row && key !in done
    ensures var p, q := Partly(r, rows, row, done), Partly(r, rows, row, done + {key});
            key in q && q[key] == Merge(if key in p then p[key] else NOTHING, One(r, row[key]))
  {
    hide Merge, One, Keys;
    var vs := Column(rows, key);
    FoldNext(r, vs, row[key]);
    assert vs + [] == vs;
    if key !in Keys(rows) {
      NoColumn(rows, key);
    }
  }

  lemma FoldNext(r: Reader, vs: seq<Json>, v: Json)
    ensures Fold(r, vs + [v]) == Merge(Fold(r, vs), One(r, v)) && Fold(r, []) == NOTHING
  {
    assert (vs + [v])[..|vs|] == vs;
  }

  lemma {:induction false} NoColumn(rows: seq<Row>, key: string)
    requires key !in Keys(rows)
    ensures Column(rows, key) == []
  {
    if rows != [] {
      NoColumn(rows[..|rows| - 1], key);
    }
  }

  lemma PartlyEnd(r: Reader, rows: seq<Row>, i: nat, done: set<string>)
    requires i < |rows| && done == rows[i].Keys
    ensures Partly(r, rows[..i], rows[i], done) == Profiled(r, rows[..i + 1])
  {
    hide Fold;
    assert rows[..i + 1][..i] == rows[..i];
  }

  // ----- a profile is a fold over a bag

  function MergeProfiles(a: map<string, Stats>, b: map<string, Stats>): map<string, Stats> {
    map k | k in a.Keys + b.Keys :: Merge(if k in a then a[k] else NOTHING, if k in b then b[k] else NOTHING)
  }

  lemma MergeLaws(a: Stats, b: Stats, c: Stats)
    ensures Merge(a, b) == Merge(b, a)
    ensures Merge(Merge(a, b), c) == Merge(a, Merge(b, c))
    ensures Merge(a, NOTHING) == a
  {
    SameStats(Merge(a, b), Merge(b, a));
    SameStats(Merge(Merge(a, b), c), Merge(a, Merge(b, c)));
    SameStats(Merge(a, NOTHING), a);
  }

  lemma SameStats(a: Stats, b: Stats)
    requires a.present == b.present && a.nulls == b.nulls && a.emptyStrings == b.emptyStrings && a.maxLen == b.maxLen
    requires a.intZeros == b.intZeros && a.intNonzero == b.intNonzero && a.intEpochLike == b.intEpochLike
    requires a.kinds == b.kinds && a.distinct == b.distinct && a.strClasses == b.strClasses
        && a.elementKinds == b.elementKinds
    ensures a == b
  {
  }

  lemma {:induction false} FoldConcat(r: Reader, xs: seq<Json>, ys: seq<Json>)
    ensures Fold(r, xs + ys) == Merge(Fold(r, xs), Fold(r, ys))
  {
    hide Merge, One, Fold;
    FoldNext(r, [], Null);
    if ys == [] {
      assert xs + ys == xs;
      MergeLaws(Fold(r, xs), NOTHING, NOTHING);
    } else {
      var init, last := ys[..|ys| - 1], ys[|ys| - 1];
      assert ys == init + [last] && xs + ys == (xs + init) + [last];
      FoldConcat(r, xs, init);
      FoldNext(r, init, last);
      FoldNext(r, xs + init, last);
      MergeLaws(Fold(r, xs), Fold(r, init), One(r, last));
    }
  }

  lemma {:induction false} ColumnConcat(a: seq<Row>, b: seq<Row>, key: string)
    ensures Column(a + b, key) == Column(a, key) + Column(b, key)
    ensures Keys(a + b) == Keys(a) + Keys(b)
  {
    if b == [] {
      assert a + b == a;
    } else {
      assert (a + b)[..|a + b| - 1] == a + b[..|b| - 1];
      ColumnConcat(a, b[..|b| - 1], key);
    }
  }

  // The profile of two dumps read one after the other is the merge of their profiles.
  lemma ProfileOfConcat(r: Reader, a: seq<Row>, b: seq<Row>)
    ensures Profiled(r, a + b) == MergeProfiles(Profiled(r, a), Profiled(r, b))
  {
    hide Merge, Fold, Column, Keys;
    ColumnConcat(a, b, "");
    var p, q := Profiled(r, a + b), MergeProfiles(Profiled(r, a), Profiled(r, b));
    assert p.Keys == q.Keys;
    forall k | k in p ensures p[k] == q[k] {
      ProfileAt(r, a, b, k);
    }
  }

  lemma ProfileAt(r: Reader, a: seq<Row>, b: seq<Row>, k: string)
    ensures Fold(r, Column(a + b, k)) == Merge(Fold(r, Column(a, k)), Fold(r, Column(b, k)))
    ensures k !in Keys(a) ==> Fold(r, Column(a, k)) == NOTHING
    ensures k !in Keys(b) ==> Fold(r, Column(b, k)) == NOTHING
  {
    ColumnConcat(a, b, k);
    FoldConcat(r, Column(a, k), Column(b, k));
    if k !in Keys(a) { NoColumn(a, k); }
    if k !in Keys(b) { NoColumn(b, k); }
  }

  lemma TakeOut<T>(a: seq<T>, b: seq<T>) returns (u: seq<T>, v: seq<T>)
    requires a != [] && multiset(a) == multiset(b)
    ensures a == [a[0]] + a[1..] && b == u + ([a[0]] + v) && multiset(a[1..]) == multiset(u + v)
  {
    var x := a[0];
    RemoveFirst(a);
    assert x in multiset(b);
    var i :| 0 <= i < |b| && b[i] == x;
    u, v := b[..i], b[i + 1..];
    assert b == u + ([x] + v);
    RemoveOne(u, x, v);
  }

  lemma RemoveFirst<T>(a: seq<T>)
    requires a != []
    ensures a == [a[0]] + a[1..] && a[0] in multiset(a) && multiset(a) - multiset{a[0]} == multiset(a[1..])
  {
    assert a == [a[0]] + a[1..];
  }

  lemma RemoveOne<T>(u: seq<T>, x: T, v: seq<T>)
    ensures multiset(u + ([x] + v)) - multiset{x} == multiset(u + v)
  {
  }

  lemma {:induction false} FoldShuffled(r: Reader, a: seq<Row>, b: seq<Row>, k: string)
    requires multiset(a) == multiset(b)
    ensures Fold(r, Column(a, k)) == Fold(r, Column(b, k))
    ensures Keys(a) == Keys(b)
    decreases |a|
  {
    hide Merge, Fold, Column, Keys;
    if a == [] {
      assert |multiset(b)| == 0;
      assert b == [];
    } else {
      var x, rest := a[0], a[1..];
      var u, v := TakeOut(a, b);
      FoldShuffled(r, rest, u + v, k);
      ProfileAt(r, [x], rest, k);
      ProfileAt(r, u, v, k);
      ProfileAt(r, u, [x] + v, k);
      ProfileAt(r, [x], v, k);
      ColumnConcat([x], rest, k);
      ColumnConcat(u, v, k);
      ColumnConcat(u, [x] + v, k);
      ColumnConcat([x], v, k);
      var fu, fx, fv := Fold(r, Column(u, k)), Fold(r, Column([x], k)), Fold(r, Column(v, k));
      MergeLaws(fx, fu, fv);
      MergeLaws(fu, fx, fv);
    }
  }

  // No order of the rows shows in the profile.
  lemma ProfileOfShuffle(r: Reader, a: seq<Row>, b: seq<Row>)
    requires multiset(a) == multiset(b)
    ensures Profiled(r, a) == Profiled(r, b)
  {
    hide Merge, Fold, Column, Keys;
    FoldShuffled(r, a, b, "");
    forall k | k in Keys(a) ensures Fold(r, Column(a, k)) == Fold(r, Column(b, k)) {
      FoldShuffled(r, a, b, k);
    }
  }

  // ----- what the statistics say about the values

  ghost predicate Seen(vs: seq<Json>, k: Kind) {
    exists i :: 0 <= i < |vs| && !vs[i].Null? && KindOf(vs[i]) == k
  }

  ghost predicate SeenClass(r: Reader, vs: seq<Json>, c: StrClass) {
    exists i :: 0 <= i < |vs| && vs[i].Str? && vs[i].s != "" && ClassOf(r, vs[i].s) == c
  }

  ghost predicate SeenElement(vs: seq<Json>, k: Kind) {
    exists i :: 0 <= i < |vs| && vs[i].List? && k in ElementKinds(vs[i].xs)
  }

  ghost predicate SeenLonger(vs: seq<Json>, n: int) {
    exists i :: 0 <= i < |vs| && vs[i].Str? && |vs[i].s| > n
  }

  lemma {:induction false} FoldMeans(r: Reader, vs: seq<Json>)
    ensures var st := Fold(r, vs);
            && st.present == |vs|
            && (st.nulls > 0 <==> Null in vs)
            && (st.emptyStrings > 0 <==> Str("") in vs)
    ensures forall k :: k in Fold(r, vs).kinds <==> Seen(vs, k)
    ensures forall c :: c in Fold(r, vs).strClasses <==> SeenClass(r, vs, c)
    ensures forall k :: k in Fold(r, vs).elementKinds <==> SeenElement(vs, k)
    ensures forall n :: n >= 0 ==> (Fold(r, vs).maxLen > n <==> SeenLonger(vs, n))
  {
    if vs != [] {
      var init, last := vs[..|vs| - 1], vs[|vs| - 1];
      assert vs == init + [last];
      FoldMeans(r, init);
      FoldNext(r, init, last);
      MergeOne(r, Fold(r, init), last);
      hide Fold, Merge, One, ClassOf, ElementKinds;
      forall k ensures Seen(vs, k) <==> Seen(init, k) || (!last.Null? && KindOf(last) == k) {
        SeenNext(init, last, k);
      }
      forall c
        ensures SeenClass(r, vs, c)
             <==> SeenClass(r, init, c) || (last.Str? && last.s != "" && ClassOf(r, last.s) == c)
      {
        SeenClassNext(r, init, last, c);
      }
      forall k ensures SeenElement(vs, k) <==> SeenElement(init, k) || (last.List? && k in ElementKinds(last.xs)) {
        SeenElementNext(init, last, k);
      }
      forall n ensures SeenLonger(vs, n) <==> SeenLonger(init, n) || (last.Str? && |last.s| > n) {
        SeenLongerNext(init, last, n);
      }
    }
  }

  lemma SeenNext(vs: seq<Json>, v: Json, k: Kind)
    ensures Seen(vs + [v], k) <==> Seen(vs, k) || (!v.Null? && KindOf(v) == k)
  {
    var ws := vs + [v];
    assert ws[|vs|] == v && forall i :: 0 <= i < |vs| ==> ws[i] == vs[i];
    if !v.Null? && KindOf(v) == k { assert !ws[|vs|].Null?; }
    if Seen(vs, k) {
      var i :| 0 <= i < |vs| && !vs[i].Null? && KindOf(vs[i]) == k;
      assert ws[i] == vs[i];
    }
  }

  lemma SeenClassNext(r: Reader, vs: seq<Json>, v: Json, c: StrClass)
    ensures SeenClass(r, vs + [v], c) <==> SeenClass(r, vs, c) || (v.Str? && v.s != "" && ClassOf(r, v.s) == c)
  {
    hide ClassOf;
    var ws := vs + [v];
    assert ws[|vs|] == v && forall i :: 0 <= i < |vs| ==> ws[i] == vs[i];
    if SeenClass(r, vs, c) {
      var i :| 0 <= i < |vs| && vs[i].Str? && vs[i].s != "" && ClassOf(r, vs[i].s) == c;
      assert ws[i] == vs[i];
    }
  }

  lemma SeenElementNext(vs: seq<Json>, v: Json, k: Kind)
    ensures SeenElement(vs + [v], k) <==> SeenElement(vs, k) || (v.List? && k in ElementKinds(v.xs))
  {
    hide ElementKinds;
    var ws := vs + [v];
    assert ws[|vs|] == v && forall i :: 0 <= i < |vs| ==> ws[i] == vs[i];
    if SeenElement(vs, k) {
      var i :| 0 <= i < |vs| && vs[i].List? && k in ElementKinds(vs[i].xs);
      assert ws[i] == vs[i];
    }
  }

  lemma SeenLongerNext(vs: seq<Json>, v: Json, n: int)
    ensures SeenLonger(vs + [v], n) <==> SeenLonger(vs, n) || (v.Str? && |v.s| > n)
  {
    var ws := vs + [v];
    assert ws[|vs|] == v && forall i :: 0 <= i < |vs| ==> ws[i] == vs[i];
    if SeenLonger(vs, n) {
      var i :| 0 <= i < |vs| && vs[i].Str? && |vs[i].s| > n;
      assert ws[i] == vs[i];
    }
  }

  lemma {:induction false} ColumnLen(rows: seq<Row>, key: string)
    ensures |Column(rows, key)| <= |rows|
    ensures |Column(rows, key)| < |rows| <==> exists i :: 0 <= i < |rows| && key !in rows[i]
    ensures forall v :: v in Column(rows, key) <==> exists i :: 0 <= i < |rows| && key in rows[i] && rows[i][key] == v
  {
    if rows != [] {
      var init, last := rows[..|rows| - 1], rows[|rows| - 1];
      ColumnLen(init, key);
      assert forall i :: 0 <= i < |init| ==> init[i] == rows[i];
    }
  }

  // The values by what they print as.
  ghost function Dumps(r: Reader, vs: seq<Json>): set<string> {
    set v | v in vs && !v.Null? :: r.dump(v)
  }

  // What the dump shows is counted one value at a time, and told apart by what it prints as.
  lemma {:induction false} FoldCounts(r: Reader, vs: seq<Json>)
    ensures var st := Fold(r, vs);
            && st.distinct == Dumps(r, vs)
            && st.nulls == multiset(vs)[Null]
            && st.emptyStrings == multiset(vs)[Str("")]
            && st.intZeros == multiset(vs)[Int(0)]
  {
    if vs != [] {
      var init, last := vs[..|vs| - 1], vs[|vs| - 1];
      assert vs == init + [last];
      FoldCounts(r, init);
      FoldNext(r, init, last);
      MergeOne(r, Fold(r, init), last);
      hide Fold, Merge, One, ClassOf, ElementKinds;
      DumpsNext(r, init, last);
    }
  }

  lemma DumpsNext(r: Reader, vs: seq<Json>, v: Json)
    ensures Dumps(r, vs + [v]) == Dumps(r, vs) + if v.Null? then {} else {r.dump(v)}
  {
    assert forall x :: x in vs + [v] <==> x in vs || x == v;
  }

  lemma {:induction false} KeysAre(rows: seq<Row>, k: string)
    ensures k in Keys(rows) <==> exists i :: 0 <= i < |rows| && k in rows[i]
  {
    if rows != [] {
      var init, last := rows[..|rows| - 1], rows[|rows| - 1];
      KeysAre(init, k);
      assert forall i :: 0 <= i < |init| ==> init[i] == rows[i];
    }
  }
}

/** Why the text that is hashed cannot tell the platforms apart. */
module Platforms {
  import opened Text
  import opened Scan
  import opened Checksum
  import opened Literals
  import opened Seams
  import opened Wrappers
  import E = Engines

  // ----- a CREATE TABLE, on every platform

  // The CREATE TABLE the renderer builds: everything before the settings, the settings, the comment.
  datatype Table = Table(head: string, granularity: string, settings: seq<Setting>, comment: Option<string>)

  ghost predicate IsTable(t: Table) {
    Digits(t.granularity) && forall s <- t.settings :: IsSetting(s)
  }

  function Opening(t: Table): string {
    "CREATE TABLE IF NOT EXISTS " + t.head + "\nSETTINGS\n    index_granularity"
  }

  function Closing(t: Table): string {
    match t.comment
    case None => ""
    case Some(text) => "\nCOMMENT " + StringLiteral(text)
  }

  function TableText(t: Table): string {
    Opening(t) + (" = " + t.granularity + (SettingsText(t.settings) + Closing(t)))
  }

  function EngineOf(t: string): string {
    Sub(Engine, Sub(OnCluster, t))
  }

  lemma ClusterKeepsNumber(v: string, x: string)
    requires Digits(v)
    ensures Sub(OnCluster, " = " + v + x) == " = " + v + Sub(OnCluster, x)
  {
    hide Sub;
    var d := v + x;
    var c := "=" + (" " + d);
    assert " = " + v + x == " " + c;
    assert c[0] == '=' && d[0] == v[0];
    assert "ON CLUSTER"[0] == 'O';
    ClusterSkipsSpaces(" ", c);
    ClusterSkipsPlain("=", " " + d);
    ClusterSkipsSpaces(" ", d);
    ClusterSkipsPlain(v, x);
    var z := Sub(OnCluster, x);
    assert " " + ("=" + (" " + (v + z))) == " = " + v + z;
  }

  lemma ClosingStays(t: Table)
    ensures Sub(OnCluster, Closing(t)) == "" || Sub(OnCluster, Closing(t))[0] == '\n'
    ensures EngineOf(Closing(t)) == "" || EngineOf(Closing(t))[0] == '\n'
  {
    if t.comment.Some? {
      var x := "COMMENT " + StringLiteral(t.comment.value);
      assert Closing(t) == "\n" + x;
      assert x[0] == 'C' && "ON CLUSTER"[0] == 'O';
      ClusterSkipsSpaces("\n", x);
      EngineSplits("", "\n" + Sub(OnCluster, x));
      EngineSkipsBreak(Sub(OnCluster, x));
    }
  }

  lemma EngineSkipsBreak(x: string)
    ensures Sub(Engine, "\n" + x) == "\n" + Sub(Engine, x)
  {
    assert ("\n" + x)[0] == '\n' && ("\n" + x)[1..] == x;
  }

  // What the first two rules make of the table: the opening and the closing each by itself.
  lemma TableEngine(t: Table)
    requires IsTable(t)
    ensures EngineOf(TableText(t)) == EngineOf(Opening(t))
        + (" = " + t.granularity + (SettingsText(t.settings) + EngineOf(Closing(t))))
  {
    hide Sub, SettingsText, IsSetting, Closing;
    var a, v := Opening(t), t.granularity;
    assert a[|a| - 1] == 'y';
    var y := SettingsText(t.settings) + Closing(t);
    assert ClosedForCluster(a);
    hide Opening;
    ClusterSplits(a, " = " + v + y);
    ClusterKeepsNumber(v, y);
    ClusterKeepsSettings(t.settings, Closing(t));
    var c := Sub(OnCluster, Closing(t));
    EngineSplitsAtNumber(Sub(OnCluster, a), v, SettingsText(t.settings) + c);
    EngineKeepsSettings(t.settings, c);
  }

  lemma {:induction false} NotUpper(t: string, word: string, i: nat)
    requires i < |word| && i < |t| && Upper(t[i]) != word[i]
    ensures !StartsUpper(t, word)
  {
    if i > 0 {
      NotUpper(t[1..], word[1..], i - 1);
    }
  }

  lemma TablesAreNoDatabases(rest: string)
    ensures !CreatesDatabase(Sub(OnCluster, "CREATE TABLE" + rest))
  {
    hide Sub;
    var x := "TABLE" + rest;
    assert x[0] == 'T' && "ON CLUSTER"[0] == 'O';
    assert "CREATE TABLE" + rest == "CREATE" + (" " + x);
    ClusterSkipsPlain("CREATE", " " + x);
    ClusterSkipsSpaces(" ", x);
    ClusterSkipsPlain("TABLE", rest);
    var z := "CREATE" + (" " + ("TABLE" + Sub(OnCluster, rest)));
    assert z[0] == 'C' && z[7] == 'T' && Upper('T') == 'T';
    assert LTrim(z) == z;
    NotUpper(z, "CREATE DATABASE", 7);
  }

  lemma NeutralOfTable(names: seq<string>, text: string)
    requires "CREATE TABLE" <= text
    ensures Neutral(names, text) == Sub(PlatformSettings(names), EngineOf(text))
  {
    hide Sub, CreatesDatabase;
    assert text == "CREATE TABLE" + text[12..];
    TablesAreNoDatabases(text[12..]);
  }

  // The text of a CREATE TABLE with its platform tokens out, piece by piece: the settings the platforms
  // manage are gone, every other one stays, and nothing before them can hide one or be taken for one.
  lemma NeutralTable(names: seq<string>, t: Table)
    requires IsTable(t) && forall n <- names :: IsName(n)
    ensures Neutral(names, TableText(t))
         == Sub(PlatformSettings(names), EngineOf(Opening(t)) + " = " + t.granularity)
            + (SettingsText(Kept(t.settings, names)) + Sub(PlatformSettings(names), EngineOf(Closing(t))))
  {
    hide Sub, SettingsText, IsSetting, Closing, CreatesDatabase;
    var text := TableText(t);
    NeutralOfTable(names, text);
    TableEngine(t);
    var v, c := t.granularity, EngineOf(Closing(t));
    ClosingStays(t);
    SettingsEnd(t.settings, c);
    hide EngineOf, Opening;
    var g, y := EngineOf(Opening(t)) + " ", SettingsText(t.settings) + c;
    assert EngineOf(Opening(t)) + (" = " + v + y) == g + "= " + v + y;
    SettingsSplitAtNumber(names, g, v, y);
    assert g + "= " + v == EngineOf(Opening(t)) + " = " + v;
    SettingsSub(names, t.settings, c);
  }

  lemma {:induction false} SettingsTextApart(a: seq<Setting>, b: seq<Setting>)
    requires (forall s <- a :: IsSetting(s)) && (forall s <- b :: IsSetting(s))
    requires SettingsText(a) == SettingsText(b)
    ensures a == b
  {
    if a != [] && b != [] {
      var x, y := SettingsText(a[1..]), SettingsText(b[1..]);
      assert a[0] in a && b[0] in b;
      assert Ends(x) && Ends(y) by {
        assert x == x + "" && y == y + "";
        SettingsEnd(a[1..], "");
        SettingsEnd(b[1..], "");
      }
      SettingTextApart(a[0], x, b[0], y);
      SettingsTextApart(a[1..], b[1..]);
      assert a == [a[0]] + a[1..] && b == [b[0]] + b[1..];
    } else {
      SettingsLength(a);
      SettingsLength(b);
    }
  }

  lemma {:induction false} SettingsLength(settings: seq<Setting>)
    ensures |SettingsText(settings)| >= |settings|
  {
    if settings != [] {
      SettingsLength(settings[1..]);
      assert SettingText(settings[0])[0] == ',';
    }
  }

  lemma SettingTextApart(a: Setting, x: string, b: Setting, y: string)
    requires IsSetting(a) && IsSetting(b) && Ends(x) && Ends(y)
    requires SettingText(a) + x == SettingText(b) + y
    ensures a == b && x == y
  {
    SettingReads(a, x);
    SettingReads(b, y);
  }

  // A setting's name runs to the first space, and its value to the next separator.
  lemma SettingReads(s: Setting, x: string)
    requires IsSetting(s) && Ends(x)
    ensures var t := SettingText(s) + x;
            var n := PlainLen(t[6..]);
            n == |s.name| && t[6..6 + n] == s.name
            && var v := CellLen(t[9 + n..]); v == |s.value| && t[9 + n..9 + n + v] == s.value && t[9 + n + v..] == x
  {
    var t, n, k := SettingText(s) + x, |s.name|, |s.value|;
    NameIsPlain(s, x);
    hide *;
    SettingPlaces(s, x);
    CellOfNumber(s.value, x);
    assert t[6..6 + n] == t[6..][..n] && t[9 + n..9 + n + k] == t[9 + n..][..k] && t[9 + n + k..] == t[9 + n..][k..];
  }

  lemma NameIsPlain(s: Setting, x: string)
    requires IsSetting(s)
    ensures PlainLen(s.name + (" = " + s.value + x)) == |s.name| && Digits(s.value)
  {
    PlainLenLocal(s.name, " = " + s.value + x);
    assert PlainLen(s.name) == |s.name|;
  }

  lemma SettingPlaces(s: Setting, x: string)
    ensures var t, n := SettingText(s) + x, |s.name|;
            9 + n + |s.value| <= |t| && t[6..] == s.name + (" = " + s.value + x) && t[9 + n..] == s.value + x
  {
  }

  lemma {:induction false} KeptIsSettings(settings: seq<Setting>, names: seq<string>)
    requires forall s <- settings :: IsSetting(s)
    ensures forall s <- Kept(settings, names) :: IsSetting(s)
  {
    hide IsSetting;
    if settings != [] {
      KeptIsSettings(settings[1..], names);
    }
  }

  // Two tables that differ in nothing but their settings come to the same text exactly when they agree
  // on every setting the platforms do not manage.
  lemma SettingsTellTablesApart(names: seq<string>, t: Table, settings: seq<Setting>)
    requires IsTable(t) && IsTable(t.(settings := settings)) && forall n <- names :: IsName(n)
    ensures Neutral(names, TableText(t)) == Neutral(names, TableText(t.(settings := settings)))
            <==> Kept(t.settings, names) == Kept(settings, names)
  {
    var u := t.(settings := settings);
    NeutralTable(names, t);
    NeutralTable(names, u);
    KeptIsSettings(t.settings, names);
    KeptIsSettings(settings, names);
    assert Opening(u) == Opening(t) && Closing(u) == Closing(t);
    hide *;
    var a := Sub(PlatformSettings(names), EngineOf(Opening(t)) + " = " + t.granularity);
    var c := Sub(PlatformSettings(names), EngineOf(Closing(t)));
    var x, y := SettingsText(Kept(t.settings, names)), SettingsText(Kept(settings, names));
    if a + (x + c) == a + (y + c) {
      SameMiddle(a, x, y, c);
      SettingsTextApart(Kept(t.settings, names), Kept(settings, names));
    }
  }

  lemma SameMiddle(a: string, x: string, y: string, c: string)
    requires a + (x + c) == a + (y + c)
    ensures x == y
  {
    assert |x| == |y|;
    assert (a + (x + c))[|a|..|a| + |x|] == x && (a + (y + c))[|a|..|a| + |y|] == y;
  }

  // ----- the settings of a table with a JSON column

  // `{**settings, name: value}`: a name already there keeps its place.
  function Put(settings: seq<Setting>, s: Setting): seq<Setting> {
    if settings == [] then [s]
    else if settings[0].name == s.name then [s] + settings[1..]
    else [settings[0]] + Put(settings[1..], s)
  }

  function Merged(base: seq<Setting>, own: seq<Setting>): seq<Setting>
    decreases |own|
  {
    if own == [] then base else Merged(Put(base, own[0]), own[1..])
  }

  // The value of a name, as a dictionary holds it.
  function SettingOf(settings: seq<Setting>, name: string): Option<string> {
    if settings == [] then None
    else if settings[0].name == name then Some(settings[0].value)
    else SettingOf(settings[1..], name)
  }

  ghost predicate Distinct(settings: seq<Setting>) {
    forall i, j :: 0 <= i < j < |settings| ==> settings[i].name != settings[j].name
  }

  lemma {:induction false} PutIs(settings: seq<Setting>, s: Setting, name: string)
    ensures SettingOf(Put(settings, s), name) == if name == s.name then Some(s.value) else SettingOf(settings, name)
    ensures |settings| <= |Put(settings, s)|
    ensures forall i :: 0 <= i < |settings| ==> Put(settings, s)[i].name == settings[i].name
  {
    if settings != [] {
      PutIs(settings[1..], s, name);
    }
  }

  lemma {:induction false} SettingIsThere(settings: seq<Setting>, name: string)
    ensures SettingOf(settings, name).Some? <==> exists i :: 0 <= i < |settings| && settings[i].name == name
  {
    if settings != [] {
      SettingIsThere(settings[1..], name);
    }
  }

  // A name has the value that the platform gives it, else the one that every platform has, and the names that every
  // platform has come first and in their order.
  lemma {:induction false} MergedIs(base: seq<Setting>, own: seq<Setting>, name: string)
    requires Distinct(own)
    ensures SettingOf(Merged(base, own), name)
         == if SettingOf(own, name).Some? then SettingOf(own, name) else SettingOf(base, name)
    ensures |base| <= |Merged(base, own)|
    ensures forall i :: 0 <= i < |base| ==> Merged(base, own)[i].name == base[i].name
    decreases |own|
  {
    if own != [] {
      var s, more := own[0], own[1..];
      PutIs(base, s, name);
      MergedIs(Put(base, s), more, name);
      SettingIsThere(more, name);
      hide Put;
      assert forall i :: 0 <= i < |more| ==> more[i] == own[i + 1];
    }
  }

  // The table with what a platform adds to it: its own JSON settings over the ones every platform has.
  function OnPlatform(t: Table, json: bool, base: seq<Setting>, own: seq<Setting>): Table {
    if json then t.(settings := t.settings + Merged(base, own)) else t
  }

  lemma {:induction false} KeptConcat(a: seq<Setting>, b: seq<Setting>, names: seq<string>)
    ensures Kept(a + b, names) == Kept(a, names) + Kept(b, names)
  {
    if a == [] {
      assert a + b == b;
    } else {
      assert (a + b)[1..] == a[1..] + b;
      KeptConcat(a[1..], b, names);
    }
  }

  lemma {:induction false} KeptPut(settings: seq<Setting>, s: Setting, names: seq<string>)
    requires s.name in names
    ensures Kept(Put(settings, s), names) == Kept(settings, names)
  {
    if settings == [] {
      assert [s][1..] == [];
    } else if settings[0].name == s.name {
      assert ([s] + settings[1..])[1..] == settings[1..];
    } else {
      KeptPut(settings[1..], s, names);
      assert ([settings[0]] + Put(settings[1..], s))[1..] == Put(settings[1..], s);
    }
  }

  lemma {:induction false} KeptMerged(base: seq<Setting>, own: seq<Setting>, names: seq<string>)
    requires forall s <- own :: s.name in names
    ensures Kept(Merged(base, own), names) == Kept(base, names)
    decreases |own|
  {
    hide Put, Kept;
    if own != [] {
      KeptPut(base, own[0], names);
      KeptMerged(Put(base, own[0]), own[1..], names);
    }
  }

  lemma {:induction false} PutIsSettings(settings: seq<Setting>, s: Setting)
    requires IsSetting(s) && forall o <- settings :: IsSetting(o)
    ensures forall o <- Put(settings, s) :: IsSetting(o)
  {
    hide IsSetting;
    if settings != [] {
      PutIsSettings(settings[1..], s);
    }
  }

  lemma {:induction false} MergedIsSettings(base: seq<Setting>, own: seq<Setting>)
    requires (forall s <- base :: IsSetting(s)) && (forall s <- own :: IsSetting(s))
    ensures forall s <- Merged(base, own) :: IsSetting(s)
    decreases |own|
  {
    hide IsSetting, Put;
    if own != [] {
      assert own[0] in own;
      PutIsSettings(base, own[0]);
      MergedIsSettings(Put(base, own[0]), own[1..]);
    }
  }

  // The same definition rendered for two platforms is hashed as the same text.
  lemma TableIsPlatformBlind(names: seq<string>, t: Table, json: bool, base: seq<Setting>, one: seq<Setting>,
      other: seq<Setting>)
    requires IsTable(t) && (forall s <- base :: IsSetting(s)) && forall n <- names :: IsName(n)
    requires forall s <- one :: IsSetting(s) && s.name in names
    requires forall s <- other :: IsSetting(s) && s.name in names
    ensures Hashed(names, TableText(OnPlatform(t, json, base, one)))
        == Hashed(names, TableText(OnPlatform(t, json, base, other)))
  {
    hide Merged, Kept, IsSetting, IsName, Neutral, TableText;
    if json {
      MergedIsSettings(base, one);
      MergedIsSettings(base, other);
      var x, y := t.settings + Merged(base, one), t.settings + Merged(base, other);
      KeptConcat(t.settings, Merged(base, one), names);
      KeptConcat(t.settings, Merged(base, other), names);
      KeptMerged(base, one, names);
      KeptMerged(base, other, names);
      SettingsTellTablesApart(names, t.(settings := x), y);
      assert t.(settings := x).(settings := y) == t.(settings := y);
    }
  }

  // ----- one engine, three spellings

  // A clause behind the engine: the engine's arguments, or a line of its own.
  ghost predicate FollowsEngine(after: string) {
    after == "" || after[0] == '(' || (after[0] == '\n' && |after| > 1 && !IsSpace(after[1])
      && !("ON CLUSTER" <= after[1..]))
  }

  lemma {:induction false} FamilyNeedsNine(t: string)
    ensures FamilyLen(t) == 0 || FamilyLen(t) >= 9
  {
    if t != "" {
      FamilyNeedsNine(t[1..]);
    }
  }

  lemma {:induction false} FamilyWhole(stem: string, y: string)
    requires (forall i :: 0 <= i < |stem| ==> IsLetter(stem[i])) && (y == "" || !IsLetter(y[0]))
    ensures FamilyLen(stem + "MergeTree" + y) == |stem| + 9
  {
    var family := stem + "MergeTree";
    FamilyLocal(family, y);
    if stem == "" {
      assert family == "MergeTree" && IsLetter('M');
      assert FamilyLen(family[1..]) == 0 by { FamilyNeedsNine(family[1..]); }
    } else {
      assert family[1..] == stem[1..] + "MergeTree" && family[1..] + "" == family[1..];
      FamilyWhole(stem[1..], "");
    }
  }

  lemma FamilyIs(family: string, y: string)
    requires E.IsFamily(family) && (y == "" || !IsLetter(y[0]))
    ensures FamilyLen(family + y) == |family| > 2
  {
    var stem := family[..|family| - 9];
    assert family == stem + "MergeTree";
    FamilyWhole(stem, y);
  }

  lemma NameOfPlain(family: string, y: string)
    requires E.IsFamily(family) && !("Replicated" <= family) && (y == "" || !IsLetter(y[0]))
    ensures NameMatch(family + y) == Match(|family| + BracketsLen(y), family)
  {
    FamilyIs(family, y);
    PrefixLocal(family, y);
    assert PrefixLen(family) == 0;
    hide FamilyLen, PrefixLen, E.IsFamily, BracketsLen, IsLetter;
    var t, n := family + y, |family|;
    assert t[n..] == y && t[..n] == family && t[0..] == t;
    assert t[0..0 + n] == family && t[0 + n..] == y;
  }

  lemma NameOfReplicated(family: string, y: string)
    requires E.IsFamily(family) && (y == "" || !IsLetter(y[0]))
    ensures NameMatch("Replicated" + family + y) == Match(10 + |family| + BracketsLen(y), family)
  {
    FamilyIs(family, y);
    hide FamilyLen, E.IsFamily, BracketsLen, IsLetter;
    var t := "Replicated" + family + y;
    assert "Replicated" <= t && t[10..] == family + y;
    assert t[10..10 + |family|] == family && t[10 + |family|..] == y;
  }

  lemma EngineMatched(name: string, family: string, y: string, k: nat)
    requires NameMatch(name + y) == Match(|name| + k, family) && k <= |y|
    ensures MatchAt(Engine, "ENGINE = " + (name + y)) == Match(9 + |name| + k, "ENGINE = " + family)
    ensures ("ENGINE = " + (name + y))[9 + |name| + k..] == y[k..]
  {
    hide NameMatch;
    var t := "ENGINE = " + (name + y);
    assert "ENGINE = " <= t && t[9..] == name + y;
    assert t[9..][|name| + k..] == (name + y)[|name| + k..] == y[k..];
  }

  lemma EngineNamed(name: string, family: string, y: string, k: nat)
    requires NameMatch(name + y) == Match(|name| + k, family) && k <= |y|
    ensures Sub(Engine, "\nENGINE = " + name + y) == "\nENGINE = " + family + Sub(Engine, y[k..])
  {
    hide *;
    var e := "ENGINE = ";
    var t := e + (name + y);
    EngineMatched(name, family, y, k);
    EngineSkipsBreak(t);
    SubTakes(Engine, t, 9 + |name| + k, e + family);
    BreakFirst(name, y);
    BreakFirst(family, Sub(Engine, y[k..]));
    Assoc(e, family, Sub(Engine, y[k..]));
  }

  lemma BreakFirst(name: string, y: string)
    ensures "\nENGINE = " + name + y == "\n" + ("ENGINE = " + (name + y))
  {
    assert "\nENGINE = " == "\n" + "ENGINE = ";
  }

  lemma EngineParts(name: string, z: string)
    ensures "\nENGINE = " + name + z == "\n" + ("ENGINE" + (" " + ("=" + (" " + (name + z)))))
    ensures !IsSpace(("ENGINE" + (" " + ("=" + (" " + (name + z)))))[0]) && !IsSpace(("=" + (" " + (name + z)))[0])
    ensures !("ON CLUSTER" <= "ENGINE" + (" " + ("=" + (" " + (name + z)))))
        && !("ON CLUSTER" <= "=" + (" " + (name + z)))
    ensures AllSpace("\n") && AllSpace(" ") && forall i :: 0 <= i < 6 ==> !IsSpace("ENGINE"[i])
  {
    var c := "=" + (" " + (name + z));
    var b := "ENGINE" + (" " + c);
    assert b[0] == 'E' && c[0] == '=' && "ON CLUSTER"[0] == 'O';
  }

  lemma ClusterKeepsEngine(name: string, after: string)
    requires |name| > 2 && forall i :: 0 <= i < |name| ==> !IsSpace(name[i])
    ensures Sub(OnCluster, "\nENGINE = " + name + after) == "\nENGINE = " + name + Sub(OnCluster, after)
  {
    var d, z := name + after, Sub(OnCluster, after);
    assert d[0] == name[0] && d[2] == name[2] && "ON CLUSTER"[2] == ' ';
    Differs("ON CLUSTER", d, 2);
    EngineParts(name, after);
    EngineParts(name, z);
    assert !IsSpace('=');
    hide *;
    var c := "=" + (" " + d);
    var b := "ENGINE" + (" " + c);
    ClusterSkipsSpaces("\n", b);
    ClusterSkipsPlain("ENGINE", " " + c);
    ClusterSkipsSpaces(" ", c);
    ClusterSkipsPlain("=", " " + d);
    ClusterSkipsSpaces(" ", d);
    ClusterSkipsPlain(name, after);
  }

  // ON CLUSTER matches before and behind the engine are found as if the engine were not there.
  lemma ClusterBesideEngine(before: string, name: string, after: string)
    requires before != "" && before[|before| - 1] == ')'
    requires |name| > 2 && forall i :: 0 <= i < |name| ==> !IsSpace(name[i])
    ensures Sub(OnCluster, before + ("\nENGINE = " + name + after))
         == Sub(OnCluster, before) + ("\nENGINE = " + name + Sub(OnCluster, after))
  {
    var x := "\nENGINE = " + name + after;
    assert ClosedForCluster(before) && x[0] == '\n';
    hide Sub;
    ClusterSplits(before, x);
    ClusterKeepsEngine(name, after);
  }

  lemma AfterStays(after: string)
    requires FollowsEngine(after)
    ensures var z := Sub(OnCluster, after); if after == "" then z == "" else z != "" && z[0] == after[0]
  {
    hide Sub;
    if after != "" {
      var x := after[1..];
      assert after == [after[0]] + x;
      if after[0] == '(' {
        ClusterSkipsPlain("(", x);
      } else {
        ClusterSkipsSpaces("\n", x);
      }
    } else {
      assert after + "" == after;
      ClusterSkipsPlain("", after);
      SubOfNothing();
    }
  }

  lemma SubOfNothing()
    ensures Sub(OnCluster, "") == ""
  {
  }

  // A CREATE TABLE around its engine.
  function EngineText(before: string, name: string, after: string): string {
    before + ("\nENGINE = " + name + after)
  }

  ghost predicate IsTableHead(before: string) {
    "CREATE TABLE" <= before && before[|before| - 1] == ')'
  }

  lemma SpelledEngine(before: string, name: string, family: string, after: string, k: nat)
    requires before != "" && before[|before| - 1] == ')'
    requires |name| > 2 && forall i :: 0 <= i < |name| ==> !IsSpace(name[i])
    requires k <= |Sub(OnCluster, after)| && NameMatch(name + Sub(OnCluster, after)) == Match(|name| + k, family)
    ensures EngineOf(EngineText(before, name, after))
         == EngineOf(before) + ("\nENGINE = " + family + Sub(Engine, Sub(OnCluster, after)[k..]))
  {
    hide Sub, NameMatch;
    ClusterBesideEngine(before, name, after);
    var y := Sub(OnCluster, after);
    var x := "\nENGINE = " + name + y;
    assert x[0] == '\n';
    EngineSplits(Sub(OnCluster, before), x);
    EngineNamed(name, family, y, k);
  }

  lemma SpelledNeutral(names: seq<string>, before: string, name: string, family: string, after: string, k: nat)
    requires IsTableHead(before) && |name| > 2 && forall i :: 0 <= i < |name| ==> !IsSpace(name[i])
    requires k <= |Sub(OnCluster, after)| && NameMatch(name + Sub(OnCluster, after)) == Match(|name| + k, family)
    ensures Neutral(names, EngineText(before, name, after))
        == Spelled(names, before, family, Sub(OnCluster, after)[k..])
  {
    hide Sub, NameMatch, Neutral, EngineOf;
    assert "CREATE TABLE" <= EngineText(before, name, after);
    NeutralOfTable(names, EngineText(before, name, after));
    SpelledEngine(before, name, family, after, k);
  }

  function Spelled(names: seq<string>, before: string, family: string, rest: string): string {
    Sub(PlatformSettings(names), EngineOf(before) + ("\nENGINE = " + family + Sub(Engine, rest)))
  }

  lemma LettersArePlain(family: string)
    requires E.IsFamily(family)
    ensures |family| > 2 && forall i :: 0 <= i < |family| ==> !IsSpace(family[i])
  {
  }

  // The engine the renderer writes, the plain one, and the plain one with empty brackets are hashed as one.
  lemma SpellingIsBlind(names: seq<string>, before: string, family: string, after: string)
    requires IsTableHead(before) && E.IsFamily(family) && !("Replicated" <= family) && FollowsEngine(after)
    ensures Hashed(names, EngineText(before, "Replicated" + family, after))
        == Hashed(names, EngineText(before, family, after))
    ensures after == "" || after[0] != '(' ==>
              Hashed(names, EngineText(before, family + "()", after))
                == Hashed(names, EngineText(before, family, after))
  {
    PlainNeutral(names, before, family, after);
    ReplicatedNeutral(names, before, family, after);
    if after == "" || after[0] != '(' {
      BracketedNeutral(names, before, family, after);
    }
    hide *;
    HashedIsNeutral(names, EngineText(before, family, after), EngineText(before, "Replicated" + family, after));
    HashedIsNeutral(names, EngineText(before, family, after), EngineText(before, family + "()", after));
  }

  function BehindBrackets(y: string): string { y[BracketsLen(y)..] }

  // Where the plain name ends, and that it begins no prefix.
  lemma PlainMatch(family: string, after: string)
    requires E.IsFamily(family) && !("Replicated" <= family) && FollowsEngine(after)
    ensures var y := Sub(OnCluster, after); NameMatch(family + y) == Match(|family| + BracketsLen(y), family)
  {
    AfterStays(after);
    var y := Sub(OnCluster, after);
    assert y == "" || !IsLetter(y[0]);
    hide *;
    NameOfPlain(family, y);
  }

  lemma BehindIs(y: string)
    ensures BracketsLen(y) <= |y| && BehindBrackets(y) == y[BracketsLen(y)..]
  {
  }

  lemma PlainNeutral(names: seq<string>, before: string, family: string, after: string)
    requires IsTableHead(before) && E.IsFamily(family) && !("Replicated" <= family) && FollowsEngine(after)
    ensures Neutral(names, EngineText(before, family, after))
        == Spelled(names, before, family, BehindBrackets(Sub(OnCluster, after)))
  {
    hide *;
    LettersArePlain(family);
    PlainMatch(family, after);
    BehindIs(Sub(OnCluster, after));
    SpelledNeutral(names, before, family, family, after, BracketsLen(Sub(OnCluster, after)));
  }

  lemma ReplicatedIsPlain(family: string)
    requires forall i :: 0 <= i < |family| ==> !IsSpace(family[i])
    ensures forall i :: 0 <= i < |"Replicated" + family| ==> !IsSpace(("Replicated" + family)[i])
  {
    assert forall i :: 0 <= i < 10 ==> !IsSpace("Replicated"[i]);
    hide IsSpace;
  }

  lemma ReplicatedNeutral(names: seq<string>, before: string, family: string, after: string)
    requires IsTableHead(before) && E.IsFamily(family) && FollowsEngine(after)
    ensures Neutral(names, EngineText(before, "Replicated" + family, after))
        == Spelled(names, before, family, BehindBrackets(Sub(OnCluster, after)))
  {
    LettersArePlain(family);
    AfterStays(after);
    var y := Sub(OnCluster, after);
    NameOfReplicated(family, y);
    ReplicatedIsPlain(family);
    var name := "Replicated" + family;
    hide Sub, NameMatch, Neutral, Spelled, IsSpace, E.IsFamily, BracketsLen;
    SpelledNeutral(names, before, name, family, after, BracketsLen(y));
  }

  lemma BracketedNeutral(names: seq<string>, before: string, family: string, after: string)
    requires IsTableHead(before) && E.IsFamily(family) && !("Replicated" <= family) && FollowsEngine(after)
    requires after == "" || after[0] != '('
    ensures Neutral(names, EngineText(before, family + "()", after))
        == Spelled(names, before, family, BehindBrackets(Sub(OnCluster, after)))
  {
    AfterStays(after);
    var y := Sub(OnCluster, after);
    NameOfBracketed(family, y);
    hide Sub, NameMatch, Neutral, Spelled;
    SpelledNeutral(names, before, family + "()", family, after, 0);
    assert y[0..] == y;
  }

  lemma HashedIsNeutral(names: seq<string>, a: string, b: string)
    ensures Neutral(names, a) == Neutral(names, b) ==> Hashed(names, a) == Hashed(names, b)
  {
    hide Neutral;
  }

  lemma Bracketed(family: string, y: string)
    requires forall i :: 0 <= i < |family| ==> !IsSpace(family[i])
    ensures forall i :: 0 <= i < |family + "()"| ==> !IsSpace((family + "()")[i])
    ensures family + "()" + y == family + ("()" + y) && "()" <= "()" + y && !IsLetter(("()" + y)[0])
  {
    assert !IsSpace("()"[0]) && !IsSpace("()"[1]);
    hide IsSpace;
    assert ("()" + y)[0] == '(';
  }

  lemma NameOfBracketed(family: string, y: string)
    requires E.IsFamily(family) && !("Replicated" <= family) && (y == "" || y[0] == '\n')
    ensures BracketsLen(y) == 0
    ensures NameMatch(family + "()" + y) == Match(|family + "()"|, family)
    ensures forall i :: 0 <= i < |family + "()"| ==> !IsSpace((family + "()")[i])
  {
    LettersArePlain(family);
    Bracketed(family, y);
    hide NameMatch, E.IsFamily, IsSpace, IsLetter;
    NameOfPlain(family, "()" + y);
    assert "()"[0] == '(';
    assert y == "" || !("()" <= y);
  }
}

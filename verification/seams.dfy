/** Where the checksum's substitutions split: the ends of a text that no match straddles,
    and the text none starts in. */
module Seams {
  import opened Text
  import opened Scan
  import opened Checksum

  // ----- ON CLUSTER

  // The end of a text that an ON CLUSTER match cannot straddle.
  ghost predicate ClosedForCluster(a: string) {
    a != "" && !IsSpace(a[|a| - 1]) && a[|a| - 1] !in "ON CLUSTER"
  }

  lemma WordLocal(a: string, x: string)
    requires ClosedForCluster(a) && (x == "" || IsSpace(x[0]))
    ensures WordLen(a + x) == WordLen(a)
  {
    SpaceLenLocal(a, x, |a| - 1);
    hide IsSpace, SpaceLen, PlainLen;
    var q := SpaceLen(a);
    DropConcat(a, x, q);
    PlainLenLocal(a[q..], x);
  }

  lemma ClusterTailLocal(a: string, x: string)
    requires ClosedForCluster(a) && (x == "" || IsSpace(x[0]))
    ensures ClusterTail(a + x) == ClusterTail(a)
  {
    hide IsSpace, WordLen;
    PartLocal("ON CLUSTER", a, x, |a| - 1);
    if "ON CLUSTER" <= a {
      DropConcat(a, x, 10);
      assert a[10..][|a[10..]| - 1] == a[|a| - 1];
      WordLocal(a[10..], x);
    }
  }

  lemma ClusterLocal(a: string, x: string)
    requires ClosedForCluster(a) && (x == "" || IsSpace(x[0]))
    ensures ClusterLen(a + x) == ClusterLen(a)
  {
    hide IsSpace, ClusterTail;
    SpaceLenLocal(a, x, |a| - 1);
    hide SpaceLen;
    var s := SpaceLen(a);
    DropConcat(a, x, s);
    assert a[s..][|a[s..]| - 1] == a[|a| - 1];
    ClusterTailLocal(a[s..], x);
  }

  lemma ClusterSplits(a: string, x: string)
    requires ClosedForCluster(a) && (x == "" || IsSpace(x[0]))
    ensures Sub(OnCluster, a + x) == Sub(OnCluster, a) + Sub(OnCluster, x)
  {
    hide IsSpace, ClusterLen, Sub;
    forall i | 0 <= i < |a| ensures MatchAt(OnCluster, a[i..] + x) == MatchAt(OnCluster, a[i..]) {
      assert a[i..][|a| - i - 1] == a[|a| - 1];
      ClusterLocal(a[i..], x);
    }
    SubSplits(OnCluster, a, x);
  }

  lemma ClusterSkipsPlain(p: string, x: string)
    requires forall i :: 0 <= i < |p| ==> !IsSpace(p[i])
    ensures Sub(OnCluster, p + x) == p + Sub(OnCluster, x)
  {
    forall i | 0 <= i < |p| ensures MatchAt(OnCluster, p[i..] + x) == NoMatch {
      assert (p[i..] + x)[0] == p[i];
      assert SpaceLen(p[i..] + x) == 0;
    }
    SubSkips(OnCluster, p, x);
  }

  lemma ClusterSkipsSpaces(w: string, x: string)
    requires AllSpace(w) && x != "" && !IsSpace(x[0]) && !("ON CLUSTER" <= x)
    ensures Sub(OnCluster, w + x) == w + Sub(OnCluster, x)
  {
    forall i | 0 <= i < |w| ensures MatchAt(OnCluster, w[i..] + x) == NoMatch {
      var t := w[i..] + x;
      assert t[|w| - i] == x[0];
      assert SpaceLen(t) == |w| - i by {
        hide IsSpace;
        assert forall j :: 0 <= j < |w| - i ==> t[j] == w[i + j];
      }
      assert t[|w| - i..] == x;
    }
    SubSkips(OnCluster, w, x);
  }

  // ----- ENGINE

  predicate IsEngineChar(c: char) {
    IsLetter(c) || c == ' ' || c == '=' || c == '(' || c == ')'
  }

  lemma {:induction false} FamilyLocal(a: string, x: string)
    requires x == "" || !IsLetter(x[0])
    ensures FamilyLen(a + x) == FamilyLen(a)
  {
    if a == "" {
      assert a + x == x;
      assert FamilyLen("") == 0;
    } else {
      DropConcat(a, x, 1);
      FamilyLocal(a[1..], x);
      LettersLocal("MergeTree", a, x);
    }
  }

  lemma LettersLocal(part: string, a: string, x: string)
    requires forall c <- part :: IsEngineChar(c)
    requires x == "" || !IsEngineChar(x[0]) || (!IsLetter(x[0]) && forall c <- part :: IsLetter(c))
    ensures (part <= a + x) == (part <= a)
  {
    assert |a| < |a + x| ==> (a + x)[|a|] == x[0];
    assert |a| < |part| ==> part[|a|] in part;
    assert part <= a + x ==> part == (a + x)[..|part|] == a[..|part|];
  }

  // The end of a text that a match behind `ENGINE = ` does not reach past.
  ghost predicate OpenForName(x: string) {
    x == "" || (!IsLetter(x[0]) && x[0] != '(' && x[0] != ')')
  }

  lemma PrefixLocal(a: string, x: string)
    requires x == "" || !IsLetter(x[0])
    ensures PrefixLen(a + x) == PrefixLen(a)
  {
    LettersLocal("Replicated", a, x);
    if "Replicated" <= a {
      DropConcat(a, x, 10);
      FamilyLocal(a[10..], x);
    }
  }

  lemma NameLocal(a: string, x: string)
    requires OpenForName(x)
    ensures NameMatch(a + x) == NameMatch(a)
  {
    hide PrefixLen, FamilyLen, BracketsLen;
    PrefixLocal(a, x);
    var k := PrefixLen(a);
    DropConcat(a, x, k);
    FamilyLocal(a[k..], x);
    var n := FamilyLen(a[k..]);
    DropConcat(a, x, k + n);
    BracketsLocal(a[k + n..], x);
    assert (a + x)[k..k + n] == a[k..k + n];
  }

  lemma EngineTail(a: string, x: string)
    requires "ENGINE = " <= a && OpenForName(x)
    ensures EngineMatch(a + x) == EngineMatch(a)
  {
    hide NameMatch;
    DropConcat(a, x, 9);
    assert "ENGINE = " <= a + x;
    NameLocal(a[9..], x);
  }

  lemma BracketsLocal(a: string, x: string)
    requires x == "" || (x[0] != '(' && x[0] != ')')
    ensures BracketsLen(a + x) == BracketsLen(a)
  {
    assert |a| < 2 && |a + x| >= 2 ==> (a + x)[|a|] == x[0];
    assert "()"[0] == '(' && "()"[1] == ')';
    assert |a| >= 2 ==> (a + x)[..2] == a[..2];
  }

  lemma EngineLocal(a: string, x: string)
    requires x == "" || !IsEngineChar(x[0])
    ensures EngineMatch(a + x) == EngineMatch(a)
  {
    LettersLocal("ENGINE = ", a, x);
    if "ENGINE = " <= a {
      EngineTail(a, x);
    }
  }

  lemma EngineSplits(a: string, x: string)
    requires x == "" || !IsEngineChar(x[0])
    ensures Sub(Engine, a + x) == Sub(Engine, a) + Sub(Engine, x)
  {
    forall i | 0 <= i < |a| ensures MatchAt(Engine, a[i..] + x) == MatchAt(Engine, a[i..]) {
      EngineLocal(a[i..], x);
    }
    SubSplits(Engine, a, x);
  }

  predicate IsDigit(c: char) {
    '0' <= c <= '9'
  }

  predicate Digits(v: string) {
    v != "" && forall i :: 0 <= i < |v| ==> IsDigit(v[i])
  }

  lemma EngineNeedsLetter(t: string)
    requires EngineMatch(t).Match?
    ensures |t| > 9 && "ENGINE = " <= t && IsLetter(t[9])
  {
    var r := t[9..];
    assert r != "" ==> r[0] == t[9];
    assert r == "" ==> FamilyLen(r) == 0;
  }

  // An assignment of a number is no engine, even where the name before it ends in ENGINE.
  lemma NoNumericEngine(u: string, v: string, x: string)
    requires Digits(v) && |u| < 9
    ensures EngineMatch(u + " = " + v + x) == NoMatch
  {
    var t, k := u + " = " + v + x, |u|;
    assert t[k] == ' ' && t[k + 1] == '=' && t[k + 2] == ' ' && t[k + 3] == v[0];
    assert t[k..k + 3] == " = ";
    if "ENGINE = " <= t && |t| > 9 {
      EngineSpells(t, k);
      assert !IsLetter(t[9]);
    }
    if EngineMatch(t).Match? {
      EngineNeedsLetter(t);
    }
  }

  lemma EngineSpells(t: string, k: nat)
    requires k < 9 < |t| && "ENGINE = " <= t && k + 3 < |t| && t[k..k + 3] == " = "
    ensures k == 6 || (k == 8 && t[9] == '=')
  {
    assert t[..9] == "ENGINE = ";
    assert t[k] == ' ' && t[k + 1] == '=';
  }

  lemma EngineSplitsAtNumber(g: string, v: string, x: string)
    requires Digits(v)
    ensures Sub(Engine, g + (" = " + v + x)) == Sub(Engine, g) + (" = " + v + Sub(Engine, x))
  {
    var y := " = " + v + x;
    forall i | 0 <= i < |g| ensures MatchAt(Engine, g[i..] + y) == MatchAt(Engine, g[i..]) {
      var a := g[i..];
      if "ENGINE = " <= a {
        EngineTail(a, y);
      } else if |a| < 9 {
        assert a + y == a + " = " + v + x;
        NoNumericEngine(a, v, x);
      } else {
        assert (a + y)[..9] == a[..9];
      }
    }
    SubSplits(Engine, g, y);
    EngineSkipsNumber(v, x);
  }

  lemma EngineSkipsNumber(v: string, x: string)
    requires Digits(v)
    ensures Sub(Engine, " = " + v + x) == " = " + v + Sub(Engine, x)
  {
    var p := " = " + v;
    forall i | 0 <= i < |p| ensures MatchAt(Engine, p[i..] + x) == NoMatch {
      assert (p[i..] + x)[0] == p[i] != 'E';
    }
    SubSkips(Engine, p, x);
  }

  lemma EngineSkipsSetting(u: string, v: string, x: string)
    requires Digits(v) && '=' !in u
    ensures Sub(Engine, u + (" = " + v + x)) == u + (" = " + v + Sub(Engine, x))
  {
    var y := " = " + v + x;
    forall i | 0 <= i < |u| ensures MatchAt(Engine, u[i..] + y) == NoMatch {
      var a := u[i..];
      if |a| < 9 {
        assert a + y == a + " = " + v + x;
        NoNumericEngine(a, v, x);
      } else {
        assert (a + y)[7] == u[i + 7];
        assert "ENGINE = "[7] == '=';
      }
    }
    SubSkips(Engine, u, y);
    EngineSkipsNumber(v, x);
  }

  // ----- settings

  datatype Setting = Setting(name: string, value: string)

  // A setting's name holds nothing that separates settings, and its value is a number.
  predicate IsName(n: string) {
    n != "" && forall i :: 0 <= i < |n| ==> !IsSpace(n[i]) && n[i] != '=' && n[i] != ','
  }

  predicate IsSetting(s: Setting) {
    IsName(s.name) && Digits(s.value)
  }

  function SettingText(s: Setting): string {
    ",\n    " + s.name + (" = " + s.value)
  }

  function SettingsText(settings: seq<Setting>): string {
    if settings == [] then "" else SettingText(settings[0]) + SettingsText(settings[1..])
  }

  // The settings whose names the normaliser does not know.
  function Kept(settings: seq<Setting>, names: seq<string>): seq<Setting> {
    if settings == [] then []
    else (if settings[0].name in names then [] else [settings[0]]) + Kept(settings[1..], names)
  }

  // What can follow a setting.
  ghost predicate Ends(x: string) {
    x == "" || x[0] == ',' || x[0] == '\n'
  }

  lemma {:induction false} CellLocal(a: string, x: string)
    requires Ends(x)
    ensures CellLen(a + x) == CellLen(a)
  {
    if a == "" {
      assert a + x == x;
    } else {
      DropConcat(a, x, 1);
      CellLocal(a[1..], x);
    }
  }

  lemma {:induction false} ValueLocal(a: string, x: string)
    requires a != "" && !IsSpace(a[|a| - 1]) && Ends(x)
    ensures ValueLen(a + x) == ValueLen(a)
  {
    hide CellLen;
    CellLocal(a, x);
    if |a| > 1 {
      DropConcat(a, x, 1);
      ValueLocal(a[1..], x);
    }
  }

  lemma SetLocal(r: string, x: string, i: nat)
    requires i + 1 < |r| && r[i] == '=' && !IsSpace(r[|r| - 1]) && Ends(x)
    ensures SetLen(r + x) == SetLen(r)
  {
    assert !IsSpace('=');
    hide ValueLen, SpaceLen, IsSpace, Ends;
    SpaceLenLocal(r, x, i);
    var n := SpaceLen(r);
    assert (r + x)[n] == r[n];
    if r[n] == '=' {
      var v := r[n + 1..];
      DropConcat(r, x, n + 1);
      assert v[|v| - 1] == r[|r| - 1];
      ValueLocal(v, x);
    }
  }

  lemma OneNamedLocal(name: string, h: string, v: string, x: string)
    requires '=' !in name && Digits(v) && Ends(x)
    ensures OneNamedLen(name, h + "= " + v + x) == OneNamedLen(name, h + "= " + v)
  {
    hide SetLen;
    var b := h + "= " + v;
    PartLocal(name, b, x, |h|);
    if name <= b {
      DropConcat(b, x, |name|);
      var r := b[|name|..];
      assert r[|h| - |name|] == '=' && r[|r| - 1] == v[|v| - 1];
      SetLocal(r, x, |h| - |name|);
    }
  }

  lemma {:induction false} NamedLocal(names: seq<string>, h: string, v: string, x: string)
    requires (forall n <- names :: '=' !in n) && Digits(v) && Ends(x)
    ensures NamedLen(names, h + "= " + v + x) == NamedLen(names, h + "= " + v)
    decreases |names|
  {
    hide OneNamedLen;
    if names != [] {
      OneNamedLocal(names[0], h, v, x);
      NamedLocal(names[1..], h, v, x);
    }
  }

  lemma SettingLocal(names: seq<string>, g: string, v: string, x: string)
    requires (forall n <- names :: '=' !in n) && Digits(v) && Ends(x) && g != ""
    ensures SettingLen(names, g + "= " + v + x) == SettingLen(names, g + "= " + v)
  {
    hide NamedLen, SpaceLen;
    var a := g + "= " + v;
    if g[0] == ',' {
      DropConcat(a, x, 1);
      var b := a[1..];
      assert b[|g| - 1] == '=';
      SpaceLenLocal(b, x, |g| - 1);
      var s := SpaceLen(b);
      DropConcat(b, x, s);
      assert a[1 + s..] == b[s..] && (a + x)[1 + s..] == (b + x)[s..];
      var h := g[1 + s..];
      assert b[s..] == h + "= " + v;
      assert b[s..] + x == h + "= " + v + x;
      NamedLocal(Alternatives(names), h, v, x);
    }
  }

  lemma SettingsSplitAtNumber(names: seq<string>, g: string, v: string, x: string)
    requires (forall n <- names :: '=' !in n) && Digits(v) && Ends(x)
    ensures Sub(PlatformSettings(names), g + "= " + v + x)
         == Sub(PlatformSettings(names), g + "= " + v) + Sub(PlatformSettings(names), x)
  {
    var a := g + "= " + v;
    forall i | 0 <= i < |a| ensures MatchAt(PlatformSettings(names), a[i..] + x)
      == MatchAt(PlatformSettings(names), a[i..]) {
      if i < |g| {
        assert a[i..] == g[i..] + "= " + v;
        assert a[i..] + x == g[i..] + "= " + v + x;
        SettingLocal(names, g[i..], v, x);
      } else {
        assert (a[i..] + x)[0] == a[i..][0] == a[i] != ',';
      }
    }
    SubSplits(PlatformSettings(names), a, x);
  }

  lemma {:induction false} CellOfNumber(v: string, x: string)
    requires (forall i :: 0 <= i < |v| ==> IsDigit(v[i])) && Ends(x)
    ensures CellLen(v + x) == |v|
  {
    if v == "" {
      assert v + x == x;
    } else {
      DropConcat(v, x, 1);
      CellOfNumber(v[1..], x);
    }
  }

  lemma SetOfNumber(v: string, x: string)
    requires Digits(v) && Ends(x)
    ensures SetLen(" = " + v + x) == 3 + |v|
  {
    var t := " = " + v + x;
    assert t[0] == ' ' && t[1] == '=';
    assert SpaceLen(t) == 1;
    var y := " " + (v + x);
    assert t[2..] == y && y[1..] == v + x && (v + x)[0] == v[0];
    CellOfNumber(v, x);
    assert ValueLen(v + x) == |v|;
    assert ValueLen(y) == 1 + |v|;
  }

  lemma OneNamedOfSetting(p: string, s: Setting, x: string)
    requires (p == "" || IsName(p)) && IsSetting(s) && Ends(x)
    ensures OneNamedLen(p, s.name + (" = " + s.value) + x) == if p == s.name then |s.name| + 3 + |s.value| else 0
  {
    var t := s.name + (" = " + s.value) + x;
    assert t[|s.name|] == ' ';
    assert t == s.name + (" = " + s.value + x);
    if p == s.name {
      assert t[|p|..] == " = " + s.value + x;
      SetOfNumber(s.value, x);
    } else if |p| > |s.name| {
      Differs(p, t, |s.name|);
    } else if |p| == |s.name| {
      assert t[..|p|] == s.name;
    } else {
      var r := t[|p|..];
      assert r[0] == s.name[|p|];
      assert SpaceLen(r) == 0;
    }
  }

  lemma {:induction false} NamedOfSetting(names: seq<string>, s: Setting, x: string)
    requires (forall n <- names :: n == "" || IsName(n)) && IsSetting(s) && Ends(x)
    ensures NamedLen(names, s.name + (" = " + s.value) + x) == if s.name in names then |s.name| + 3 + |s.value| else 0
    decreases |names|
  {
    hide OneNamedLen, IsSetting, IsName;
    if names != [] {
      OneNamedOfSetting(names[0], s, x);
      NamedOfSetting(names[1..], s, x);
    }
  }

  lemma SettingOfSetting(names: seq<string>, s: Setting, x: string)
    requires (forall n <- names :: IsName(n)) && IsSetting(s) && Ends(x)
    ensures SettingLen(names, SettingText(s) + x) == if s.name in names then |SettingText(s)| else 0
  {
    var t, b := SettingText(s) + x, s.name + (" = " + s.value) + x;
    assert t == "," + ("\n    " + b);
    var w := "\n    " + b;
    assert t[1..] == w;
    assert AllSpace("\n    ") && w[5] == b[0] == s.name[0];
    assert SpaceLen(w) == 5 by {
      assert w[0] == '\n' && w[1] == ' ' && w[2] == ' ' && w[3] == ' ' && w[4] == ' ';
    }
    assert t[6..] == b;
    NamedOfSetting(Alternatives(names), s, x);
  }

  lemma SettingsSkipCommaFree(names: seq<string>, p: string, x: string)
    requires ',' !in p
    ensures Sub(PlatformSettings(names), p + x) == p + Sub(PlatformSettings(names), x)
  {
    forall i | 0 <= i < |p| ensures MatchAt(PlatformSettings(names), p[i..] + x) == NoMatch {
      assert (p[i..] + x)[0] == p[i];
    }
    SubSkips(PlatformSettings(names), p, x);
  }

  lemma SettingMatch(names: seq<string>, s: Setting, x: string)
    requires (forall n <- names :: IsName(n)) && IsSetting(s) && Ends(x)
    ensures MatchAt(PlatformSettings(names), SettingText(s) + x)
         == if s.name in names then Match(|SettingText(s)|, "") else NoMatch
  {
    SettingOfSetting(names, s, x);
    hide SettingLen, IsSetting, IsName;
  }

  function AfterComma(s: Setting): string {
    "\n    " + s.name + (" = " + s.value)
  }

  lemma SettingParts(s: Setting)
    requires IsSetting(s)
    ensures SettingText(s) == [','] + AfterComma(s) && ',' !in AfterComma(s)
  {
  }

  lemma OneSettingSub(names: seq<string>, s: Setting, x: string)
    requires (forall n <- names :: IsName(n)) && IsSetting(s) && Ends(x)
    ensures Sub(PlatformSettings(names), SettingText(s) + x)
         == (if s.name in names then "" else SettingText(s)) + Sub(PlatformSettings(names), x)
  {
    hide *;
    SettingMatch(names, s, x);
    SettingParts(s);
    var rule, u, p := PlatformSettings(names), SettingText(s), AfterComma(s);
    if s.name in names {
      assert u != "" by { assert u == [','] + p; }
      SubTakes(rule, u + x, |u|, "");
      assert (u + x)[|u|..] == x && "" + Sub(rule, x) == Sub(rule, x);
    } else {
      assert u + x == [','] + (p + x);
      SubKeeps(rule, ',', p + x);
      SettingsSkipCommaFree(names, p, x);
      var z := Sub(rule, x);
      assert [','] + (p + z) == u + z;
    }
  }

  lemma SettingsEnd(settings: seq<Setting>, x: string)
    requires Ends(x)
    ensures Ends(SettingsText(settings) + x)
  {
  }

  lemma KeptStep(s: Setting, rest: seq<Setting>, names: seq<string>)
    ensures SettingsText(Kept([s] + rest, names))
         == (if s.name in names then "" else SettingText(s)) + SettingsText(Kept(rest, names))
  {
    hide SettingText;
    var kept := Kept(rest, names);
    assert ([s] + rest)[1..] == rest;
    if s.name in names {
      assert [] + kept == kept && "" + SettingsText(kept) == SettingsText(kept);
    } else {
      assert ([s] + kept)[0] == s && ([s] + kept)[1..] == kept;
    }
  }

  lemma TextStep(s: Setting, rest: seq<Setting>, x: string)
    ensures SettingsText([s] + rest) + x == SettingText(s) + (SettingsText(rest) + x)
  {
    hide SettingText;
    assert ([s] + rest)[0] == s && ([s] + rest)[1..] == rest;
  }

  lemma NoSettings(x: string, names: seq<string>)
    ensures SettingsText([]) + x == x && SettingsText(Kept([], names)) + x == x
  {
  }

  lemma {:induction false} SettingsSub(names: seq<string>, settings: seq<Setting>, x: string)
    requires (forall n <- names :: IsName(n)) && (forall s <- settings :: IsSetting(s)) && Ends(x)
    ensures Sub(PlatformSettings(names), SettingsText(settings) + x)
         == SettingsText(Kept(settings, names)) + Sub(PlatformSettings(names), x)
  {
    hide *;
    var z := Sub(PlatformSettings(names), x);
    if settings == [] {
      NoSettings(x, names);
      NoSettings(z, names);
    } else {
      var s, rest := settings[0], settings[1..];
      assert settings == [s] + rest && s in settings;
      SettingsEnd(rest, x);
      TextStep(s, rest, x);
      OneSettingSub(names, s, SettingsText(rest) + x);
      SettingsSub(names, rest, x);
      KeptStep(s, rest, names);
      Assoc(if s.name in names then "" else SettingText(s), SettingsText(Kept(rest, names)), z);
    }
  }

  // ----- the other two rules leave settings alone

  lemma NoNamedCluster(k: string, b: string)
    requires IsName(k) && k <= b && |k| + 1 < |b| && b[|k|] == ' ' && b[|k| + 1] == '='
    ensures !("ON CLUSTER" <= b)
  {
    Differs("ON CLUSTER", b, if |k| == 1 then 1 else if |k| == 2 then 3 else 2);
  }

  lemma ClusterKeepsSetting(s: Setting, x: string)
    requires IsSetting(s)
    ensures Sub(OnCluster, SettingText(s) + x) == SettingText(s) + Sub(OnCluster, x)
  {
    hide Sub;
    var w, k, v := "\n    ", s.name, s.value;
    var d := v + x;
    var c := "=" + (" " + d);
    var b := k + (" " + c);
    assert SettingText(s) + x == "," + (w + b);
    ClusterSkipsPlain(",", w + b);
    assert b[0] == k[0] && b[|k|] == ' ' && b[|k| + 1] == '=';
    NoNamedCluster(k, b);
    ClusterSkipsSpaces(w, b);
    ClusterSkipsPlain(k, " " + c);
    assert c[0] == '=' && d[0] == v[0];
    assert "ON CLUSTER"[0] == 'O';
    ClusterSkipsSpaces(" ", c);
    ClusterSkipsPlain("=", " " + d);
    ClusterSkipsSpaces(" ", d);
    ClusterSkipsPlain(v, x);
    var z := Sub(OnCluster, x);
    assert "," + (w + (k + (" " + ("=" + (" " + (v + z)))))) == SettingText(s) + z;
  }

  lemma {:induction false} ClusterKeepsSettings(settings: seq<Setting>, x: string)
    requires forall s <- settings :: IsSetting(s)
    ensures Sub(OnCluster, SettingsText(settings) + x) == SettingsText(settings) + Sub(OnCluster, x)
  {
    if settings == [] {
      assert SettingsText(settings) + x == x;
    } else {
      hide *;
      var s, rest := settings[0], settings[1..];
      assert settings == [s] + rest && s in settings;
      TextStep(s, rest, x);
      ClusterKeepsSetting(s, SettingsText(rest) + x);
      ClusterKeepsSettings(rest, x);
      TextStep(s, rest, Sub(OnCluster, x));
    }
  }

  lemma SettingSpread(s: Setting, y: string)
    requires IsSetting(s)
    ensures SettingText(s) + y == ",\n    " + s.name + (" = " + s.value + y)
    ensures '=' !in ",\n    " + s.name && Digits(s.value)
  {
    assert forall i :: 0 <= i < 6 ==> ",\n    "[i] != '=';
  }

  lemma {:induction false} EngineKeepsSettings(settings: seq<Setting>, x: string)
    requires forall s <- settings :: IsSetting(s)
    ensures Sub(Engine, SettingsText(settings) + x) == SettingsText(settings) + Sub(Engine, x)
  {
    if settings == [] {
      assert SettingsText(settings) + x == x;
    } else {
      hide *;
      var s, rest := settings[0], settings[1..];
      assert settings == [s] + rest && s in settings;
      var y, z := SettingsText(rest) + x, SettingsText(rest) + Sub(Engine, x);
      TextStep(s, rest, x);
      SettingSpread(s, y);
      SettingSpread(s, z);
      EngineSkipsSetting(",\n    " + s.name, s.value, y);
      EngineKeepsSettings(rest, x);
      TextStep(s, rest, Sub(Engine, x));
    }
  }
}

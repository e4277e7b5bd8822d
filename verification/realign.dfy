/** Settings realignment: what moving a live table between platforms leaves on it. */
module Realign {
  import opened Order

  type Settings = map<string, string>

  datatype SettingsRealign = SettingsRealign(changes: seq<(string, string)>, resets: seq<string>)

  // The platforms' own settings of a JSON table, by platform name, and those every platform shares.
  datatype Catalogue = Catalogue(platforms: map<string, Settings>, shared: Settings)

  // Every setting some platform gives a JSON table.
  ghost function PlatformOnly(c: Catalogue): set<string> {
    set p, k | p in c.platforms && k in c.platforms[p] :: k
  }

  // `{**JSON_TABLE_SETTINGS, **platform_json_settings(platform)}`.
  function SettingsOn(c: Catalogue, platform: string): Settings
    requires platform in c.platforms
  {
    c.shared + c.platforms[platform]
  }

  ghost function Pairs(names: seq<string>, wanted: Settings): (r: seq<(string, string)>)
    requires forall n :: n in names ==> n in wanted
    ensures |r| == |names| && forall i :: 0 <= i < |names| ==> r[i] == (names[i], wanted[names[i]])
  {
    if names == [] then [] else [(names[0], wanted[names[0]])] + Pairs(names[1..], wanted)
  }

  // The wanted settings that are not at their value.
  function Off(wanted: Settings, live: Settings): (s: set<string>)
    ensures forall k :: k in s <==> k in wanted && (k !in live || live[k] != wanted[k])
  {
    set k | k in wanted && (k !in live || live[k] != wanted[k])
  }

  // The live settings that only another platform sets.
  function Stray(platformOnly: set<string>, wanted: Settings, live: Settings): (s: set<string>)
    ensures forall k :: k in s <==> k in platformOnly && k in live && k !in wanted
  {
    set k | k in platformOnly && k in live && k !in wanted
  }

  ghost function RealignSettings(platformOnly: set<string>, wanted: Settings, live: Settings): SettingsRealign {
    SettingsRealign(Pairs(Sorted(Off(wanted, live)), wanted), Sorted(Stray(platformOnly, wanted, live)))
  }

  // `ALTER TABLE ... MODIFY SETTING`, one assignment after another.
  function Modified(live: Settings, changes: seq<(string, string)>): Settings
    decreases |changes|
  {
    if changes == [] then live else Modified(live[changes[0].0 := changes[0].1], changes[1..])
  }

  // `ALTER TABLE ... RESET SETTING`.
  function Reset(live: Settings, reset: seq<string>): Settings
    decreases |reset|
  {
    if reset == [] then live else Reset(live - {reset[0]}, reset[1..])
  }

  function Apply(live: Settings, r: SettingsRealign): Settings {
    Reset(Modified(live, r.changes), r.resets)
  }

  lemma SameSettings(a: Settings, b: Settings)
    requires forall k :: (k in a <==> k in b) && (k in a ==> a[k] == b[k])
    ensures a == b
  {
    assert a.Keys == b.Keys;
  }

  lemma {:induction false} ModifiedAt(live: Settings, names: seq<string>, wanted: Settings, k: string)
    requires forall n :: n in names ==> n in wanted
    ensures var m := Modified(live, Pairs(names, wanted));
            (k in m <==> k in live || k in names) && (k in m ==> m[k] == if k in names then wanted[k] else live[k])
    decreases |names|
  {
    if names != [] {
      var ps := Pairs(names, wanted);
      assert ps[1..] == Pairs(names[1..], wanted);
      assert names == [names[0]] + names[1..];
      ModifiedAt(live[names[0] := wanted[names[0]]], names[1..], wanted, k);
    } else {
      assert Pairs(names, wanted) == [];
    }
  }

  lemma {:induction false} ResetAt(live: Settings, names: seq<string>, k: string)
    ensures var m := Reset(live, names); (k in m <==> k in live && k !in names) && (k in m ==> m[k] == live[k])
    decreases |names|
  {
    if names != [] {
      assert names == [names[0]] + names[1..];
      ResetAt(live - {names[0]}, names[1..], k);
    }
  }

  lemma ApplyAt(platformOnly: set<string>, wanted: Settings, live: Settings, k: string)
    ensures var after := Apply(live, RealignSettings(platformOnly, wanted, live));
            && (k in after <==> k in wanted || (k in live && k !in platformOnly))
            && (k in after ==> after[k] == if k in wanted then wanted[k] else live[k])
  {
    var off, stray := Sorted(Off(wanted, live)), Sorted(Stray(platformOnly, wanted, live));
    hide Less, Modified, Reset, Off, Stray, Pairs;
    var mid := Modified(live, Pairs(off, wanted));
    ModifiedAt(live, off, wanted, k);
    ResetAt(mid, stray, k);
  }

  // Applying a realignment gives the wanted settings over the live ones no platform manages.
  lemma RealignReaches(platformOnly: set<string>, wanted: Settings, live: Settings)
    ensures Apply(live, RealignSettings(platformOnly, wanted, live)) == (live - platformOnly) + wanted
  {
    hide Apply, RealignSettings;
    var after := Apply(live, RealignSettings(platformOnly, wanted, live));
    forall k
      ensures k in after <==> k in (live - platformOnly) + wanted
      ensures k in after ==> after[k] == ((live - platformOnly) + wanted)[k]
    {
      ApplyAt(platformOnly, wanted, live, k);
    }
    SameSettings(after, (live - platformOnly) + wanted);
  }

  ghost predicate Aligned(platformOnly: set<string>, wanted: Settings, live: Settings) {
    && (forall k :: k in wanted ==> k in live && live[k] == wanted[k])
    && (forall k :: k in platformOnly && k in live ==> k in wanted)
  }

  // There is nothing to do exactly when the table is aligned, and it is once the statements have run.
  lemma NothingLeftToDo(platformOnly: set<string>, wanted: Settings, live: Settings)
    ensures RealignSettings(platformOnly, wanted, live) == SettingsRealign([], [])
        <==> Aligned(platformOnly, wanted, live)
    ensures var after := Apply(live, RealignSettings(platformOnly, wanted, live));
            RealignSettings(platformOnly, wanted, after) == SettingsRealign([], [])
  {
    EmptyIsAligned(platformOnly, wanted, live);
    RealignReaches(platformOnly, wanted, live);
    EmptyIsAligned(platformOnly, wanted, (live - platformOnly) + wanted);
    assert Aligned(platformOnly, wanted, (live - platformOnly) + wanted);
    hide RealignSettings, Apply, Aligned;
  }

  lemma EmptyIsAligned(platformOnly: set<string>, wanted: Settings, live: Settings)
    ensures RealignSettings(platformOnly, wanted, live) == SettingsRealign([], [])
        <==> Aligned(platformOnly, wanted, live)
  {
    var off, stray := Off(wanted, live), Stray(platformOnly, wanted, live);
    var r := RealignSettings(platformOnly, wanted, live);
    hide Less, Off, Stray, Sorted;
    assert |r.changes| == |off| && |r.resets| == |stray|;
    EmptySet(off);
    EmptySet(stray);
  }

  lemma EmptySet(s: set<string>)
    ensures |s| == 0 <==> forall k :: k !in s
  {
    if |s| != 0 {
      assert Any(s) in s;
    } else {
      assert s == {};
    }
  }

  // ----- moving between platforms

  ghost function Move(c: Catalogue, live: Settings, platform: string): Settings
    requires platform in c.platforms
  {
    Apply(live, RealignSettings(PlatformOnly(c), SettingsOn(c, platform), live))
  }

  ghost function Moves(c: Catalogue, live: Settings, platforms: seq<string>): Settings
    requires forall p :: p in platforms ==> p in c.platforms
  {
    if platforms == [] then live
    else Move(c, Moves(c, live, platforms[..|platforms| - 1]), platforms[|platforms| - 1])
  }

  // The settings an operator added by hand: those that no platform and no JSON table carries.
  ghost function Operators(c: Catalogue, live: Settings): Settings {
    live - PlatformOnly(c) - c.shared.Keys
  }

  // After any moves a table carries the operator's own settings and what the last platform gives it.
  lemma {:induction false} MovesConverge(c: Catalogue, live: Settings, platforms: seq<string>)
    requires platforms != [] && forall p :: p in platforms ==> p in c.platforms
    ensures Moves(c, live, platforms) == Operators(c, live) + SettingsOn(c, platforms[|platforms| - 1])
  {
    var init, last := platforms[..|platforms| - 1], platforms[|platforms| - 1];
    var mid := Moves(c, live, init);
    if init != [] {
      MovesConverge(c, live, init);
      assert init[|init| - 1] in platforms;
      OperatorsStay(c, live, init[|init| - 1]);
    }
    assert Operators(c, mid) == Operators(c, live);
    MoveFrom(c, mid, last);
  }

  lemma OperatorsStay(c: Catalogue, live: Settings, platform: string)
    requires platform in c.platforms
    ensures Operators(c, Operators(c, live) + SettingsOn(c, platform)) == Operators(c, live)
  {
    assert forall k :: k in c.platforms[platform] ==> k in PlatformOnly(c);
    hide PlatformOnly;
    SameSettings(Operators(c, Operators(c, live) + SettingsOn(c, platform)), Operators(c, live));
  }

  lemma MoveFrom(c: Catalogue, live: Settings, platform: string)
    requires platform in c.platforms
    ensures Move(c, live, platform) == Operators(c, live) + SettingsOn(c, platform)
  {
    var wanted := SettingsOn(c, platform);
    RealignReaches(PlatformOnly(c), wanted, live);
    hide Apply, RealignSettings, PlatformOnly;
    SameSettings((live - PlatformOnly(c)) + wanted, Operators(c, live) + wanted);
  }
}

/** The platform tokens that the checksum takes out of a statement, as the regexes take them out. */
module Checksum {
  import opened Text
  import opened Scan
  import opened Collapse

  // The regexes of the normaliser, in the order it applies them.
  datatype Rule = OnCluster | DatabaseEngine | Engine | PlatformSettings(names: seq<string>)

  // What a match takes off the head of a text, and what it leaves in place of it.
  datatype Match = NoMatch | Match(len: nat, text: string)

  // ----- `\s+ON CLUSTER\s+\S+`

  // `\s+\S+`, or 0.
  function WordLen(t: string): (n: nat)
    ensures n <= |t|
  {
    var q := SpaceLen(t);
    var p := PlainLen(t[q..]);
    if q == 0 || p == 0 then 0 else q + p
  }

  // `ON CLUSTER\s+\S+`, or 0.
  function ClusterTail(t: string): (n: nat)
    ensures n <= |t|
  {
    if !("ON CLUSTER" <= t) then 0
    else
      var n := WordLen(t[10..]);
      if n == 0 then 0 else 10 + n
  }

  function ClusterLen(t: string): (n: nat)
    ensures n <= |t|
  {
    var s := SpaceLen(t);
    var n := ClusterTail(t[s..]);
    if s == 0 || n == 0 then 0 else s + n
  }

  // ----- `\s+ENGINE\s*=\s*Replicated\([^)]*\)`

  // `[^)]*\)`, or 0 where no bracket closes.
  function ClosedLen(t: string): (n: nat)
    ensures n <= |t|
  {
    if t == "" then 0
    else if t[0] == ')' then 1
    else
      var n := ClosedLen(t[1..]);
      if n == 0 then 0 else 1 + n
  }

  // `\s*=\s*` and then `word`, or 0.
  function AssignLen(t: string, word: string): (n: nat)
    ensures n <= |t|
  {
    var s := SpaceLen(t);
    if s == |t| || t[s] != '=' then 0
    else
      var q := SpaceLen(t[s + 1..]);
      if word <= t[s + 1 + q..] then s + 1 + q + |word| else 0
  }

  // `ENGINE\s*=\s*Replicated\([^)]*\)`, or 0.
  function DatabaseTail(t: string): (n: nat)
    ensures n <= |t|
  {
    if !("ENGINE" <= t) then 0
    else
      var q := AssignLen(t[6..], "Replicated(");
      var p := ClosedLen(t[6 + q..]);
      if q == 0 || p == 0 then 0 else 6 + q + p
  }

  function DatabaseEngineLen(t: string): (n: nat)
    ensures n <= |t|
  {
    var s := SpaceLen(t);
    var n := DatabaseTail(t[s..]);
    if s == 0 || n == 0 then 0 else s + n
  }

  // ----- `ENGINE = (?:Replicated)?([A-Za-z]*MergeTree)(?:\(\))?`

  predicate IsLetter(c: char) {
    'a' <= c <= 'z' || 'A' <= c <= 'Z'
  }

  // `[A-Za-z]*MergeTree`, as far as it reaches, or 0.
  function FamilyLen(t: string): (n: nat)
    ensures n <= |t|
  {
    var n := if t != "" && IsLetter(t[0]) then FamilyLen(t[1..]) else 0;
    if n > 0 then 1 + n else if "MergeTree" <= t then 9 else 0
  }

  // `(?:Replicated)?`: taken when a family follows it.
  function PrefixLen(t: string): (n: nat)
    ensures n <= |t|
  {
    if "Replicated" <= t && FamilyLen(t[10..]) > 0 then 10 else 0
  }

  // `(?:\(\))?`
  function BracketsLen(t: string): (n: nat)
    ensures n <= |t|
  {
    if "()" <= t then 2 else 0
  }

  // The part of the regex behind `ENGINE = `.
  function NameMatch(t: string): (m: Match)
    ensures m.Match? ==> 0 < m.len <= |t|
  {
    var k := PrefixLen(t);
    var n := FamilyLen(t[k..]);
    if n == 0 then NoMatch else Match(k + n + BracketsLen(t[k + n..]), t[k..k + n])
  }

  function EngineMatch(t: string): (m: Match)
    ensures m.Match? ==> 0 < m.len <= |t|
  {
    if !("ENGINE = " <= t) then NoMatch
    else match NameMatch(t[9..])
      case NoMatch => NoMatch
      case Match(len, name) => Match(9 + len, "ENGINE = " + name)
  }

  // ----- `,\s*(?:names)\s*=\s*[^,\n]+`

  // `[^,\n]*`
  function CellLen(t: string): (n: nat)
    ensures n <= |t|
  {
    if t == "" || t[0] == ',' || t[0] == '\n' then 0 else 1 + CellLen(t[1..])
  }

  // `\s*[^,\n]+`: a space is given back when nothing is left for the value, or 0.
  function ValueLen(t: string): (n: nat)
    ensures n <= |t|
  {
    var n := if t != "" && IsSpace(t[0]) then ValueLen(t[1..]) else 0;
    if n > 0 then 1 + n else CellLen(t)
  }

  // `name\s*=\s*[^,\n]+` for the first name of the alternation that leads to a match, or 0.
  function NamedLen(names: seq<string>, t: string): (n: nat)
    ensures n <= |t|
    decreases |names|
  {
    if names == [] then 0
    else
      var n := OneNamedLen(names[0], t);
      if n > 0 then n else NamedLen(names[1..], t)
  }

  // `\s*=\s*[^,\n]+`, or 0.
  function SetLen(t: string): (n: nat)
    ensures n <= |t|
  {
    var s := SpaceLen(t);
    if s == |t| || t[s] != '=' then 0
    else
      var v := ValueLen(t[s + 1..]);
      if v == 0 then 0 else s + 1 + v
  }

  function OneNamedLen(name: string, t: string): (n: nat)
    ensures n <= |t|
  {
    if !(name <= t) then 0
    else
      var n := SetLen(t[|name|..]);
      if n == 0 then 0 else |name| + n
  }

  // No name at all is the empty alternation, which matches nothing before the `=`.
  function Alternatives(names: seq<string>): seq<string> {
    if names == [] then [""] else names
  }

  function SettingLen(names: seq<string>, t: string): (n: nat)
    ensures n <= |t|
  {
    if t == "" || t[0] != ',' then 0
    else
      var s := SpaceLen(t[1..]);
      var n := NamedLen(Alternatives(names), t[1 + s..]);
      if n == 0 then 0 else 1 + s + n
  }

  // ----- substitution

  function Dropped(len: nat): Match {
    if len == 0 then NoMatch else Match(len, "")
  }

  function MatchAt(rule: Rule, t: string): (m: Match)
    ensures m.Match? ==> 0 < m.len <= |t|
  {
    match rule
    case OnCluster => Dropped(ClusterLen(t))
    case DatabaseEngine => Dropped(DatabaseEngineLen(t))
    case Engine => EngineMatch(t)
    case PlatformSettings(names) => Dropped(SettingLen(names, t))
  }

  // `rule.sub(..., t)`: each match replaced, left to right, without overlap.
  function Sub(rule: Rule, t: string): string {
    if t == "" then ""
    else match MatchAt(rule, t)
      case NoMatch => [t[0]] + Sub(rule, t[1..])
      case Match(len, text) => text + Sub(rule, t[len..])
  }

  // `str.upper` for the characters that can become one of the letters of CREATE DATABASE.
  function Upper(c: char): char {
    if 'a' <= c <= 'z' then (c as int - 32) as char
    else if c == '\U{131}' then 'I'
    else if c == '\U{17F}' then 'S'
    else c
  }

  predicate StartsUpper(t: string, word: string) {
    word == "" || (t != "" && Upper(t[0]) == word[0] && StartsUpper(t[1..], word[1..]))
  }

  predicate CreatesDatabase(t: string) {
    StartsUpper(LTrim(t), "CREATE DATABASE")
  }

  // One statement with its platform tokens out.
  function Neutral(names: seq<string>, statement: string): string {
    var t := Sub(OnCluster, statement);
    var d := if CreatesDatabase(t) then Sub(DatabaseEngine, t) else t;
    Sub(PlatformSettings(names), Sub(Engine, d))
  }

  // The text that is hashed for one statement.
  function Hashed(names: seq<string>, statement: string): string {
    Collapsed(Neutral(names, statement))
  }

  method Normalised(names: seq<string>, statements: seq<string>) returns (normalised: seq<string>)
    ensures |normalised| == |statements|
    ensures forall i :: 0 <= i < |statements| ==> normalised[i] == Hashed(names, statements[i])
  {
    hide Sub, CreatesDatabase, Collapsed;
    normalised := [];
    for i := 0 to |statements|
      invariant |normalised| == i
      invariant forall j :: 0 <= j < i ==> normalised[j] == Hashed(names, statements[j])
    {
      var text := Sub(OnCluster, statements[i]);
      if CreatesDatabase(text) {
        text := Sub(DatabaseEngine, text);
      }
      text := Sub(Engine, text);
      text := Sub(PlatformSettings(names), text);
      var collapsed := CollapseWhitespace(text);
      normalised := normalised + [collapsed];
    }
  }

  // ----- where a substitution splits

  // No match of `rule` that starts in `a` depends on what follows `a`.
  ghost predicate Local(rule: Rule, a: string, x: string) {
    forall i :: 0 <= i < |a| ==> MatchAt(rule, a[i..] + x) == MatchAt(rule, a[i..])
  }

  lemma {:induction false} SubSplits(rule: Rule, a: string, x: string)
    requires Local(rule, a, x)
    ensures Sub(rule, a + x) == Sub(rule, a) + Sub(rule, x)
    decreases |a|
  {
    hide MatchAt;
    if a == "" {
      assert a + x == x;
    } else {
      var m := MatchAt(rule, a);
      assert a[0..] == a && MatchAt(rule, a + x) == m;
      var n := if m.Match? then m.len else 1;
      DropConcat(a, x, n);
      assert Local(rule, a[n..], x) by {
        forall i | 0 <= i < |a[n..]| ensures MatchAt(rule, a[n..][i..] + x) == MatchAt(rule, a[n..][i..]) {
          assert a[n..][i..] == a[n + i..];
        }
      }
      SubSplits(rule, a[n..], x);
      if m.Match? {
        assert m.text + (Sub(rule, a[n..]) + Sub(rule, x)) == m.text + Sub(rule, a[n..]) + Sub(rule, x);
      } else {
        assert [a[0]] + (Sub(rule, a[1..]) + Sub(rule, x)) == [a[0]] + Sub(rule, a[1..]) + Sub(rule, x);
      }
    }
  }

  // A stretch in which no match starts is kept as it is.
  lemma {:induction false} SubSkips(rule: Rule, a: string, x: string)
    requires forall i :: 0 <= i < |a| ==> MatchAt(rule, a[i..] + x) == NoMatch
    ensures Sub(rule, a + x) == a + Sub(rule, x)
  {
    hide MatchAt;
    if a == "" {
      assert a + x == x;
    } else {
      assert a[0..] == a && MatchAt(rule, a + x) == NoMatch;
      DropConcat(a, x, 1);
      forall i | 0 <= i < |a[1..]| ensures MatchAt(rule, a[1..][i..] + x) == NoMatch {
        assert a[1..][i..] == a[1 + i..];
      }
      SubSkips(rule, a[1..], x);
      assert [a[0]] + (a[1..] + Sub(rule, x)) == a + Sub(rule, x);
    }
  }

  lemma SubKeeps(rule: Rule, c: char, x: string)
    requires MatchAt(rule, [c] + x) == NoMatch
    ensures Sub(rule, [c] + x) == [c] + Sub(rule, x)
  {
    hide MatchAt;
    assert ([c] + x)[0] == c && ([c] + x)[1..] == x;
  }

  lemma SubTakes(rule: Rule, t: string, n: nat, text: string)
    requires MatchAt(rule, t) == Match(n, text) && n <= |t|
    ensures Sub(rule, t) == text + Sub(rule, t[n..])
  {
    hide MatchAt;
  }
}

/** The CREATE DATABASE of each platform, and why both are hashed as the same text. */
module Databases {
  import opened Text
  import opened Scan
  import opened Checksum
  import opened Seams
  import Probe

  datatype Result<T> = Ok(value: T) | NotABareName(name: string)

  predicate IsBareChar(c: char) {
    IsLetter(c) || IsDigit(c) || c == '_'
  }

  // `[A-Za-z_][A-Za-z0-9_]*`, the whole of it.
  predicate IsBare(d: string) {
    d != "" && !IsDigit(d[0]) && forall i :: 0 <= i < |d| ==> IsBareChar(d[i])
  }

  // What the self-hosted statement says behind the database's name, up to the engine and from it on.
  function OnEveryServer(): string { " ON CLUSTER '{cluster}'" }

  function EngineArguments(d: string): string { "'/clickhouse/databases/" + d + "', '{shard}', '{replica}')" }

  function ReplicatedEngine(d: string): string { "\nENGINE = Replicated(" + EngineArguments(d) }

  function Opening(d: string): string { "CREATE DATABASE IF NOT EXISTS " + d }

  function CreateDatabase(d: string, platform: Probe.Platform): Result<string> {
    if !IsBare(d) then NotABareName(d)
    else match platform
      case Cloud => Ok(Opening(d))
      case SelfHosted => Ok(Opening(d) + (OnEveryServer() + ReplicatedEngine(d)))
  }

  // ----- the two rules that begin with whitespace

  predicate Spaced(rule: Rule) {
    rule == OnCluster || rule == DatabaseEngine
  }

  // What such a rule matches behind the whitespace.
  function Tail(rule: Rule, x: string): (n: nat)
    requires Spaced(rule)
    ensures n <= |x|
  {
    if rule == OnCluster then ClusterTail(x) else DatabaseTail(x)
  }

  lemma SkipsPlain(rule: Rule, p: string, x: string)
    requires Spaced(rule) && forall i :: 0 <= i < |p| ==> !IsSpace(p[i])
    ensures Sub(rule, p + x) == p + Sub(rule, x)
  {
    forall i | 0 <= i < |p| ensures MatchAt(rule, p[i..] + x) == NoMatch {
      assert (p[i..] + x)[0] == p[i];
      assert SpaceLen(p[i..] + x) == 0;
    }
    SubSkips(rule, p, x);
  }

  lemma SpaceMatch(rule: Rule, c: char, x: string)
    requires Spaced(rule) && IsSpace(c) && x != "" && !IsSpace(x[0])
    ensures MatchAt(rule, [c] + x) == Dropped(if Tail(rule, x) == 0 then 0 else 1 + Tail(rule, x))
  {
    var t := [c] + x;
    assert t[0] == c && t[1..] == x && SpaceLen(x) == 0;
    assert SpaceLen(t) == 1;
    hide SpaceLen, IsSpace, ClusterTail, DatabaseTail;
  }

  // One space before a word: skipped with it, or matched up to the end of the tail.
  lemma AtSpace(rule: Rule, c: char, x: string)
    requires Spaced(rule) && IsSpace(c) && x != "" && !IsSpace(x[0])
    ensures Sub(rule, [c] + x) == if Tail(rule, x) == 0 then [c] + Sub(rule, x) else Sub(rule, x[Tail(rule, x)..])
  {
    SpaceMatch(rule, c, x);
    hide Sub, MatchAt, IsSpace, Tail;
    var t, n := [c] + x, Tail(rule, x);
    if n == 0 {
      SubKeeps(rule, c, x);
    } else {
      SubTakes(rule, t, 1 + n, "");
      assert t[1 + n..] == x[n..] && "" + Sub(rule, x[n..]) == Sub(rule, x[n..]);
    }
  }

  lemma NoTail(rule: Rule, x: string)
    requires Spaced(rule) && |x| > 1
    requires x[0] != 'O' && (x[0] != 'E' || x[1] != 'N')
    ensures Tail(rule, x) == 0
  {
    assert "ON CLUSTER"[0] == 'O' && "ENGINE"[0] == 'E' && "ENGINE"[1] == 'N';
  }

  // One word of the opening, and the space behind it.
  lemma SkipsWord(rule: Rule, w: string, x: string)
    requires Spaced(rule) && |w| > 1 && forall i :: 0 <= i < |w| ==> !IsSpace(w[i])
    requires x != "" && !IsSpace(x[0]) && Tail(rule, x) == 0
    ensures Sub(rule, w + (" " + x)) == w + (" " + Sub(rule, x))
    ensures w[0] != 'O' && (w[0] != 'E' || w[1] != 'N') ==> Tail(rule, w + (" " + x)) == 0
    ensures (w + (" " + x))[0] == w[0]
  {
    hide Sub, Tail;
    SkipsPlain(rule, w, " " + x);
    AtSpace(rule, ' ', x);
    if w[0] != 'O' && (w[0] != 'E' || w[1] != 'N') {
      NoTail(rule, w + (" " + x));
    }
  }

  lemma OpeningWords()
    ensures (forall i :: 0 <= i < 6 ==> !IsSpace("CREATE"[i])) && (forall i :: 0 <= i < 8 ==> !IsSpace("DATABASE"[i]))
    ensures (forall i :: 0 <= i < 2 ==> !IsSpace("IF"[i])) && (forall i :: 0 <= i < 3 ==> !IsSpace("NOT"[i]))
    ensures (forall i :: 0 <= i < 6 ==> !IsSpace("EXISTS"[i])) && !IsSpace('D') && !IsSpace('I') && !IsSpace('N')
        && !IsSpace('E')
  {
  }

  lemma BareIsPlain(d: string, x: string)
    requires IsBare(d)
    ensures (forall i :: 0 <= i < |d| ==> !IsSpace(d[i])) && d + x != "" && !IsSpace((d + x)[0])
  {
    assert forall i :: 0 <= i < |d| ==> IsBareChar(d[i]);
    assert (d + x)[0] == d[0];
  }

  // The words of the opening from each one on.
  function From(n: nat, y: string): string
    requires n <= 5
    decreases 5 - n
  {
    if n == 5 then y
    else if n == 4 then "EXISTS" + (" " + y)
    else if n == 3 then "NOT" + (" " + From(4, y))
    else if n == 2 then "IF" + (" " + From(3, y))
    else if n == 1 then "DATABASE" + (" " + From(2, y))
    else "CREATE" + (" " + From(1, y))
  }

  lemma SpreadIs(d: string, x: string)
    ensures From(0, d + x) == Opening(d) + x
  {
    assert "CREATE" + (" " + ("DATABASE" + (" " + ("IF" + (" " + ("NOT" + (" " + ("EXISTS" + (" " + (d + x))))))))))
        == "CREATE DATABASE IF NOT EXISTS " + d + x;
  }

  lemma SkipsWords(rule: Rule, n: nat, y: string)
    requires n <= 5 && Spaced(rule) && y != "" && !IsSpace(y[0]) && Tail(rule, y) == 0
    ensures Sub(rule, From(n, y)) == From(n, Sub(rule, y))
    ensures From(n, y) != "" && !IsSpace(From(n, y)[0]) && (n > 0 ==> Tail(rule, From(n, y)) == 0)
    decreases 5 - n
  {
    hide Sub, Tail, IsSpace;
    OpeningWords();
    if n < 5 {
      SkipsWords(rule, n + 1, y);
      var w := if n == 4 then "EXISTS" else if n == 3 then "NOT" else if n == 2 then "IF"
        else if n == 1 then "DATABASE" else "CREATE";
      SkipsWord(rule, w, From(n + 1, y));
    }
  }

  lemma SkipsOpening(rule: Rule, d: string, x: string)
    requires Spaced(rule) && IsBare(d) && Tail(rule, d + x) == 0
    ensures Sub(rule, Opening(d) + x) == Opening(d) + Sub(rule, x)
  {
    BareIsPlain(d, x);
    hide Sub, Tail, IsSpace, IsBare;
    SkipsPlain(rule, d, x);
    SkipsWords(rule, 0, d + x);
    SpreadIs(d, x);
    SpreadIs(d, Sub(rule, x));
    hide Opening, From;
  }

  // ----- what the rules find behind the name

  lemma BareHasNoTail(rule: Rule, d: string)
    requires Spaced(rule) && IsBare(d)
    ensures Tail(rule, d) == 0
  {
    if |d| > 2 {
      assert IsBareChar(d[2]);
      Differs("ON CLUSTER", d, 2);
    }
    if "ENGINE" <= d && |d| > 6 {
      assert IsBareChar(d[6]) && d[6..][0] == d[6];
      assert SpaceLen(d[6..]) == 0;
    }
  }

  lemma NameBeforeCluster(d: string, x: string)
    requires IsBare(d) && " ON" <= x
    ensures Tail(OnCluster, d + x) == 0
  {
    var t := d + x;
    assert t[|d|] == x[0] == ' ' && t[|d| + 1] == x[1] == 'O';
    assert |d| > 2 ==> IsBareChar(d[2]) && t[2] == d[2];
    Differs("ON CLUSTER", t, if |d| == 1 then 1 else if |d| == 2 then 3 else 2);
  }

  lemma NameBeforeEngine(d: string, x: string)
    requires IsBare(d) && "\nE" <= x
    ensures Tail(DatabaseEngine, d + x) == 0
  {
    var t := d + x;
    assert t[|d|] == x[0] == '\n';
    if |d| < 6 {
      Differs("ENGINE", t, |d|);
    } else {
      var r := t[6..];
      if |d| > 6 {
        assert r[0] == d[6] && IsBareChar(d[6]);
        assert SpaceLen(r) == 0;
      } else {
        assert r == x && x[1] == 'E';
        assert SpaceLen(r) == 1;
      }
    }
  }

  lemma {:induction false} ClosedWhole(u: string)
    requires ')' !in u
    ensures ClosedLen(u + ")") == |u| + 1
  {
    if u == "" {
      assert u + ")" == ")";
    } else {
      assert (u + ")")[1..] == u[1..] + ")";
      ClosedWhole(u[1..]);
    }
  }

  lemma ArgumentsClose(d: string)
    requires IsBare(d)
    ensures ClosedLen(EngineArguments(d)) == |EngineArguments(d)| > 0
  {
    var u := "'/clickhouse/databases/" + d + "', '{shard}', '{replica}'";
    assert EngineArguments(d) == u + ")";
    assert ')' !in u by {
      assert forall i :: 0 <= i < |d| ==> IsBareChar(d[i]);
    }
    ClosedWhole(u);
  }

  function Clause(args: string): string { "ENGINE" + (" = Replicated(" + args) }

  lemma ClauseIs(d: string)
    ensures ReplicatedEngine(d) == ['\n'] + Clause(EngineArguments(d))
    ensures Clause(EngineArguments(d))[0] == 'E' && IsSpace('\n') && !IsSpace('E')
  {
    hide EngineArguments;
  }

  lemma ClauseTail(args: string)
    requires ClosedLen(args) == |args| > 0
    ensures Tail(DatabaseEngine, Clause(args)) == |Clause(args)|
  {
    EngineTailIs(args);
    hide DatabaseTail;
  }

  // The engine clause is one match, to its closing bracket.
  lemma EngineIsOneMatch(d: string)
    requires IsBare(d)
    ensures Sub(DatabaseEngine, ReplicatedEngine(d)) == ""
  {
    ArgumentsClose(d);
    SkipsNothing();
    hide *;
    ClauseTail(EngineArguments(d));
    ClauseIs(d);
    var x := Clause(EngineArguments(d));
    assert Spaced(DatabaseEngine) by { SpacedRules(); }
    AtSpace(DatabaseEngine, '\n', x);
    assert x[|x|..] == "";
  }

  lemma SpacedRules()
    ensures Spaced(OnCluster) && Spaced(DatabaseEngine)
  {
  }

  lemma EngineTailIs(args: string)
    requires ClosedLen(args) == |args| > 0
    ensures DatabaseTail("ENGINE" + (" = Replicated(" + args)) == |"ENGINE" + (" = Replicated(" + args)|
  {
    var r := " = Replicated(" + args;
    var t := "ENGINE" + r;
    assert "ENGINE" <= t && t[6..] == r;
    AssignIs(args);
    hide AssignLen, ClosedLen;
    assert r[14..] == args && t[6 + 14..] == r[14..];
  }

  lemma AssignIs(args: string)
    ensures AssignLen(" = Replicated(" + args, "Replicated(") == 14
  {
    var r := " = Replicated(" + args;
    assert r[0] == ' ' && r[1] == '=' && r[2] == ' ' && r[3] == 'R';
    assert SpaceLen(r) == 1;
    assert SpaceLen(r[2..]) == 1;
    assert r[3..] == "Replicated(" + args;
  }

  lemma ClusterWord(e: string)
    requires e != "" && IsSpace(e[0])
    ensures WordLen(" " + ("'{cluster}'" + e)) == 12
  {
    var w := "'{cluster}'";
    var y := " " + (w + e);
    assert y[0] == ' ' && y[1] == '\'' && y[1..] == w + e;
    assert SpaceLen(y) == 1;
    assert forall i :: 0 <= i < |w| ==> !IsSpace(w[i]);
    PlainLenLocal(w, e);
    assert PlainLen(w) == |w|;
  }

  lemma ClusterPart(e: string)
    requires WordLen(" " + ("'{cluster}'" + e)) == 12
    ensures var x := "ON CLUSTER" + (" " + ("'{cluster}'" + e)); ClusterTail(x) == 22 && x[22..] == e
  {
    hide WordLen;
    var y := " " + ("'{cluster}'" + e);
    var x := "ON CLUSTER" + y;
    assert "ON CLUSTER" <= x && x[10..] == y && y[12..] == e;
    assert x[22..] == x[10..][12..];
  }

  lemma ClusterParts(d: string)
    ensures OnEveryServer() + ReplicatedEngine(d)
        == [' '] + ("ON CLUSTER" + (" " + ("'{cluster}'" + ReplicatedEngine(d))))
    ensures ReplicatedEngine(d) != "" && IsSpace(ReplicatedEngine(d)[0])
  {
    assert ReplicatedEngine(d)[0] == '\n';
    hide ReplicatedEngine;
    assert OnEveryServer() == [' '] + ("ON CLUSTER" + (" " + "'{cluster}'"));
  }

  // ON CLUSTER goes, and nothing of the engine with it.
  lemma ClusterGoes(d: string)
    requires IsBare(d)
    ensures Sub(OnCluster, OnEveryServer() + ReplicatedEngine(d)) == ReplicatedEngine(d)
  {
    var e := ReplicatedEngine(d);
    var x := "ON CLUSTER" + (" " + ("'{cluster}'" + e));
    assert x[0] == 'O' && IsSpace(' ') && !IsSpace('O');
    ClusterParts(d);
    ClusterWord(e);
    ClusterPart(e);
    assert Tail(OnCluster, x) == ClusterTail(x) && Spaced(OnCluster);
    hide *;
    EngineStays(d);
    AtSpace(OnCluster, ' ', x);
  }

  lemma ClusterSkipsWord(w: string, c: char, x: string)
    requires (forall i :: 0 <= i < |w| ==> !IsSpace(w[i])) && IsSpace(c) && x != "" && !IsSpace(x[0]) && x[0] != 'O'
    ensures Sub(OnCluster, w + ([c] + x)) == w + ([c] + Sub(OnCluster, x))
  {
    assert "ON CLUSTER"[0] == 'O';
    Differs("ON CLUSTER", x, 0);
    hide Sub, IsSpace;
    SkipsPlain(OnCluster, w, [c] + x);
    AtSpace(OnCluster, c, x);
  }

  function Path(d: string): string { "Replicated('/clickhouse/databases/" + d + "'," }

  // The clause as words with a space before each but the first.
  function EngineWords(d: string): string {
    "" + (['\n'] + ("ENGINE" + ([' '] + ("="
      + ([' '] + (Path(d) + ([' '] + ("'{shard}'," + ([' '] + ("'{replica}')" + ""))))))))))
  }

  lemma EngineHead(t: string)
    ensures "\nENGINE = " + t == "" + (['\n'] + ("ENGINE" + ([' '] + ("=" + ([' '] + t)))))
  {
  }

  lemma PathHead()
    ensures "Replicated('/clickhouse/databases/" == "Replicated(" + "'/clickhouse/databases/"
  {
  }

  lemma PathFoot()
    ensures "', '{shard}', '{replica}')" == "'," + ([' '] + ("'{shard}'," + ([' '] + ("'{replica}')" + ""))))
  {
    assert "', '{shard}', '{replica}')" == "', '{shard}'," + " '{replica}')";
    assert "', '{shard}'," == "'," + " '{shard}',";
  }

  lemma Between(a: string, b: string, c: string, d: string, e: string)
    ensures a + (b + c + (d + e)) == a + b + c + d + e
  {
  }

  lemma EngineFoot(d: string)
    ensures "Replicated(" + EngineArguments(d) == Path(d) + ([' '] + ("'{shard}'," + ([' '] + ("'{replica}')" + ""))))
  {
    var x := [' '] + ("'{shard}'," + ([' '] + ("'{replica}')" + "")));
    assert EngineArguments(d) == "'/clickhouse/databases/" + d + "', '{shard}', '{replica}')";
    assert Path(d) == "Replicated('/clickhouse/databases/" + d + "',";
    hide *;
    PathHead();
    PathFoot();
    Between("Replicated(", "'/clickhouse/databases/", d, "',", x);
  }

  lemma EngineSpread(d: string)
    ensures ReplicatedEngine(d) == EngineWords(d)
  {
    EngineFoot(d);
    hide EngineArguments, Path;
    var t := "Replicated(" + EngineArguments(d);
    assert "\nENGINE = Replicated(" == "\nENGINE = " + "Replicated(";
    assert ReplicatedEngine(d) == "\nENGINE = " + t;
    EngineHead(t);
  }

  lemma PlainWords(d: string)
    requires IsBare(d)
    ensures forall i :: 0 <= i < |Path(d)| ==> !IsSpace(Path(d)[i])
    ensures forall i :: 0 <= i < 6 ==> !IsSpace("ENGINE"[i])
    ensures forall i :: 0 <= i < 10 ==> !IsSpace("'{shard}',"[i])
    ensures forall i :: 0 <= i < 12 ==> !IsSpace("'{replica}')"[i])
    ensures IsSpace(' ') && IsSpace('\n') && !IsSpace('=') && !IsSpace('\'') && !IsSpace('R') && !IsSpace('E')
  {
    assert forall i :: 0 <= i < |d| ==> IsBareChar(d[i]);
  }

  lemma EngineStays(d: string)
    requires IsBare(d)
    ensures Sub(OnCluster, ReplicatedEngine(d)) == ReplicatedEngine(d)
  {
    EngineSpread(d);
    PlainWords(d);
    SkipsNothing();
    assert Path(d)[0] == 'R';
    hide Sub, Path, ReplicatedEngine, IsBare, IsSpace;
    var x2 := "'{replica}')" + "";
    var x1 := "'{shard}'," + ([' '] + x2);
    var x0 := Path(d) + ([' '] + x1);
    var y := "=" + ([' '] + x0);
    var z := "ENGINE" + ([' '] + y);
    assert x2[0] == '\'' && x1[0] == '\'' && x0[0] == 'R' && y[0] == '=' && z[0] == 'E';
    SkipsPlain(OnCluster, "'{replica}')", "");
    ClusterSkipsWord("'{shard}',", ' ', x2);
    ClusterSkipsWord(Path(d), ' ', x1);
    ClusterSkipsWord("=", ' ', x0);
    ClusterSkipsWord("ENGINE", ' ', y);
    ClusterSkipsWord("", '\n', z);
  }

  lemma SkipsNothing()
    ensures Sub(OnCluster, "") == "" && Sub(DatabaseEngine, "") == ""
  {
  }

  lemma {:induction false} StartsUpperWith(word: string, rest: string)
    requires forall i :: 0 <= i < |word| ==> Upper(word[i]) == word[i]
    ensures StartsUpper(word + rest, word)
  {
    if word != "" {
      assert (word + rest)[1..] == word[1..] + rest;
      StartsUpperWith(word[1..], rest);
    }
  }

  lemma OpensDatabase(d: string)
    ensures CreatesDatabase(Opening(d))
    ensures forall x :: CreatesDatabase(Opening(d) + x)
  {
    var word, rest := "CREATE DATABASE", " IF NOT EXISTS " + d;
    assert forall i :: 0 <= i < |word| ==> Upper(word[i]) == word[i];
    assert Opening(d) == word + rest && Opening(d)[0] == 'C';
    StartsUpperWith(word, rest);
    forall x: string ensures CreatesDatabase(Opening(d) + x) {
      StartsUpperWith(word, rest + x);
      assert Opening(d) + x == word + (rest + x);
    }
  }

  // Both statements come to the bare CREATE DATABASE before the table rules run.
  lemma DatabaseNeutral(names: seq<string>, d: string, platform: Probe.Platform)
    requires IsBare(d)
    ensures CreateDatabase(d, platform).Ok?
    ensures Neutral(names, CreateDatabase(d, platform).value) == Sub(PlatformSettings(names), Sub(Engine, Opening(d)))
  {
    OpensDatabase(d);
    SkipsNothing();
    BareHasNoTail(OnCluster, d);
    BareHasNoTail(DatabaseEngine, d);
    assert d + "" == d && Opening(d) + "" == Opening(d);
    hide Sub, Tail, CreatesDatabase, Opening, IsBare;
    match platform {
      case Cloud =>
        SkipsOpening(OnCluster, d, "");
        SkipsOpening(DatabaseEngine, d, "");
      case SelfHosted =>
        var e := ReplicatedEngine(d);
        var x := OnEveryServer() + e;
        assert " ON" <= x && "\nE" <= e;
        NameBeforeCluster(d, x);
        NameBeforeEngine(d, e);
        hide OnEveryServer, ReplicatedEngine;
        SkipsOpening(OnCluster, d, x);
        ClusterGoes(d);
        SkipsOpening(DatabaseEngine, d, e);
        EngineIsOneMatch(d);
    }
  }

  lemma DatabaseIsPlatformBlind(names: seq<string>, d: string)
    requires IsBare(d)
    ensures Hashed(names, CreateDatabase(d, Probe.Cloud).value)
        == Hashed(names, CreateDatabase(d, Probe.SelfHosted).value)
  {
    DatabaseNeutral(names, d, Probe.Cloud);
    DatabaseNeutral(names, d, Probe.SelfHosted);
    hide Neutral, CreateDatabase;
  }
}

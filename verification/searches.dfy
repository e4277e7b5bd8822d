/** The gate's searches over a text put together from parts: what no match can straddle. */
module Searches {
  import opened Text
  import opened Scan
  import opened Words
  import opened Literals
  import opened Gate
  import opened Wrappers
  import S = Seams

  // Does `\bENGINE\s*=` match anywhere?
  predicate FindsAssign(t: string, inWord: bool) {
    t != "" && ((!inWord && EngineLen(t) > 0) || FindsAssign(t[1..], IsWord(t[0])))
  }

  // The first and the last character that is not whitespace, or a space.
  function FirstSolid(t: string): char {
    var s := SpaceLen(t);
    if s < |t| then t[s] else ' '
  }

  function LastSolid(t: string): char {
    if t == "" then ' '
    else
      var c := LastSolid(t[1..]);
      if c == ' ' && !IsSpace(t[0]) then t[0] else c
  }

  predicate StartsCl(t: string) {
    Begins(t[SpaceLen(t)..], "cl")
  }

  // Where two texts meet, no word goes on, no ON stands before a CLUSTER, and no ENGINE before an `=`.
  ghost predicate Seam(a: string, b: string) {
    && (a == "" || b == "" || !IsWord(a[|a| - 1]) || !IsWord(b[0]))
    && (Fold(LastSolid(a)) == 'n' ==> !StartsCl(b))
    && (Fold(LastSolid(a)) == 'e' ==> FirstSolid(b) != '=')
  }

  lemma LetterIsWord(c: char)
    requires IsFoldLetter(c)
    ensures IsWord(c) && !IsSpace(c)
  {
  }

  lemma {:induction false} LastSolidLast(t: string, k: nat)
    requires k < |t| && !IsSpace(t[k]) && AllSpace(t[k + 1..])
    ensures LastSolid(t) == t[k]
  {
    if k == 0 {
      LastSolidSpaces(t[1..]);
    } else {
      assert t[1..][k - 1 + 1..] == t[k + 1..];
      LastSolidLast(t[1..], k - 1);
      assert !IsSpace(t[k]) ==> t[k] != ' ';
    }
  }

  lemma {:induction false} LastSolidSpaces(t: string)
    requires AllSpace(t)
    ensures LastSolid(t) == ' '
  {
    if t != "" {
      assert forall i :: 0 <= i < |t[1..]| ==> t[1..][i] == t[i + 1];
      LastSolidSpaces(t[1..]);
    }
  }

  // A seam of the whole is a seam of every rest of it.
  lemma SeamRest(a: string, b: string)
    requires a != "" && Seam(a, b)
    ensures Seam(a[1..], b)
  {
    assert a[1..] != "" ==> a[1..][|a| - 2] == a[|a| - 1];
    assert Fold(' ') == ' ';
  }

  // ----- `ENGINE\s*=`

  lemma EngineLenIs(t: string)
    requires EngineLen(t) > 0
    ensures var s := SpaceLen(t[6..]);
            6 + s < |t| && t[6 + s] == '=' && (forall i :: 0 <= i < 6 ==> IsFoldLetter(t[i])) && Fold(t[5]) == 'e'
            && (forall i :: 6 <= i < 6 + s ==> IsSpace(t[i]))
  {
    assert forall i :: 0 <= i < 6 ==> 'a' <= "engine"[i] <= 'z';
    forall i | 0 <= i < 6 ensures IsFoldLetter(t[i]) {
      BeginsAt(t, "engine", i);
    }
    BeginsAt(t, "engine", 5);
    hide IsSpace, Begins;
    var r := t[6..];
    assert forall i :: 0 <= i < |r| ==> r[i] == t[6 + i];
  }

  lemma EngineLenLocal(a: string, b: string)
    requires a != "" && Seam(a, b) && EngineLen(a + b) > 0
    ensures EngineLen(a) == EngineLen(a + b)
  {
    var t, k := a + b, |a|;
    EngineLenIs(t);
    var s := SpaceLen(t[6..]);
    hide SpaceLen, EngineLen, Begins, IsSpace;
    if k < 6 {
      assert a[k - 1] == t[k - 1] && b[0] == t[k];
      LetterIsWord(t[k - 1]);
      LetterIsWord(t[k]);
      assert false;
    } else if k <= 6 + s {
      EngineBefore(a, b, s);
      assert false;
    } else {
      EngineWithin(a, b, s);
    }
  }

  lemma EngineBefore(a: string, b: string, s: nat)
    requires 6 <= |a| <= 6 + s < |a + b| && Fold((a + b)[5]) == 'e' && !IsSpace((a + b)[5]) && (a + b)[6 + s] == '='
    requires forall i :: 6 <= i < 6 + s ==> IsSpace((a + b)[i])
    ensures !Seam(a, b)
  {
    var t, k := a + b, |a|;
    assert a[5] == t[5];
    assert forall i :: 6 <= i < k ==> a[i] == t[i];
    LastSolidLast(a, 5);
    assert forall i :: 0 <= i < 6 + s - k ==> b[i] == t[k + i];
    assert b[6 + s - k] == '=';
    SpaceLenIs(b, 6 + s - k);
  }

  lemma EngineWithin(a: string, b: string, s: nat)
    requires EngineLen(a + b) > 0 && s == SpaceLen((a + b)[6..]) && 6 + s < |a|
    ensures EngineLen(a) == EngineLen(a + b)
  {
    var t := a + b;
    BeginsLocal(a, b, "engine");
    assert t[6..] == a[6..] + b;
    assert a[6 + s] == t[6 + s] == a[6..][s];
    SpaceLenLocal(a[6..], b, s);
  }

  // ----- `ON\s+CLUSTER\b`

  lemma ClusterAtIs(t: string)
    requires ClusterAt(t)
    ensures var s := SpaceLen(t[2..]);
            s > 0 && 9 + s <= |t| && IsFoldLetter(t[0]) && IsFoldLetter(t[1]) && Fold(t[1]) == 'n'
            && (forall i :: 2 <= i < 2 + s ==> IsSpace(t[i]))
            && (forall i :: 2 + s <= i < 9 + s ==> IsFoldLetter(t[i]))
            && Begins(t[2 + s..], "cl")
  {
    var s := SpaceLen(t[2..]);
    var r := t[2 + s..];
    BeginsAt(t, "on", 0);
    BeginsAt(t, "on", 1);
    assert forall i :: 0 <= i < 7 ==> 'a' <= "cluster"[i] <= 'z';
    forall i | 0 <= i < 7 ensures i < |r| && IsFoldLetter(r[i]) {
      BeginsAt(r, "cluster", i);
    }
    BeginsAt(r, "cluster", 6);
    BeginsPrefix(r, "cluster", 2);
    assert "cluster"[..2] == "cl";
    hide IsSpace, Begins;
    assert forall i :: 0 <= i < |t[2..]| ==> t[2..][i] == t[2 + i];
    assert forall i :: 0 <= i < |r| ==> r[i] == t[2 + s + i];
  }

  lemma {:induction false} BeginsPrefix(t: string, word: string, k: nat)
    requires Begins(t, word) && k <= |word|
    ensures Begins(t, word[..k])
  {
    if k > 0 {
      BeginsPrefix(t[1..], word[1..], k - 1);
      assert word[..k][1..] == word[1..][..k - 1];
    }
  }

  lemma ClusterAtLocal(a: string, b: string)
    requires a != "" && Seam(a, b) && ClusterAt(a + b)
    ensures ClusterAt(a)
  {
    var t, k := a + b, |a|;
    ClusterAtIs(t);
    var s := SpaceLen(t[2..]);
    hide SpaceLen, ClusterAt, Begins, IsSpace;
    if k == 1 || 3 + s <= k < 9 + s {
      assert a[k - 1] == t[k - 1] && b[0] == t[k];
      LetterIsWord(t[k - 1]);
      LetterIsWord(t[k]);
      assert false;
    } else if k <= 2 + s {
      LetterIsWord(t[1]);
      LetterIsWord(t[2 + s]);
      OnBefore(a, b, s);
      assert false;
    } else {
      LetterIsWord(t[2 + s]);
      ClusterWithin(a, b, s);
    }
  }

  lemma OnBefore(a: string, b: string, s: nat)
    requires 2 <= |a| <= 2 + s < |a + b| && Fold((a + b)[1]) == 'n' && !IsSpace((a + b)[1])
    requires forall i :: 2 <= i < 2 + s ==> IsSpace((a + b)[i])
    requires !IsSpace((a + b)[2 + s]) && Begins((a + b)[2 + s..], "cl")
    ensures !Seam(a, b)
  {
    hide Begins;
    var t, k := a + b, |a|;
    assert a[1] == t[1];
    assert forall i :: 2 <= i < k ==> a[i] == t[i];
    LastSolidLast(a, 1);
    var n := 2 + s - k;
    assert forall i :: 0 <= i <= n ==> b[i] == t[k + i];
    SpaceLenIs(b, n);
    assert b[n..] == t[2 + s..];
  }

  lemma ClusterWithin(a: string, b: string, s: nat)
    requires ClusterAt(a + b) && s == SpaceLen((a + b)[2..]) && 9 + s <= |a| && !IsSpace((a + b)[2 + s])
    ensures ClusterAt(a)
  {
    var t := a + b;
    hide IsSpace, Begins;
    BeginsLocal(a, b, "on");
    assert t[2..] == a[2..] + b;
    assert a[2..][s] == t[2 + s];
    SpaceLenLocal(a[2..], b, s);
    var r := a[2 + s..];
    assert t[2 + s..] == r + b;
    BeginsLocal(r, b, "cluster");
    assert |r| > 7 ==> (r + b)[7] == r[7];
  }

  // ----- searching across a seam

  lemma {:induction false} InWordFindsLess(t: string)
    ensures FindsCluster(t, true) ==> FindsCluster(t, false)
    ensures FindsAssign(t, true) ==> FindsAssign(t, false)
  {
  }

  lemma {:induction false} ClusterSeam(a: string, b: string, inWord: bool)
    requires Seam(a, b) && !FindsCluster(a, inWord) && !FindsCluster(b, false)
    ensures !FindsCluster(a + b, inWord)
  {
    hide ClusterAt;
    if a == "" {
      assert a + b == b;
      InWordFindsLess(b);
    } else {
      assert (a + b)[1..] == a[1..] + b && (a + b)[0] == a[0];
      SeamRest(a, b);
      ClusterSeam(a[1..], b, IsWord(a[0]));
      if ClusterAt(a + b) {
        ClusterAtLocal(a, b);
      }
    }
  }

  lemma EngineIsWord(t: string)
    requires t == "" || Fold(t[0]) != 'e'
    ensures EngineLen(t) == 0
  {
  }

  // No engine is named where a text does not begin with a character of a word, so what precedes does not count.
  lemma NoWordStart(t: string, inWord: bool)
    requires t == "" || !IsWord(t[0])
    ensures FirstEngine(t, inWord) == FirstEngine(t, false) && FirstExplicit(t, inWord) == FirstExplicit(t, false)
  {
    EngineIsWord(t);
    hide EngineLen;
  }

  // A text without an assignment of an engine is passed over, to the next character that begins a word or
  // that is of none.
  lemma {:induction false} EngineSkips(a: string, b: string, inWord: bool)
    requires Seam(a, b) && !FindsAssign(a, inWord)
    requires (if a == "" then !inWord else !IsWord(a[|a| - 1])) || b == "" || !IsWord(b[0])
    ensures FirstEngine(a + b, inWord) == FirstEngine(b, false)
        && FirstExplicit(a + b, inWord) == FirstExplicit(b, false)
  {
    if a == "" {
      assert a + b == b;
      if b == "" || !IsWord(b[0]) {
        NoWordStart(b, inWord);
      }
    } else {
      hide EngineLen;
      assert (a + b)[1..] == a[1..] + b && (a + b)[0] == a[0];
      SeamRest(a, b);
      EngineSkips(a[1..], b, IsWord(a[0]));
      if EngineLen(a + b) > 0 {
        EngineLenLocal(a, b);
      }
    }
  }

  // ----- texts in which nothing is found

  lemma ClusterNeedsSpace(t: string)
    ensures ClusterAt(t) ==> |t| > 2 && IsSpace(t[2])
  {
    if ClusterAt(t) {
      ClusterAtIs(t);
    }
  }

  lemma {:induction false} NoSpaceNoCluster(t: string, inWord: bool)
    requires forall i :: 0 <= i < |t| ==> !IsSpace(t[i])
    ensures !FindsCluster(t, inWord)
  {
    hide IsSpace;
    if t != "" {
      assert forall i :: 0 <= i < |t[1..]| ==> t[1..][i] == t[i + 1];
      NoSpaceNoCluster(t[1..], IsWord(t[0]));
      ClusterNeedsSpace(t);
    }
  }

  lemma {:induction false} NoEqualsNoAssign(t: string, inWord: bool)
    requires '=' !in t
    ensures !FindsAssign(t, inWord)
  {
    if t != "" {
      NoEqualsNoAssign(t[1..], IsWord(t[0]));
    }
  }

  // ----- a quoted name

  lemma SpaceBefore(a: string, x: string)
    requires x != "" && !IsSpace(x[0])
    ensures SpaceLen(a + x) == SpaceLen(a) && (a + x)[SpaceLen(a)..] == a[SpaceLen(a)..] + x
  {
    hide IsSpace;
    var u, s := a + x, SpaceLen(a);
    assert forall i :: 0 <= i < s ==> u[i] == a[i];
    assert u[s] == if s < |a| then a[s] else x[0];
    SpaceLenIs(u, s);
  }

  // The quote behind a name, where no search goes on.
  ghost predicate Ticks(x: string) {
    x != "" && x[0] == '`'
  }

  lemma TickIsNothing(x: string)
    requires Ticks(x)
    ensures !IsSpace(x[0]) && !IsNameChar(x[0]) && !IsNameStart(x[0]) && !IsFoldLetter(x[0]) && !IsWord(x[0])
        && Fold(x[0]) == '`'
  {
  }

  lemma EngineLenTick(a: string, x: string)
    requires Ticks(x)
    ensures EngineLen(a + x) == EngineLen(a)
  {
    TickIsNothing(x);
    if |a| < 6 {
      assert (a + x)[|a|] == '`' && "engine"[|a|] != '`';
      BeginsNot(a + x, "engine", |a|);
    } else {
      BeginsLocal(a, x, "engine");
      DropConcat(a, x, 6);
      SpaceBefore(a[6..], x);
      hide Begins, SpaceLen, IsSpace;
      var s := SpaceLen(a[6..]);
      assert (a + x)[6 + s] == if 6 + s < |a| then a[6 + s] else '`';
    }
  }

  lemma BehindTick(a: string, x: string)
    requires Ticks(x)
    ensures BehindEngine(a + x) == match BehindEngine(a) case None => None case Some(r) => Some(r + x)
  {
    TickIsNothing(x);
    EngineLenTick(a, x);
    hide EngineLen, SpaceLen, IsSpace;
    var n := EngineLen(a);
    if n > 0 {
      DropConcat(a, x, n);
      SpaceBefore(a[n..], x);
    }
  }

  lemma {:induction false} RunsTick(r: string, x: string)
    requires Ticks(x)
    ensures NameLen(r + x) == NameLen(r) && LettersLen(r + x) == LettersLen(r)
  {
    TickIsNothing(x);
    hide IsNameChar, IsFoldLetter;
    if r == "" {
      assert r + x == x;
    } else {
      assert (r + x)[0] == r[0] && (r + x)[1..] == r[1..] + x;
      RunsTick(r[1..], x);
    }
  }

  lemma EngineAtTick(a: string, x: string)
    requires Ticks(x)
    ensures EngineAt(a + x) == EngineAt(a)
  {
    BehindTick(a, x);
    TickIsNothing(x);
    hide BehindEngine, IsNameStart, NameLen;
    match BehindEngine(a) {
      case None =>
      case Some(r) =>
        RunsTick(r, x);
        if r == "" {
          assert r + x == x;
        } else {
          var n := NameLen(r);
          assert (r + x)[0] == r[0] && (r + x)[..n] == r[..n];
        }
    }
  }

  lemma BehindIsRest(a: string)
    requires BehindEngine(a).Some?
    ensures forall c <- BehindEngine(a).value :: c in a
  {
    hide EngineLen, SpaceLen;
  }

  lemma ExplicitAtTick(a: string, x: string)
    requires Ticks(x) && '(' !in a
    ensures ExplicitAt(a + x) == None
  {
    BehindTick(a, x);
    TickIsNothing(x);
    if BehindEngine(a).Some? {
      var r := BehindEngine(a).value;
      BehindIsRest(a);
      RunsTick(r, x);
      hide BehindEngine, LettersLen, IsSpace, IsReplicatedFamily, TwoLiterals;
      var q := r[LettersLen(r)..];
      DropConcat(r, x, LettersLen(r));
      SpaceBefore(q, x);
      var y := (q + x)[SpaceLen(q)..];
      assert y[0] == if SpaceLen(q) < |q| then q[SpaceLen(q)] else '`';
      Differs("(", y, 0);
    }
  }

  // A name claims an engine by itself, or the search goes on behind it.
  lemma {:induction false} NamePasses(c: string, x: string, inWord: bool)
    requires Ticks(x) && '(' !in c
    ensures FirstEngine(c + x, inWord) == if FirstEngine(c, inWord).Some? then FirstEngine(c, inWord)
        else FirstEngine(x, false)
    ensures FirstExplicit(c + x, inWord) == FirstExplicit(x, false)
  {
    hide EngineAt, ExplicitAt;
    if c == "" {
      assert c + x == x;
      TickIsNothing(x);
      NoWordStart(x, inWord);
    } else {
      assert (c + x)[0] == c[0] && (c + x)[1..] == c[1..] + x;
      NamePasses(c[1..], x, IsWord(c[0]));
      EngineAtTick(c, x);
      ExplicitAtTick(c, x);
    }
  }

  // ----- a setting

  lemma {:induction false} NoEPasses(a: string, x: string, inWord: bool)
    requires (forall i :: 0 <= i < |a| ==> Fold(a[i]) != 'e') && (x == "" || !IsWord(x[0]))
    ensures FirstEngine(a + x, inWord) == FirstEngine(x, false)
        && FirstExplicit(a + x, inWord) == FirstExplicit(x, false)
  {
    hide Fold, EngineLen;
    if a == "" {
      assert a + x == x;
      NoWordStart(x, inWord);
    } else {
      assert (a + x)[0] == a[0] && (a + x)[1..] == a[1..] + x;
      assert forall i :: 0 <= i < |a[1..]| ==> a[1..][i] == a[i + 1];
      NoEPasses(a[1..], x, IsWord(a[0]));
      EngineIsWord(a + x);
    }
  }

  // The number that a setting called ENGINE is given is no name.
  lemma NumberIsNoEngine(u: string, v: string, x: string)
    requires '=' !in u && S.Digits(v)
    ensures EngineAt(u + (" = " + v + x)) == None && ExplicitAt(u + (" = " + v + x)) == None
  {
    var r := v + x;
    var t := u + (" = " + v + x);
    if EngineLen(t) > 0 {
      EngineLenIs(t);
      var s, e := SpaceLen(t[6..]), |u| + 1;
      assert " = " + v + x == " = " + r && t[e] == '=';
      assert !IsSpace('=') && !IsFoldLetter('=');
      hide IsSpace, IsFoldLetter, Begins, SpaceLen;
      assert 6 + s == e;
      assert EngineLen(t) == e + 1;
      assert t[e + 1..] == " " + r && t[e + 2..] == r;
      NumberStarts(v, x);
      BehindIs(t, " " + r, 1);
      assert (" " + r)[1..] == r;
    }
  }

  lemma BehindIs(t: string, q: string, s: nat)
    requires EngineLen(t) > 0 && t[EngineLen(t)..] == q && SpaceLen(q) == s
    ensures BehindEngine(t) == Some(q[s..])
  {
    hide EngineLen, SpaceLen;
  }

  lemma NumberStarts(v: string, x: string)
    requires S.Digits(v)
    ensures v + x != "" && !IsNameStart((v + x)[0]) && LettersLen(v + x) == 0 && SpaceLen(" " + (v + x)) == 1
    ensures !IsReplicatedFamily((v + x)[..0])
  {
    assert (v + x)[0] == v[0];
    assert (" " + (v + x))[1] == v[0];
    SpaceLenIs(" " + (v + x), 1);
  }

  lemma {:induction false} NumberPasses(u: string, v: string, x: string, inWord: bool)
    requires '=' !in u && S.Digits(v) && (x == "" || !IsWord(x[0]))
    ensures var t := u + (" = " + v + x);
            FirstEngine(t, inWord) == FirstEngine(x, false) && FirstExplicit(t, inWord) == FirstExplicit(x, false)
  {
    hide EngineAt, ExplicitAt;
    var t := u + (" = " + v + x);
    if u == "" {
      assert t == " = " + v + x;
      NoEInNumber(v);
      NoEPasses(" = " + v, x, inWord);
    } else {
      assert t[0] == u[0] && t[1..] == u[1..] + (" = " + v + x);
      NumberPasses(u[1..], v, x, IsWord(u[0]));
      NumberIsNoEngine(u, v, x);
    }
  }

  lemma NoEInNumber(v: string)
    requires S.Digits(v)
    ensures forall i :: 0 <= i < |" = " + v| ==> Fold((" = " + v)[i]) != 'e'
  {
  }

  // ----- clauses

  // A number is assigned to a name.
  ghost predicate IsAssignment(c: string) {
    exists u, v :: c == u + (" = " + v) && '=' !in u && S.Digits(v)
  }

  // A clause that names no engine: it assigns nothing to ENGINE, or a number to a name.
  ghost predicate Settled(c: string) {
    !FindsAssign(c, false) || IsAssignment(c)
  }

  lemma SettledPasses(c: string, x: string)
    requires Settled(c) && Seam(c, x) && (x == "" || !IsWord(x[0]))
    ensures FirstEngine(c + x, false) == FirstEngine(x, false) && FirstExplicit(c + x, false) == FirstExplicit(x, false)
  {
    assert FindsAssign(c, false) ==> IsAssignment(c);
    hide *;
    if FindsAssign(c, false) {
      AssignmentPasses(c, x);
    } else {
      EngineSkips(c, x, false);
    }
  }

  lemma AssignmentPasses(c: string, x: string)
    requires IsAssignment(c) && (x == "" || !IsWord(x[0]))
    ensures FirstEngine(c + x, false) == FirstEngine(x, false) && FirstExplicit(c + x, false) == FirstExplicit(x, false)
  {
    hide FirstEngine, FirstExplicit, IsWord;
    var u, v :| c == u + (" = " + v) && '=' !in u && S.Digits(v);
    assert c + x == u + (" = " + v + x);
    NumberPasses(u, v, x, false);
  }

  lemma SettledClaims(c: string)
    requires Settled(c)
    ensures FirstEngine(c, false) == None
  {
    assert c + "" == c;
    assert Seam(c, "") by {
      assert SpaceLen("") == 0 && FirstSolid("") == ' ' && !StartsCl("");
    }
    SettledPasses(c, "");
  }

  // A setting's own text holds no ON CLUSTER.
  lemma {:induction false} AssignmentHasNoCluster(u: string, v: string, inWord: bool)
    requires S.Digits(v) && forall i :: 0 <= i < |u| ==> !IsSpace(u[i])
    ensures !FindsCluster(u + (" = " + v), inWord)
  {
    var t := u + (" = " + v);
    hide ClusterAt;
    if u == "" {
      assert t == " = " + v;
      NumberHasNoCluster(v, t, inWord);
    } else {
      assert t[0] == u[0] && t[1..] == u[1..] + (" = " + v);
      assert forall i :: 0 <= i < |u[1..]| ==> u[1..][i] == u[i + 1];
      AssignmentHasNoCluster(u[1..], v, IsWord(u[0]));
      NoClusterAt(u, v);
    }
  }

  lemma NoClusterAt(u: string, v: string)
    requires u != "" && forall i :: 0 <= i < |u| ==> !IsSpace(u[i])
    ensures !ClusterAt(u + (" = " + v))
  {
    var t := u + (" = " + v);
    assert t[|u|] == ' ' && t[|u| + 1] == '=' && !IsFoldLetter(' ') && !IsFoldLetter('=') && !IsSpace('=');
    if ClusterAt(t) {
      ClusterAtIs(t);
    }
  }

  lemma {:induction false} NumberHasNoCluster(v: string, t: string, inWord: bool)
    requires S.Digits(v) && |t| <= |" = " + v| && t == (" = " + v)[|" = " + v| - |t|..]
    ensures !FindsCluster(t, inWord)
  {
    if t != "" {
      NumberHasNoCluster(v, t[1..], IsWord(t[0]));
      var k := |" = " + v| - |t|;
      assert t[0] == (" = " + v)[k];
      assert Fold(t[0]) != 'o';
    }
  }
}

/** The gate's patterns as regular expressions read: which texts each matches, and that the gate finds the first. */
module Patterns {
  import opened Text
  import opened Scan
  import opened Words
  import opened Gate
  import opened Wrappers

  // `word` in any letter case.
  ghost predicate Spelled(w: string, word: string) {
    |w| == |word| && forall i :: 0 <= i < |w| ==> Fold(w[i]) == word[i]
  }

  // `\b` behind a word.
  ghost predicate WordEnds(q: string) {
    q == "" || !IsWord(q[0])
  }

  // `\b` before a word at position `i`; `inWord` says that the character before the text is one of a word.
  ghost predicate WordAt(t: string, i: nat, inWord: bool) {
    i < |t| && if i == 0 then !inWord else !IsWord(t[i - 1])
  }

  lemma BeginsSpelled(t: string, word: string)
    ensures Begins(t, word) <==> |word| <= |t| && Spelled(t[..|word|], word)
  {
    hide Begins, Fold;
    if Begins(t, word) {
      if word != "" {
        BeginsAt(t, word, |word| - 1);
      }
      forall i | 0 <= i < |word| ensures Fold(t[..|word|][i]) == word[i] {
        BeginsAt(t, word, i);
      }
    }
    if |word| <= |t| && Spelled(t[..|word|], word) {
      assert forall i :: 0 <= i < |word| ==> t[i] == t[..|word|][i];
      BeginsIs(t, word);
    }
  }

  lemma BeginsWith(w: string, word: string, rest: string)
    requires Spelled(w, word)
    ensures Begins(w + rest, word) && (w + rest)[|word|..] == rest
  {
    hide Begins;
    BeginsSpelled(w + rest, word);
    assert (w + rest)[..|word|] == w;
  }

  lemma SpaceIs(s: string, rest: string)
    requires AllSpace(s) && (rest == "" || !IsSpace(rest[0]))
    ensures SpaceLen(s + rest) == |s| && (s + rest)[|s|..] == rest
  {
    hide IsSpace;
    var t, n := s + rest, SpaceLen(s + rest);
    assert forall i :: 0 <= i < |s| ==> t[i] == s[i];
    assert |s| < |t| ==> t[|s|] == rest[0];
  }

  lemma SpaceSplits(t: string)
    ensures AllSpace(t[..SpaceLen(t)])
    ensures var r := t[SpaceLen(t)..]; t == t[..SpaceLen(t)] + r && (r == "" || !IsSpace(r[0]))
  {
    hide IsSpace;
  }

  lemma LetterIsSolid(w: string, word: string, rest: string)
    requires Spelled(w, word) && word != "" && 'a' <= word[0] <= 'z'
    ensures w + rest != "" && !IsSpace((w + rest)[0]) && IsWord((w + rest)[0])
  {
    assert (w + rest)[0] == w[0];
  }

  // ----- `ON\s+CLUSTER\b`

  ghost predicate IsClusterMatch(t: string, a: string, s: string, b: string, q: string) {
    t == a + (s + (b + q)) && Spelled(a, "on") && Gap(s) && Spelled(b, "cluster") && WordEnds(q)
  }

  ghost predicate ClusterMatch(t: string) {
    exists a, s, b, q :: IsClusterMatch(t, a, s, b, q)
  }

  lemma ClusterAtIs(t: string)
    ensures ClusterAt(t) <==> ClusterMatch(t)
  {
    if ClusterAt(t) {
      ClusterAtMatches(t);
    }
    if ClusterMatch(t) {
      var a, s, b, q :| IsClusterMatch(t, a, s, b, q);
      MatchIsClusterAt(t, a, s, b, q);
    }
  }

  lemma MatchIsClusterAt(t: string, a: string, s: string, b: string, q: string)
    requires IsClusterMatch(t, a, s, b, q)
    ensures ClusterAt(t)
  {
    var r := b + q;
    assert |a| == 2 && |b| == 7 && s != "" && AllSpace(s);
    LetterIsSolid(b, "cluster", q);
    hide IsSpace, IsWord, Begins, SpaceLen, Spelled, AllSpace;
    BeginsWith(a, "on", s + r);
    SpaceIs(s, r);
    BeginsWith(b, "cluster", q);
    assert t[2..] == s + r && t[2 + |s|..] == r;
    assert |r| > 7 ==> r[7] == q[0];
  }

  lemma ClusterAtMatches(t: string)
    requires ClusterAt(t)
    ensures ClusterMatch(t)
  {
    ClusterAtParts(t);
    var s := SpaceLen(t[2..]);
    var r := t[2 + s..];
    hide *;
    SpaceSplits(t[2..]);
    ClusterParts(t, s);
    MatchIs(t, t[..2], t[2..][..s], r[..7], r[7..]);
  }

  lemma ClusterAtParts(t: string)
    requires ClusterAt(t)
    ensures |t| >= 2 && Spelled(t[..2], "on")
    ensures var s := SpaceLen(t[2..]);
            && 0 < s <= |t| - 2
            && var r := t[2 + s..]; |r| >= 7 && Spelled(r[..7], "cluster") && WordEnds(r[7..])
  {
    hide IsSpace, IsWord, Begins, SpaceLen;
    BeginsSpelled(t, "on");
    BeginsSpelled(t[2 + SpaceLen(t[2..])..], "cluster");
  }

  lemma ClusterParts(t: string, s: nat)
    requires |t| >= 2 + s + 7
    ensures var r := t[2 + s..]; t == t[..2] + (t[2..][..s] + (r[..7] + r[7..]))
    ensures s > 0 ==> t[2..][..s] != ""
  {
    var r := t[2 + s..];
    assert r == r[..7] + r[7..] && t[2..] == t[2..][..s] + r;
  }

  lemma MatchIs(t: string, a: string, s: string, b: string, q: string)
    requires t == a + (s + (b + q)) && Spelled(a, "on") && s != "" && AllSpace(s) && Spelled(b, "cluster")
        && WordEnds(q)
    ensures ClusterMatch(t)
  {
    hide Spelled, AllSpace, WordEnds;
    assert IsClusterMatch(t, a, s, b, q);
  }

  // ----- `ENGINE\s*=\s*([A-Za-z_][A-Za-z0-9_]*)`

  ghost predicate IsName(e: string) {
    e != "" && IsNameStart(e[0]) && forall i :: 0 <= i < |e| ==> IsNameChar(e[i])
  }

  ghost predicate IsAssign(t: string, w: string, s: string, r: string, rest: string) {
    t == w + (s + ("=" + (r + rest))) && Spelled(w, "engine") && AllSpace(s) && AllSpace(r)
  }

  // The name is the whole of its run of characters.
  ghost predicate IsEngineMatch(t: string, w: string, s: string, r: string, e: string, q: string) {
    IsAssign(t, w, s, r, e + q) && IsName(e) && (q == "" || !IsNameChar(q[0]))
  }

  ghost predicate EngineMatch(t: string, e: string) {
    exists w, s, r, q :: IsEngineMatch(t, w, s, r, e, q)
  }

  lemma AssignIsBehind(t: string, w: string, s: string, r: string, rest: string)
    requires IsAssign(t, w, s, r, rest) && (rest == "" || !IsSpace(rest[0]))
    ensures BehindEngine(t) == Some(rest)
  {
    assert |w| == 6 && !IsSpace('=');
    assert t == w + (s + ("=" + (r + rest))) && Spelled(w, "engine") && AllSpace(s) && AllSpace(r);
    hide *;
    BeginsWith(w, "engine", s + ("=" + (r + rest)));
    SpaceIs(s, "=" + (r + rest));
    SpaceIs(r, rest);
    AssignPlaces(w, s, r + rest);
    EngineHere(t, |s|);
    BehindHere(t, 7 + |s|, |r|);
    assert t[7 + |s|..][|r|..] == t[7 + |s| + |r|..];
  }

  lemma AssignPlaces(w: string, s: string, x: string)
    requires |w| == 6
    ensures var t := w + (s + ("=" + x));
            |t| > 6 + |s| && t[6..] == s + ("=" + x) && t[6 + |s|] == '=' && t[7 + |s|..] == x
  {
  }

  lemma EngineHere(t: string, s: nat)
    requires Begins(t, "engine") && |t| > 6 + s && SpaceLen(t[6..]) == s && t[6 + s] == '='
    ensures EngineLen(t) == 7 + s
  {
    hide Begins, SpaceLen;
  }

  lemma BehindHere(t: string, n: nat, k: nat)
    requires EngineLen(t) == n > 0 && SpaceLen(t[n..]) == k
    ensures BehindEngine(t) == Some(t[n + k..])
  {
    hide EngineLen, SpaceLen;
  }

  lemma BehindIsAssign(t: string)
    requires BehindEngine(t).Some?
    ensures var r := BehindEngine(t).value; exists w, s, v :: IsAssign(t, w, s, v, r) && (r == "" || !IsSpace(r[0]))
  {
    hide *;
    BehindParts(t);
    var u := t[6..];
    var y := u[SpaceLen(u) + 1..];
    SpaceSplits(u);
    SpaceSplits(y);
    var n, k := SpaceLen(u), SpaceLen(y);
    Rejoined(t, t[..6], u, u[..n], u[n..], y, y[..k], y[k..]);
    AssignIs(t, t[..6], u[..n], y[..k], y[k..]);
  }

  lemma Rejoined(t: string, a: string, u: string, g: string, v: string, y: string, p: string, q: string)
    requires t == a + u && u == g + v && v == "=" + y && y == p + q
    ensures t == a + (g + ("=" + (p + q)))
  {
  }

  lemma BehindParts(t: string)
    requires BehindEngine(t).Some?
    ensures |t| >= 6 && Spelled(t[..6], "engine") && t == t[..6] + t[6..]
    ensures var u := t[6..];
            var n := SpaceLen(u);
            n < |u| && u[n..] == "=" + u[n + 1..]
            && BehindEngine(t) == Some(u[n + 1..][SpaceLen(u[n + 1..])..])
  {
    hide IsSpace, Begins, SpaceLen;
    BeginsSpelled(t, "engine");
    var u := t[6..];
    assert u[SpaceLen(u)] == t[6 + SpaceLen(u)] && t[7 + SpaceLen(u)..] == u[SpaceLen(u) + 1..];
  }

  lemma AssignIs(t: string, w: string, s: string, v: string, rest: string)
    requires t == w + (s + ("=" + (v + rest))) && Spelled(w, "engine") && AllSpace(s) && AllSpace(v)
    ensures IsAssign(t, w, s, v, rest)
  {
    hide Spelled, AllSpace;
  }

  lemma NameCharIsSolid(c: char)
    ensures IsNameChar(c) ==> !IsSpace(c)
    ensures IsFoldLetter(c) ==> IsNameStart(c) && IsNameChar(c)
  {
  }

  lemma {:induction false} NameLenIs(e: string, q: string)
    requires (forall i :: 0 <= i < |e| ==> IsNameChar(e[i])) && (q == "" || !IsNameChar(q[0]))
    ensures NameLen(e + q) == |e| && (e + q)[..|e|] == e
  {
    hide IsNameChar;
    if e == "" {
      assert e + q == q;
    } else {
      assert (e + q)[0] == e[0] && (e + q)[1..] == e[1..] + q;
      NameLenIs(e[1..], q);
    }
  }

  lemma {:induction false} NameLenSplits(t: string)
    ensures forall i :: 0 <= i < NameLen(t) ==> IsNameChar(t[i])
    ensures NameLen(t) < |t| ==> !IsNameChar(t[NameLen(t)])
  {
    hide IsNameChar;
    if t != "" && IsNameChar(t[0]) {
      NameLenSplits(t[1..]);
    }
  }

  lemma EngineAtIs(t: string, e: string)
    ensures EngineAt(t) == Some(e) <==> EngineMatch(t, e)
  {
    if EngineAt(t) == Some(e) {
      EngineAtMatches(t, e);
    }
    if EngineMatch(t, e) {
      var w, s, r, q :| IsEngineMatch(t, w, s, r, e, q);
      assert (e + q)[0] == e[0];
      NameCharIsSolid(e[0]);
      hide IsSpace, IsNameChar, IsNameStart, IsFoldLetter, BehindEngine;
      AssignIsBehind(t, w, s, r, e + q);
      NameLenIs(e, q);
    }
  }

  lemma EngineAtMatches(t: string, e: string)
    requires EngineAt(t) == Some(e)
    ensures EngineMatch(t, e)
  {
    hide IsSpace, IsNameChar, IsFoldLetter, IsNameStart, BehindEngine;
    BehindIsAssign(t);
    var x := BehindEngine(t).value;
    var w, s, r :| IsAssign(t, w, s, r, x);
    var n := NameLen(x);
    NameLenSplits(x);
    assert IsNameChar(x[0]) by { StartIsNameChar(x[0]); }
    NameStarts(x);
    assert e == x[..n] && x == e + x[n..] && e[0] == x[0];
    assert forall i :: 0 <= i < |e| ==> IsNameChar(e[i]);
    assert IsEngineMatch(t, w, s, r, e, x[n..]);
  }

  lemma StartIsNameChar(c: char)
    requires IsNameStart(c)
    ensures IsNameChar(c)
  {
  }

  lemma NameStarts(x: string)
    requires x != "" && IsNameChar(x[0])
    ensures NameLen(x) > 0
  {
  }

  // ----- `ENGINE\s*=\s*(Replicated[A-Za-z]*MergeTree)\s*\(\s*''\s*,\s*''`

  ghost predicate IsFamilyName(e: string, a: string, m: string, b: string) {
    e == a + (m + b) && Spelled(a, "replicated") && Spelled(b, "mergetree")
    && forall i :: 0 <= i < |m| ==> IsFoldLetter(m[i])
  }

  ghost predicate FamilyName(e: string) {
    exists a, m, b :: IsFamilyName(e, a, m, b)
  }

  // `\s*` and `part` lead up to what is left.
  ghost predicate Leads(t: string, part: string, rest: string) {
    exists s :: AllSpace(s) && t == s + (part + rest)
  }

  ghost predicate OpensTwoLiterals(q: string) {
    exists r1, r2, r3, r4 :: Leads(q, "(", r1) && Leads(r1, "''", r2) && Leads(r2, ",", r3) && Leads(r3, "''", r4)
  }

  ghost predicate IsExplicitMatch(t: string, w: string, s: string, r: string, e: string, q: string) {
    IsAssign(t, w, s, r, e + q) && FamilyName(e) && OpensTwoLiterals(q)
  }

  ghost predicate ExplicitMatch(t: string, e: string) {
    exists w, s, r, q :: IsExplicitMatch(t, w, s, r, e, q)
  }

  lemma BehindLeads(t: string, part: string, rest: string)
    requires part != "" && !IsSpace(part[0])
    ensures Behind(t, part) == Some(rest) <==> Leads(t, part, rest)
  {
    hide IsSpace;
    if Behind(t, part) == Some(rest) {
      SpaceSplits(t);
      assert t == t[..SpaceLen(t)] + (part + rest);
    }
    if Leads(t, part, rest) {
      var s :| AllSpace(s) && t == s + (part + rest);
      assert (part + rest)[0] == part[0];
      SpaceIs(s, part + rest);
    }
  }

  lemma NoSpaceInParts()
    ensures !IsSpace('(') && !IsSpace('\'') && !IsSpace(',')
    ensures !IsFoldLetter('(')
  {
  }

  lemma TwoLiteralsAre(q: string)
    ensures OpensTwoLiterals(q) <==> Behind(q, "(").Some? && TwoLiterals(Behind(q, "(").value)
  {
    NoSpaceInParts();
    hide Behind, Leads, IsSpace;
    if OpensTwoLiterals(q) {
      var r1, r2, r3, r4 :| Leads(q, "(", r1) && Leads(r1, "''", r2) && Leads(r2, ",", r3) && Leads(r3, "''", r4);
      BehindLeads(q, "(", r1);
      BehindLeads(r1, "''", r2);
      BehindLeads(r2, ",", r3);
      BehindLeads(r3, "''", r4);
    }
    if Behind(q, "(").Some? && TwoLiterals(Behind(q, "(").value) {
      var r1 := Behind(q, "(").value;
      var r2 := Behind(r1, "''").value;
      var r3 := Behind(r2, ",").value;
      var r4 := Behind(r3, "''").value;
      BehindLeads(q, "(", r1);
      BehindLeads(r1, "''", r2);
      BehindLeads(r2, ",", r3);
      BehindLeads(r3, "''", r4);
    }
  }

  lemma {:induction false} LettersLenIs(e: string, q: string)
    requires (forall i :: 0 <= i < |e| ==> IsFoldLetter(e[i])) && (q == "" || !IsFoldLetter(q[0]))
    ensures LettersLen(e + q) == |e| && (e + q)[..|e|] == e && (e + q)[|e|..] == q
  {
    hide IsFoldLetter;
    if e == "" {
      assert e + q == q;
    } else {
      assert (e + q)[0] == e[0] && (e + q)[1..] == e[1..] + q;
      LettersLenIs(e[1..], q);
    }
  }

  lemma {:induction false} LettersLenSplits(t: string)
    ensures forall i :: 0 <= i < LettersLen(t) ==> IsFoldLetter(t[i])
  {
    hide IsFoldLetter;
    if t != "" && IsFoldLetter(t[0]) {
      LettersLenSplits(t[1..]);
    }
  }

  lemma SpelledLetters(w: string, word: string)
    requires Spelled(w, word) && forall i :: 0 <= i < |word| ==> 'a' <= word[i] <= 'z'
    ensures forall i :: 0 <= i < |w| ==> IsFoldLetter(w[i])
  {
    hide Fold;
  }

  lemma FamilyIsLetters(e: string)
    requires FamilyName(e)
    ensures IsReplicatedFamily(e) && forall i :: 0 <= i < |e| ==> IsFoldLetter(e[i])
  {
    var a, m, b :| IsFamilyName(e, a, m, b);
    assert forall i :: 0 <= i < 10 ==> 'a' <= "replicated"[i] <= 'z';
    assert forall i :: 0 <= i < 9 ==> 'a' <= "mergetree"[i] <= 'z';
    SpelledLetters(a, "replicated");
    SpelledLetters(b, "mergetree");
    hide IsFoldLetter, Begins;
    BeginsWith(a, "replicated", m + b);
    BeginsWith(b, "mergetree", "");
    assert b + "" == b;
    assert e[|e| - 9..] == b;
  }

  lemma FamilyIs(e: string)
    requires forall i :: 0 <= i < |e| ==> IsFoldLetter(e[i])
    ensures IsReplicatedFamily(e) <==> FamilyName(e)
  {
    if IsReplicatedFamily(e) {
      hide Begins, IsFoldLetter;
      BeginsSpelled(e, "replicated");
      var b := e[|e| - 9..];
      BeginsSpelled(b, "mergetree");
      assert b[..9] == b;
      var m := e[10..|e| - 9];
      assert e == e[..10] + (m + b);
      assert IsFamilyName(e, e[..10], m, b);
    }
    if FamilyName(e) {
      FamilyIsLetters(e);
    }
  }

  lemma NoLetterOpens(q: string)
    requires OpensTwoLiterals(q)
    ensures q != "" && !IsFoldLetter(q[0])
  {
    var r1, r2, r3, r4 :| Leads(q, "(", r1) && Leads(r1, "''", r2) && Leads(r2, ",", r3) && Leads(r3, "''", r4);
    var s :| AllSpace(s) && q == s + ("(" + r1);
    if s == "" {
      assert q[0] == '(';
    } else {
      assert q[0] == s[0] && IsSpace(s[0]);
    }
  }

  lemma ExplicitAtIs(t: string, e: string)
    ensures ExplicitAt(t) == Some(e) <==> ExplicitMatch(t, e)
  {
    if ExplicitAt(t) == Some(e) {
      ExplicitAtMatches(t, e);
    }
    if ExplicitMatch(t, e) {
      var w, s, r, q :| IsExplicitMatch(t, w, s, r, e, q);
      FamilyIsLetters(e);
      NoLetterOpens(q);
      TwoLiteralsAre(q);
      assert (e + q)[0] == e[0];
      NameCharIsSolid(e[0]);
      hide IsSpace, IsFoldLetter, BehindEngine, IsReplicatedFamily, TwoLiterals, OpensTwoLiterals, Behind, FamilyName;
      AssignIsBehind(t, w, s, r, e + q);
      LettersLenIs(e, q);
    }
  }

  lemma ExplicitAtMatches(t: string, e: string)
    requires ExplicitAt(t) == Some(e)
    ensures ExplicitMatch(t, e)
  {
    hide IsSpace, IsFoldLetter, BehindEngine, IsReplicatedFamily, TwoLiterals, OpensTwoLiterals, Behind, FamilyName;
    BehindIsAssign(t);
    var x := BehindEngine(t).value;
    var w, s, r :| IsAssign(t, w, s, r, x);
    var n := LettersLen(x);
    LettersLenSplits(x);
    assert e == x[..n] && x == e + x[n..];
    assert forall i :: 0 <= i < |e| ==> IsFoldLetter(e[i]);
    FamilyIs(e);
    TwoLiteralsAre(x[n..]);
    assert IsExplicitMatch(t, w, s, r, e, x[n..]);
  }

  // ----- the first match

  ghost predicate ClusterAtPlace(t: string, i: nat, inWord: bool) {
    WordAt(t, i, inWord) && ClusterMatch(t[i..])
  }

  ghost predicate EngineAtPlace(t: string, i: nat, inWord: bool, e: string) {
    WordAt(t, i, inWord) && EngineMatch(t[i..], e)
  }

  ghost predicate ExplicitAtPlace(t: string, i: nat, inWord: bool, e: string) {
    WordAt(t, i, inWord) && ExplicitMatch(t[i..], e)
  }

  lemma OnePlaceOn(t: string, i: nat, inWord: bool)
    requires t != ""
    ensures WordAt(t, i + 1, inWord) <==> WordAt(t[1..], i, IsWord(t[0]))
    ensures i + 1 < |t| ==> t[i + 1..] == t[1..][i..]
  {
  }

  lemma {:induction false} FindsClusterIs(t: string, inWord: bool)
    ensures FindsCluster(t, inWord) <==> exists i :: ClusterAtPlace(t, i, inWord)
  {
    hide ClusterAt, ClusterMatch, IsWord;
    if t != "" {
      ClusterAtIs(t);
      assert t[0..] == t;
      var rest, in2 := t[1..], IsWord(t[0]);
      FindsClusterIs(rest, in2);
      forall i: nat ensures ClusterAtPlace(t, i + 1, inWord) <==> ClusterAtPlace(rest, i, in2) {
        OnePlaceOn(t, i, inWord);
      }
      assert ClusterAtPlace(t, 0, inWord) <==> !inWord && ClusterAt(t);
      if i: nat :| ClusterAtPlace(t, i, inWord) {
        assert i > 0 ==> (ClusterAtPlace(t, i - 1 + 1, inWord) <==> ClusterAtPlace(rest, i - 1, in2));
      }
    }
  }

  // The leftmost match names `e`.
  ghost predicate IsFirst(match_: (nat, string) -> bool, e: string) {
    exists i: nat :: match_(i, e) && forall j: nat, f :: j < i ==> !match_(j, f)
  }

  ghost predicate FirstNamed(t: string, inWord: bool, e: string) {
    IsFirst((i: nat, f: string) => EngineAtPlace(t, i, inWord, f), e)
  }

  ghost predicate FirstArguments(t: string, inWord: bool, e: string) {
    IsFirst((i: nat, f: string) => ExplicitAtPlace(t, i, inWord, f), e)
  }

  lemma FirstIsHere(p: (nat, string) -> bool, e: string, f: string)
    requires p(0, f) && (forall g :: p(0, g) ==> g == f)
    ensures IsFirst(p, e) <==> e == f
  {
  }

  lemma FirstOneOn(p: (nat, string) -> bool, q: (nat, string) -> bool, e: string)
    requires (forall f :: !p(0, f)) && forall i: nat, f :: q(i, f) <==> p(i + 1, f)
    ensures IsFirst(p, e) <==> IsFirst(q, e)
  {
    if IsFirst(p, e) {
      var i: nat :| p(i, e) && forall j: nat, f :: j < i ==> !p(j, f);
      assert i > 0 && q(i - 1, e);
      assert forall j: nat, f :: j < i - 1 ==> (q(j, f) <==> p(j + 1, f));
    }
    if IsFirst(q, e) {
      var i: nat :| q(i, e) && forall j: nat, f :: j < i ==> !q(j, f);
      assert p(i + 1, e);
      forall j: nat, f | j < i + 1 ensures !p(j, f) {
        assert j > 0 ==> (q(j - 1, f) <==> p(j - 1 + 1, f));
      }
    }
  }

  lemma {:induction false} FirstEngineIs(t: string, inWord: bool, e: string)
    ensures FirstEngine(t, inWord) == Some(e) <==> FirstNamed(t, inWord, e)
  {
    hide EngineAt, EngineMatch, IsWord;
    if t != "" {
      var p := (i: nat, f: string) => EngineAtPlace(t, i, inWord, f);
      assert t[0..] == t;
      forall f ensures p(0, f) <==> !inWord && EngineAt(t) == Some(f) {
        EngineAtIs(t, f);
      }
      if !inWord && EngineAt(t).Some? {
        FirstIsHere(p, e, EngineAt(t).value);
      } else {
        var rest, in2 := t[1..], IsWord(t[0]);
        FirstEngineIs(rest, in2, e);
        var q := (i: nat, f: string) => EngineAtPlace(rest, i, in2, f);
        forall i: nat, f ensures q(i, f) <==> p(i + 1, f) {
          OnePlaceOn(t, i, inWord);
        }
        FirstOneOn(p, q, e);
      }
    }
  }

  lemma {:induction false} FirstExplicitIs(t: string, inWord: bool, e: string)
    ensures FirstExplicit(t, inWord) == Some(e) <==> FirstArguments(t, inWord, e)
  {
    hide ExplicitAt, ExplicitMatch, IsWord;
    if t != "" {
      var p := (i: nat, f: string) => ExplicitAtPlace(t, i, inWord, f);
      assert t[0..] == t;
      forall f ensures p(0, f) <==> !inWord && ExplicitAt(t) == Some(f) {
        ExplicitAtIs(t, f);
      }
      if !inWord && ExplicitAt(t).Some? {
        FirstIsHere(p, e, ExplicitAt(t).value);
      } else {
        var rest, in2 := t[1..], IsWord(t[0]);
        FirstExplicitIs(rest, in2, e);
        var q := (i: nat, f: string) => ExplicitAtPlace(rest, i, in2, f);
        forall i: nat, f ensures q(i, f) <==> p(i + 1, f) {
          OnePlaceOn(t, i, inWord);
        }
        FirstOneOn(p, q, e);
      }
    }
  }

  // None is found exactly where none stands.
  lemma {:induction false} NoEngineIs(t: string, inWord: bool)
    ensures FirstEngine(t, inWord) == None <==> forall i, e :: !EngineAtPlace(t, i, inWord, e)
  {
    hide EngineAt, EngineMatch, IsWord;
    if t != "" {
      assert t[0..] == t;
      forall e ensures EngineAtPlace(t, 0, inWord, e) <==> !inWord && EngineAt(t) == Some(e) {
        EngineAtIs(t, e);
      }
      if !inWord && EngineAt(t).Some? {
        assert EngineAtPlace(t, 0, inWord, EngineAt(t).value);
      } else {
        var rest, in2 := t[1..], IsWord(t[0]);
        NoEngineIs(rest, in2);
        forall i: nat, e ensures EngineAtPlace(rest, i, in2, e) <==> EngineAtPlace(t, i + 1, inWord, e) {
          OnePlaceOn(t, i, inWord);
        }
        if i: nat, e :| EngineAtPlace(t, i, inWord, e) {
          assert i > 0 && EngineAtPlace(rest, i - 1, in2, e);
        }
      }
    }
  }

  // ----- `^\s*CREATE\s+(?:OR\s+REPLACE\s+)?(DATABASE|TABLE|MATERIALIZED\s+VIEW)\b`

  // Upper-cased, the words are the kind's own: a dotted capital I stays one.
  ghost predicate Names(u: string, kind: Kind) {
    match kind
    case Database => Spelled(u, "database")
    case Table => Spelled(u, "table")
    case MaterializedView => exists a, s, b :: IsView(u, a, s, b) && '\U{130}' !in a && '\U{130}' !in b
    case Other => false
  }

  ghost predicate IsView(u: string, a: string, s: string, b: string) {
    u == a + (s + b) && Spelled(a, "materialized") && Gap(s) && Spelled(b, "view")
  }

  ghost predicate OrReplace(m: string, a: string, s: string, b: string, v: string) {
    m == a + (s + (b + v)) && Spelled(a, "or") && Gap(s) && Spelled(b, "replace") && Gap(v)
  }

  ghost predicate Opens(t: string, kind: Kind, lead: string, c: string, s: string, m: string, u: string, q: string) {
    && t == lead + (c + (s + (m + (u + q))))
    && AllSpace(lead) && Spelled(c, "create") && Gap(s)
    && (m == "" || exists a, s', b, v :: OrReplace(m, a, s', b, v))
    && Names(u, kind) && WordEnds(q)
  }

  ghost predicate Creates(t: string, kind: Kind) {
    exists lead, c, s, m, u, q :: Opens(t, kind, lead, c, s, m, u, q)
  }

  lemma SkipIs(t: string, w: string, word: string, s: string, rest: string)
    requires t == w + (s + rest) && Spelled(w, word) && Gap(s) && rest != "" && !IsSpace(rest[0])
    ensures Skip(t, word) == Some(rest)
  {
    hide IsSpace, Begins, SpaceLen;
    BeginsWith(w, word, s + rest);
    SpaceIs(s, rest);
    assert t[|word| + |s|..] == rest;
  }

  lemma SkipMeans(t: string, word: string)
    requires Skip(t, word).Some?
    ensures var r := Skip(t, word).value;
            exists w, s :: t == w + (s + r) && Spelled(w, word) && Gap(s) && (r == "" || !IsSpace(r[0]))
  {
    hide IsSpace, Begins, SpaceLen;
    BeginsSpelled(t, word);
    var x := t[|word|..];
    SpaceSplits(x);
    var s, r := x[..SpaceLen(x)], Skip(t, word).value;
    assert x[SpaceLen(x)..] == r;
    assert t == t[..|word|] + (s + r) && Gap(s);
  }

  lemma EndsIs(t: string, word: string)
    ensures Ends(t, word) <==> |word| <= |t| && Spelled(t[..|word|], word) && WordEnds(t[|word|..])
  {
    hide Begins, Fold, IsWord;
    BeginsSpelled(t, word);
  }

  ghost predicate KindHere(r: string, kind: Kind, u: string, q: string) {
    r == u + q && Names(u, kind) && WordEnds(q)
  }

  lemma KindAtMeans(r: string)
    requires KindAt(r) != Other
    ensures exists u, q :: KindHere(r, KindAt(r), u, q)
  {
    EndsIs(r, "database");
    EndsIs(r, "table");
    if Ends(r, "database") {
      assert r == r[..8] + r[8..];
      assert KindHere(r, Kind.Database, r[..8], r[8..]);
    } else if Ends(r, "table") {
      assert r == r[..5] + r[5..];
      assert KindHere(r, Kind.Table, r[..5], r[5..]);
    } else {
      ViewMeans(r);
    }
  }

  lemma ViewIsRead(r: string)
    requires KindAt(r) == MaterializedView
    ensures Skip(r, "materialized").Some? && |r| >= 12 && '\U{130}' !in r[..12]
    ensures var x := Skip(r, "materialized").value; Ends(x, "view") && '\U{130}' !in x[..Min4(|x|)]
  {
    hide Begins, IsSpace, IsWord, SpaceLen;
  }

  lemma ViewMeans(r: string)
    requires KindAt(r) == MaterializedView
    ensures exists u, q :: KindHere(r, MaterializedView, u, q)
  {
    ViewIsRead(r);
    var x := Skip(r, "materialized").value;
    SkipMeans(r, "materialized");
    EndsIs(x, "view");
    assert Min4(|x|) == 4;
    var w, s :| r == w + (s + x) && Spelled(w, "materialized") && Gap(s) && (x == "" || !IsSpace(x[0]));
    hide *;
    assert |w| == 12 && |"view"| == 4 by { SpelledLength(w); }
    ViewParts(r, w, s, x);
  }

  lemma SpelledLength(w: string)
    requires Spelled(w, "materialized")
    ensures |w| == 12 && |"view"| == 4
  {
  }

  lemma ViewParts(r: string, w: string, s: string, x: string)
    requires r == w + (s + x) && |w| == 12 && Spelled(w, "materialized") && Gap(s)
    requires |x| >= 4 && Spelled(x[..4], "view") && WordEnds(x[4..]) && '\U{130}' !in r[..12] && '\U{130}' !in x[..4]
    ensures exists u, q :: KindHere(r, MaterializedView, u, q)
  {
    hide Spelled, Gap, WordEnds;
    var b, q := x[..4], x[4..];
    assert w == r[..12] && x == b + q;
    var u := w + (s + b);
    assert IsView(u, w, s, b) && Names(u, MaterializedView);
    assert r == u + q;
    assert KindHere(r, MaterializedView, u, q);
  }

  lemma KindAtIs(r: string, kind: Kind, u: string, q: string)
    requires kind != Other && KindHere(r, kind, u, q)
    ensures KindAt(r) == kind && Skip(r, "or") == None && r != "" && !IsSpace(r[0])
  {
    hide Skip, KindAt, IsSpace, IsWord, AllSpace;
    match kind {
      case Database => OneWordIs(r, kind, "database", u, q);
      case Table => OneWordIs(r, kind, "table", u, q);
      case MaterializedView =>
        var a, s, b :| IsView(u, a, s, b) && '\U{130}' !in a && '\U{130}' !in b;
        ViewIs(r, a, s, b, q);
        NoOr(r);
    }
  }

  lemma NoOr(r: string)
    requires r != "" && Fold(r[0]) != 'o'
    ensures Skip(r, "or") == None
  {
    BeginsSpelled(r, "or");
  }

  lemma OneWordIs(r: string, kind: Kind, word: string, u: string, q: string)
    requires r == u + q && Spelled(u, word) && WordEnds(q)
    requires (kind == Kind.Database && word == "database") || (kind == Kind.Table && word == "table")
    ensures KindAt(r) == kind && Skip(r, "or") == None && r != "" && !IsSpace(r[0])
  {
    EndsIs(r, "database");
    EndsIs(r, "table");
    assert r[..|word|] == u && r[|word|..] == q && Fold(r[0]) == word[0];
    LetterIsSolid(u, word, q);
    NoOr(r);
    hide Skip, IsSpace, Spelled, IsWord;
    assert kind == Kind.Table ==> !Ends(r, "database") by { BeginsSpelled(r, "database"); assert Begins(r, "database")
      ==> Fold(r[0]) == 'd'; }
  }

  lemma ViewIs(r: string, a: string, s: string, b: string, q: string)
    requires r == a + (s + b) + q && Spelled(a, "materialized") && Gap(s) && Spelled(b, "view") && WordEnds(q)
    requires '\U{130}' !in a && '\U{130}' !in b
    ensures KindAt(r) == MaterializedView && Fold(r[0]) == 'm' && Fold(r[0]) != 'o' && !IsSpace(r[0])
  {
    var x := b + q;
    LetterIsSolid(b, "view", q);
    hide IsSpace, IsWord;
    assert Fold(r[0]) == 'm';
    BeginsSpelled(r, "database");
    BeginsSpelled(r, "table");
    assert r == a + (s + x);
    SkipIs(r, a, "materialized", s, x);
    EndsIs(x, "view");
    assert x[..4] == b && x[4..] == q && r[..12] == a && x[..Min4(|x|)] == b;
  }

  lemma KindOfMeans(t: string)
    requires KindOf(t) != Other
    ensures Creates(t, KindOf(t))
  {
    hide KindAt, Skip, IsSpace, Fold, Names, IsWord;
    var n, kind := SpaceLen(t), KindOf(t);
    SpaceSplits(t);
    var lead := t[..n];
    SkipMeans(t[n..], "create");
    var r := Skip(t[n..], "create").value;
    var c, s :| t[n..] == c + (s + r) && Spelled(c, "create") && Gap(s) && (r == "" || !IsSpace(r[0]));
    if KindAt(r) == kind {
      KindAtMeans(r);
      var u, q :| KindHere(r, kind, u, q);
      assert "" + (u + q) == r;
      assert Opens(t, kind, lead, c, s, "", u, q);
    } else {
      var p, m := ReplaceMeans(r);
      assert KindAt(p) == kind;
      KindAtMeans(p);
      var u, q :| KindHere(p, kind, u, q);
      assert Opens(t, kind, lead, c, s, m, u, q);
    }
  }

  lemma ReplaceMeans(r: string) returns (p: string, m: string)
    requires Skip(r, "or").Some? && Skip(Skip(r, "or").value, "replace").Some?
    ensures p == Skip(Skip(r, "or").value, "replace").value && r == m + p
    ensures exists a, s, b, v :: OrReplace(m, a, s, b, v)
  {
    hide Skip, IsSpace, Fold;
    var q := Skip(r, "or").value;
    SkipMeans(r, "or");
    var a, s :| r == a + (s + q) && Spelled(a, "or") && Gap(s);
    SkipMeans(q, "replace");
    p := Skip(q, "replace").value;
    var b, v :| q == b + (v + p) && Spelled(b, "replace") && Gap(v);
    m := a + (s + (b + v));
    assert OrReplace(m, a, s, b, v);
  }

  lemma CreatesIs(t: string, kind: Kind)
    requires kind != Other && Creates(t, kind)
    ensures KindOf(t) == kind
  {
    hide KindOf, KindAt, Skip, IsSpace, Fold, Names, IsWord, Spelled, AllSpace;
    var lead, c, s, m, u, q :| Opens(t, kind, lead, c, s, m, u, q);
    assert KindHere(u + q, kind, u, q);
    KindAtIs(u + q, kind, u, q);
    if m == "" {
      assert "" + (u + q) == u + q;
      OpensWith(t, lead, c, s, u + q);
      KindWithout(t, u + q, kind);
    } else {
      var a, s', b, v :| OrReplace(m, a, s', b, v);
      ReplaceIs(m + (u + q), m, a, s', b, v, u + q);
      OpensWith(t, lead, c, s, m + (u + q));
      KindReplaced(t, m + (u + q), u + q, kind);
    }
  }

  lemma KindWithout(t: string, r: string, kind: Kind)
    requires Skip(t[SpaceLen(t)..], "create") == Some(r) && Skip(r, "or") == None && KindAt(r) == kind
    ensures KindOf(t) == kind
  {
    hide Skip, KindAt;
  }

  lemma KindReplaced(t: string, r: string, p: string, kind: Kind)
    requires Skip(t[SpaceLen(t)..], "create") == Some(r) && Skip(r, "or").Some?
    requires Skip(Skip(r, "or").value, "replace") == Some(p) && KindAt(p) == kind != Other
    ensures KindOf(t) == kind
  {
    hide Skip, KindAt;
  }

  lemma OpensWith(t: string, lead: string, c: string, s: string, r: string)
    requires t == lead + (c + (s + r)) && AllSpace(lead) && Spelled(c, "create") && Gap(s) && r != "" && !IsSpace(r[0])
    ensures Skip(t[SpaceLen(t)..], "create") == Some(r)
  {
    LetterIsSolid(c, "create", s + r);
    SpaceIs(lead, c + (s + r));
    hide IsSpace, SpaceLen, Skip;
    SkipIs(c + (s + r), c, "create", s, r);
  }

  lemma ReplaceIs(r: string, m: string, a: string, s: string, b: string, v: string, p: string)
    requires OrReplace(m, a, s, b, v) && r == m + p && p != "" && !IsSpace(p[0])
    ensures r != "" && !IsSpace(r[0])
    ensures Skip(r, "or").Some? && Skip(Skip(r, "or").value, "replace") == Some(p)
  {
    var x := b + (v + p);
    assert r == a + (s + x);
    LetterIsSolid(b, "replace", v + p);
    LetterIsSolid(a, "or", s + x);
    hide IsSpace, Skip;
    SkipIs(r, a, "or", s, x);
    SkipIs(x, b, "replace", v, p);
  }

  // The kind that the gate reads is the one that the statement creates.
  lemma KindIsCreated(t: string, kind: Kind)
    requires kind != Other
    ensures KindOf(t) == kind <==> Creates(t, kind)
  {
    hide KindOf, Creates;
    if KindOf(t) == kind {
      KindOfMeans(t);
    }
    if Creates(t, kind) {
      CreatesIs(t, kind);
    }
  }

  // ----- what the gate finds, by its patterns

  // The five rules, over the text that the gate reads.
  ghost predicate Breaks(t: string, p: Problem) {
    match p
    case CarriesOnCluster(_) =>
      (exists i :: ClusterAtPlace(t, i, false)) && !(Creates(t, Kind.Database) && FirstNamed(t, false, "Replicated"))
    case DeclaresNoEngine(_) => Creates(t, Kind.Table) && forall i, e :: !EngineAtPlace(t, i, false, e)
    case NotReplicated(e, _) =>
      Creates(t, Kind.Table) && FirstNamed(t, false, e) && !("Replicated" <= e) && e != "Merge"
    case InnerNotReplicated(e, _) =>
      Creates(t, MaterializedView) && FirstNamed(t, false, e) && !("Replicated" <= e)
    case NamesItsOwnPath(e, _) => FirstArguments(t, false, e)
  }

  lemma ProblemsAreBreaches(t: string, p: Problem)
    ensures IsProblem(t, p) <==> p.head == Head(t) && Breaks(t, p)
  {
    FindsClusterIs(t, false);
    FirstEngineIs(t, false, "Replicated");
    NoEngineIs(t, false);
    KindIsCreated(t, Kind.Database);
    KindIsCreated(t, Kind.Table);
    KindIsCreated(t, MaterializedView);
    match p {
      case NotReplicated(e, _) => FirstEngineIs(t, false, e);
      case InnerNotReplicated(e, _) => FirstEngineIs(t, false, e);
      case NamesItsOwnPath(e, _) => FirstExplicitIs(t, false, e);
      case _ =>
    }
    hide FindsCluster, FirstEngine, FirstExplicit, KindOf, Creates, FirstNamed, FirstArguments, Head;
  }
}

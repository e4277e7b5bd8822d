/** Statements as the renderer composes them, and why the gate reads nothing of their literals. */
module Atoms {
  import opened Text
  import opened Words
  import opened Literals
  import opened Gate

  // A piece of a statement: a character outside every literal, or a literal with its body as written.
  datatype Atom = Ch(c: char) | Lit(body: string)

  function Written(a: Atom): string {
    if a.Ch? then [a.c] else "'" + a.body + "'"
  }

  function Flat(atoms: seq<Atom>): string {
    if atoms == [] then "" else Written(atoms[0]) + Flat(atoms[1..])
  }

  predicate HasBreak(t: string) {
    exists i :: 0 <= i < |t| && IsBreak(t[i])
  }

  lemma NoBreakJoin(a: string, b: string)
    requires !HasBreak(a) && !HasBreak(b)
    ensures !HasBreak(a + b)
  {
    hide IsBreak;
    var t := a + b;
    forall i | 0 <= i < |t| ensures !IsBreak(t[i]) {
      assert t[i] == if i < |a| then a[i] else b[i - |a|];
    }
  }

  // No quote outside a literal, and no line break inside one.
  predicate IsAtom(a: Atom) {
    match a
    case Ch(c) => c != '\''
    case Lit(body) => IsBody(body) && !HasBreak(body)
  }

  ghost predicate Valid(atoms: seq<Atom>) {
    forall a <- atoms :: IsAtom(a)
  }

  // The same with every literal emptied.
  function Emptied(atoms: seq<Atom>): (r: seq<Atom>)
    ensures |r| == |atoms|
  {
    if atoms == [] then [] else [if atoms[0].Ch? then atoms[0] else Lit("")] + Emptied(atoms[1..])
  }

  function Skeleton(atoms: seq<Atom>): string {
    Flat(Emptied(atoms))
  }

  lemma {:induction false} EmptiedAt(atoms: seq<Atom>)
    ensures forall i :: 0 <= i < |atoms| ==> Emptied(atoms)[i] == if atoms[i].Ch? then atoms[i] else Lit("")
  {
    if atoms != [] {
      EmptiedAt(atoms[1..]);
    }
  }

  lemma {:induction false} FlatConcat(a: seq<Atom>, b: seq<Atom>)
    ensures Flat(a + b) == Flat(a) + Flat(b)
  {
    hide Written;
    if a == [] {
      assert a + b == b;
    } else {
      assert (a + b)[1..] == a[1..] + b;
      FlatConcat(a[1..], b);
    }
  }

  lemma {:induction false} EmptiedConcat(a: seq<Atom>, b: seq<Atom>)
    ensures Emptied(a + b) == Emptied(a) + Emptied(b)
  {
    if a == [] {
      assert a + b == b;
    } else {
      assert (a + b)[1..] == a[1..] + b;
      EmptiedConcat(a[1..], b);
    }
  }

  lemma SkeletonConcat(a: seq<Atom>, b: seq<Atom>)
    ensures Skeleton(a + b) == Skeleton(a) + Skeleton(b)
  {
    EmptiedConcat(a, b);
    FlatConcat(Emptied(a), Emptied(b));
  }

  lemma EmptiedTwice(atoms: seq<Atom>)
    requires Valid(atoms)
    ensures Emptied(Emptied(atoms)) == Emptied(atoms) && Valid(Emptied(atoms))
  {
    EmptiedAt(atoms);
    EmptiedAt(Emptied(atoms));
    assert IsBody("") by { assert "" + "'" == "'"; }
    hide IsBody;
    forall a | a in Emptied(atoms) ensures IsAtom(a) {
      var i :| 0 <= i < |atoms| && a == Emptied(atoms)[i];
      assert atoms[i] in atoms;
    }
  }

  // ----- blanking the literals leaves the skeleton

  lemma BlankedAtom(a: Atom, rest: string)
    requires IsAtom(a)
    ensures Blanked(Written(a) + rest) == (if a.Ch? then [a.c] else "''") + Blanked(rest)
  {
    var t := Written(a) + rest;
    match a
    case Ch(c) =>
      assert t[0] == c && t[1..] == rest;
    case Lit(body) =>
      hide QuotedLen;
      QuotedBody(body, rest);
      assert t == "'" + body + "'" + rest;
      assert t[|body| + 2..] == rest;
  }

  lemma {:induction false} BlankedFlat(atoms: seq<Atom>)
    requires Valid(atoms)
    ensures Blanked(Flat(atoms)) == Skeleton(atoms)
  {
    if atoms != [] {
      var a, rest := atoms[0], atoms[1..];
      assert a in atoms;
      BlankedFlat(rest);
      hide IsAtom, Blanked;
      BlankedAtom(a, Flat(rest));
      var e := if a.Ch? then a else Lit("");
      assert Written(e) == if a.Ch? then [a.c] else "''";
      assert ([e] + Emptied(rest))[0] == e && ([e] + Emptied(rest))[1..] == Emptied(rest);
    }
  }

  // ----- lines

  function AtomBreak(atoms: seq<Atom>): (n: nat)
    ensures n <= |atoms|
  {
    if atoms == [] || atoms[0].Lit? || !IsBreak(atoms[0].c) then 0
    else if atoms[0].c == '\r' && |atoms| > 1 && atoms[1] == Ch('\n') then 2 else 1
  }

  // The lines of a statement, as `str.splitlines` cuts its text.
  function AtomLines(atoms: seq<Atom>): seq<seq<Atom>> {
    if atoms == [] then []
    else
      var n := AtomBreak(atoms);
      if n > 0 then [[]] + AtomLines(atoms[n..])
      else
        var rest := AtomLines(atoms[1..]);
        if rest == [] then [[atoms[0]]] else [[atoms[0]] + rest[0]] + rest[1..]
  }

  function FlatLines(lines: seq<seq<Atom>>): (r: seq<string>)
    ensures |r| == |lines|
  {
    if lines == [] then [] else [Flat(lines[0])] + FlatLines(lines[1..])
  }

  function EmptiedLines(lines: seq<seq<Atom>>): (r: seq<seq<Atom>>)
    ensures |r| == |lines|
  {
    if lines == [] then [] else [Emptied(lines[0])] + EmptiedLines(lines[1..])
  }

  function OntoFirst(p: string, lines: seq<string>): seq<string> {
    if lines == [] then [p] else [p + lines[0]] + lines[1..]
  }

  lemma {:induction false} SplitPrefix(p: string, t: string)
    requires p != "" && !HasBreak(p)
    ensures SplitLines(p + t) == OntoFirst(p, SplitLines(t))
  {
    var u := p + t;
    assert u[0] == p[0] && u[1..] == p[1..] + t;
    assert BreakLen(u) == 0;
    if |p| == 1 {
      assert p[1..] + t == t && p == [p[0]];
    } else {
      assert !HasBreak(p[1..]) by {
        forall i | 0 <= i < |p[1..]| ensures !IsBreak(p[1..][i]) {
          assert p[1..][i] == p[i + 1];
        }
      }
      SplitPrefix(p[1..], t);
      var rest := SplitLines(t);
      assert p == [p[0]] + p[1..];
      assert rest != [] ==> [p[0]] + (p[1..] + rest[0]) == p + rest[0];
    }
  }

  lemma WrittenHasNoBreak(a: Atom)
    requires IsAtom(a) && (a.Ch? ==> !IsBreak(a.c))
    ensures Written(a) != "" && !HasBreak(Written(a))
  {
    if a.Lit? {
      var w := Written(a);
      forall i | 0 <= i < |w| ensures !IsBreak(w[i]) {
        if 0 < i < |w| - 1 {
          assert w[i] == a.body[i - 1];
        }
      }
    }
  }

  lemma FlatOntoFirst(a: Atom, lines: seq<seq<Atom>>)
    ensures FlatLines(if lines == [] then [[a]] else [[a] + lines[0]] + lines[1..])
        == OntoFirst(Written(a), FlatLines(lines))
  {
    hide Written;
    FlatConcat([a], []);
    assert Flat([a]) == Written(a) by { assert [a][1..] == [] && Flat([]) == ""; }
    if lines == [] {
      assert [[a]][1..] == [];
    } else {
      FlatConcat([a], lines[0]);
      var ls := [[a] + lines[0]] + lines[1..];
      assert ls[0] == [a] + lines[0] && ls[1..] == lines[1..];
    }
  }

  lemma SplitBreak(atoms: seq<Atom>, n: nat)
    requires Valid(atoms) && n == AtomBreak(atoms) > 0
    ensures SplitLines(Flat(atoms)) == [""] + SplitLines(Flat(atoms[n..]))
  {
    var t := Flat(atoms);
    var rest := Flat(atoms[1..]);
    assert t == [atoms[0].c] + rest && t[1..] == rest;
    if |atoms| > 1 {
      assert rest == Written(atoms[1]) + Flat(atoms[1..][1..]);
      assert rest[0] == if atoms[1].Ch? then atoms[1].c else '\'';
      assert atoms[1..][1..] == atoms[2..];
      assert atoms[1] == Ch('\n') ==> rest[1..] == Flat(atoms[2..]);
    }
    assert BreakLen(t) == n;
    assert t[n..] == Flat(atoms[n..]);
  }

  lemma {:induction false} SplitAtoms(atoms: seq<Atom>)
    requires Valid(atoms)
    ensures SplitLines(Flat(atoms)) == FlatLines(AtomLines(atoms))
    decreases |atoms|
  {
    if atoms != [] {
      var n := AtomBreak(atoms);
      assert atoms[0] in atoms;
      if n > 0 {
        SplitAtoms(atoms[n..]);
        SplitBreak(atoms, n);
        hide SplitLines, IsAtom;
        var ls := [[]] + AtomLines(atoms[n..]);
        assert ls[0] == [] && ls[1..] == AtomLines(atoms[n..]);
      } else {
        SplitAtoms(atoms[1..]);
        WrittenHasNoBreak(atoms[0]);
        hide SplitLines, IsAtom, Written, HasBreak;
        SplitPrefix(Written(atoms[0]), Flat(atoms[1..]));
        FlatOntoFirst(atoms[0], AtomLines(atoms[1..]));
      }
    }
  }

  lemma {:induction false} EmptiedAtomLines(atoms: seq<Atom>)
    ensures AtomLines(Emptied(atoms)) == EmptiedLines(AtomLines(atoms))
    decreases |atoms|
  {
    EmptiedAt(atoms);
    if atoms != [] {
      var n := AtomBreak(atoms);
      assert AtomBreak(Emptied(atoms)) == n;
      var k := if n > 0 then n else 1;
      EmptiedAtomLines(atoms[k..]);
      EmptiedConcat(atoms[..k], atoms[k..]);
      assert atoms == atoms[..k] + atoms[k..];
      assert Emptied(atoms)[k..] == Emptied(atoms[k..]);
      EmptiedStep(atoms, AtomLines(atoms[k..]));
    }
  }

  lemma EmptiedStep(atoms: seq<Atom>, lines: seq<seq<Atom>>)
    requires atoms != []
    ensures EmptiedLines([[]] + lines) == [[]] + EmptiedLines(lines)
    ensures EmptiedLines(if lines == [] then [[atoms[0]]] else [[atoms[0]] + lines[0]] + lines[1..])
         == var a := Emptied(atoms)[0]; var ls := EmptiedLines(lines); if ls == [] then [[a]]
           else [[a] + ls[0]] + ls[1..]
  {
    var a := atoms[0];
    assert ([[]] + lines)[0] == [] && ([[]] + lines)[1..] == lines;
    assert [a][1..] == [] && Emptied([a]) == [Emptied(atoms)[0]];
    if lines == [] {
      assert [[a]][1..] == [];
    } else {
      EmptiedConcat([a], lines[0]);
      var ls := [[a] + lines[0]] + lines[1..];
      assert ls[0] == [a] + lines[0] && ls[1..] == lines[1..];
    }
  }

  // ----- comment lines

  // Does a line of a statement begin with two dashes? A literal is no dash.
  predicate DashesFirst(line: seq<Atom>) {
    line != [] && line[0].Ch? &&
    if IsSpace(line[0].c) then DashesFirst(line[1..])
    else line[0].c == '-' && |line| > 1 && line[1] == Ch('-')
  }

  lemma {:induction false} CommentIsDashes(line: seq<Atom>)
    requires Valid(line)
    ensures IsCommentLine(Flat(line)) == DashesFirst(line)
  {
    var t := Flat(line);
    if line != [] {
      var a := line[0];
      assert a in line;
      assert t[0] == if a.Ch? then a.c else '\'';
      if a.Ch? {
        assert t[1..] == Flat(line[1..]);
        if IsSpace(a.c) {
          CommentIsDashes(line[1..]);
        } else if |line| > 1 {
          assert t[1..][0] == if line[1].Ch? then line[1].c else '\'';
        }
      }
    }
  }

  lemma {:induction false} DashesEmptied(line: seq<Atom>)
    ensures DashesFirst(Emptied(line)) == DashesFirst(line)
  {
    EmptiedAt(line);
    if line != [] {
      assert Emptied(line)[1..] == Emptied(line[1..]);
      DashesEmptied(line[1..]);
    }
  }

  function KeptLines(lines: seq<seq<Atom>>): seq<seq<Atom>> {
    if lines == [] then [] else (if DashesFirst(lines[0]) then [] else [lines[0]]) + KeptLines(lines[1..])
  }

  function JoinAtoms(lines: seq<seq<Atom>>): seq<Atom> {
    if lines == [] then [] else if |lines| == 1 then lines[0] else lines[0] + [Ch('\n')] + JoinAtoms(lines[1..])
  }

  ghost predicate ValidLines(lines: seq<seq<Atom>>) {
    forall l <- lines :: Valid(l)
  }

  lemma {:induction false} LinesAreValid(atoms: seq<Atom>)
    requires Valid(atoms)
    ensures ValidLines(AtomLines(atoms))
    decreases |atoms|
  {
    hide IsAtom;
    if atoms != [] {
      var n := AtomBreak(atoms);
      if n > 0 {
        LinesAreValid(atoms[n..]);
        assert ValidLines([[]] + AtomLines(atoms[n..]));
      } else {
        LinesAreValid(atoms[1..]);
        var rest := AtomLines(atoms[1..]);
        assert Valid([atoms[0]]);
        if rest != [] {
          assert rest[0] in rest;
          assert Valid([atoms[0]] + rest[0]);
          assert forall l <- rest[1..] :: l in rest;
        }
      }
    }
  }

  lemma {:induction false} KeptAreValid(lines: seq<seq<Atom>>)
    requires ValidLines(lines)
    ensures ValidLines(KeptLines(lines)) && Valid(JoinAtoms(lines))
  {
    hide IsAtom, DashesFirst;
    if lines != [] {
      assert lines[0] in lines && forall l <- lines[1..] :: l in lines;
      KeptAreValid(lines[1..]);
      assert IsAtom(Ch('\n')) by { NewlineIsAtom(); }
      assert |lines| > 1 ==> Valid(lines[0] + [Ch('\n')] + JoinAtoms(lines[1..]));
    }
  }

  lemma NewlineIsAtom()
    ensures IsAtom(Ch('\n'))
  {
  }

  lemma {:induction false} KeptFlat(lines: seq<seq<Atom>>)
    requires ValidLines(lines)
    ensures WithoutComments(FlatLines(lines)) == FlatLines(KeptLines(lines))
  {
    hide IsCommentLine, Flat, Valid;
    if lines != [] {
      assert lines[0] in lines;
      CommentIsDashes(lines[0]);
      KeptFlat(lines[1..]);
      var flat, kept := FlatLines(lines), KeptLines(lines[1..]);
      assert flat[0] == Flat(lines[0]) && flat[1..] == FlatLines(lines[1..]);
      assert ([lines[0]] + kept)[1..] == kept && ([lines[0]] + kept)[0] == lines[0] && [] + kept == kept;
      assert [] + FlatLines(kept) == FlatLines(kept);
    }
  }

  lemma {:induction false} JoinFlat(lines: seq<seq<Atom>>)
    ensures JoinLines(FlatLines(lines)) == Flat(JoinAtoms(lines))
  {
    if |lines| > 1 {
      JoinFlat(lines[1..]);
      FlatConcat(lines[0] + [Ch('\n')], JoinAtoms(lines[1..]));
      FlatConcat(lines[0], [Ch('\n')]);
      assert Flat([Ch('\n')]) == "\n" by { assert [Ch('\n')][1..] == [] && Flat([]) == ""; }
    }
  }

  lemma {:induction false} KeptEmptied(lines: seq<seq<Atom>>)
    ensures KeptLines(EmptiedLines(lines)) == EmptiedLines(KeptLines(lines))
  {
    hide DashesFirst, Emptied;
    if lines != [] {
      DashesEmptied(lines[0]);
      KeptEmptied(lines[1..]);
      var bare, kept := EmptiedLines(lines), KeptLines(lines[1..]);
      assert bare[0] == Emptied(lines[0]) && bare[1..] == EmptiedLines(lines[1..]);
      assert ([lines[0]] + kept)[1..] == kept && ([lines[0]] + kept)[0] == lines[0] && [] + kept == kept;
      assert [] + EmptiedLines(kept) == EmptiedLines(kept);
    }
  }

  lemma {:induction false} JoinEmptied(lines: seq<seq<Atom>>)
    ensures JoinAtoms(EmptiedLines(lines)) == Emptied(JoinAtoms(lines))
  {
    if |lines| > 1 {
      JoinEmptied(lines[1..]);
      EmptiedConcat(lines[0] + [Ch('\n')], JoinAtoms(lines[1..]));
      EmptiedConcat(lines[0], [Ch('\n')]);
      assert Emptied([Ch('\n')]) == [Ch('\n')] by { assert [Ch('\n')][1..] == []; }
    }
  }

  // ----- what the gate reads

  lemma GateReadsAtoms(atoms: seq<Atom>)
    requires Valid(atoms)
    ensures GateText(Flat(atoms)) == Skeleton(JoinAtoms(KeptLines(AtomLines(atoms))))
  {
    hide *;
    var lines := AtomLines(atoms);
    SplitAtoms(atoms);
    LinesAreValid(atoms);
    KeptFlat(lines);
    KeptAreValid(lines);
    JoinFlat(KeptLines(lines));
    KeptAreValid(KeptLines(lines));
    BlankedFlat(JoinAtoms(KeptLines(lines)));
    GateTextIs(Flat(atoms));
  }

  lemma GateTextIs(t: string)
    ensures GateText(t) == Blanked(JoinLines(WithoutComments(SplitLines(t))))
  {
    hide Blanked, WithoutComments;
  }

  // The gate reads a statement as it reads its skeleton.
  lemma GateReadsSkeleton(atoms: seq<Atom>)
    requires Valid(atoms)
    ensures GateText(Flat(atoms)) == GateText(Skeleton(atoms))
  {
    var bare := Emptied(atoms);
    EmptiedTwice(atoms);
    assert Skeleton(atoms) == Flat(bare);
    GateReadsAtoms(atoms);
    GateReadsAtoms(bare);
    var lines := AtomLines(atoms);
    EmptiedAtomLines(atoms);
    KeptEmptied(lines);
    JoinEmptied(KeptLines(lines));
    LinesAreValid(atoms);
    KeptAreValid(lines);
    KeptAreValid(KeptLines(lines));
    EmptiedTwice(JoinAtoms(KeptLines(lines)));
    assert Skeleton(JoinAtoms(KeptLines(lines))) == Skeleton(Emptied(JoinAtoms(KeptLines(lines)))) by {
      hide AtomLines, KeptLines, JoinAtoms, Flat;
    }
  }

  // Statements that differ in nothing but what their literals say get the same verdict, word for word.
  lemma LiteralsDoNotMatter(one: seq<Atom>, other: seq<Atom>, p: Problem)
    requires Valid(one) && Valid(other) && Emptied(one) == Emptied(other)
    ensures IsProblem(GateText(Flat(one)), p) == IsProblem(GateText(Flat(other)), p)
  {
    hide IsProblem, GateText, Flat, Emptied;
    GateReadsSkeleton(one);
    GateReadsSkeleton(other);
  }

  lemma Regrouped(a: seq<Atom>, b: seq<Atom>, c: seq<Atom>, d: seq<Atom>)
    ensures a + (b + c + d) == a + b + c + d
  {
  }
}

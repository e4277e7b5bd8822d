/** Statements put together from clauses behind fixed words, and why no search finds anything across the joints. */
module Pieces {
  import opened Text
  import opened Scan
  import opened Words
  import opened Literals
  import opened Gate
  import opened Atoms
  import opened Comments
  import opened Searches
  import opened Wrappers
  import S = Seams

  // SQL text given by a definition: a type, a default, a codec, an index, an engine's arguments.
  type Clause = seq<Atom>

  // A clause behind the renderer's own words.
  datatype Piece = Piece(lead: string, clause: Clause)

  // ----- text

  function Plain(t: string): (r: seq<Atom>)
    ensures |r| == |t|
  {
    if t == "" then [] else [Ch(t[0])] + Plain(t[1..])
  }

  function Quoted(text: string): Clause {
    [Lit(Escaped(text))]
  }

  function Compose(pieces: seq<Piece>): seq<Atom> {
    if pieces == [] then [] else Plain(pieces[0].lead) + pieces[0].clause + Compose(pieces[1..])
  }

  // ----- composing

  lemma {:induction false} PlainText(t: string)
    ensures Flat(Plain(t)) == t && Emptied(Plain(t)) == Plain(t) && Skeleton(Plain(t)) == t
  {
    if t != "" {
      PlainText(t[1..]);
      assert Plain(t)[1..] == Plain(t[1..]);
      assert t == [t[0]] + t[1..];
    }
  }

  function Bare(pieces: seq<Piece>): string {
    if pieces == [] then "" else pieces[0].lead + (Skeleton(pieces[0].clause) + Bare(pieces[1..]))
  }

  lemma {:induction false} ComposeSkeleton(pieces: seq<Piece>)
    ensures Skeleton(Compose(pieces)) == Bare(pieces)
  {
    if pieces != [] {
      var p := pieces[0];
      ComposeSkeleton(pieces[1..]);
      PlainText(p.lead);
      hide Skeleton;
      SkeletonConcat(Plain(p.lead) + p.clause, Compose(pieces[1..]));
      SkeletonConcat(Plain(p.lead), p.clause);
    }
  }

  lemma {:induction false} ComposeConcat(a: seq<Piece>, b: seq<Piece>)
    ensures Compose(a + b) == Compose(a) + Compose(b)
  {
    hide Plain;
    if a == [] {
      assert a + b == b;
    } else {
      assert (a + b)[1..] == a[1..] + b;
      ComposeConcat(a[1..], b);
      Regrouped([], Plain(a[0].lead), a[0].clause, Compose(a[1..]));
      assert Plain(a[0].lead) + a[0].clause + (Compose(a[1..]) + Compose(b))
          == Plain(a[0].lead) + a[0].clause + Compose(a[1..]) + Compose(b);
    }
  }

  // ----- the renderer's own words

  // Text behind which a clause stands by itself: it closes no word, and begins nothing the clause completes.
  ghost predicate Closed(l: string) {
    l != "" && !IsWord(l[|l| - 1]) && Fold(LastSolid(l)) != 'n' && Fold(LastSolid(l)) != 'e'
  }

  // Text before which a clause stands by itself.
  ghost predicate Opens(l: string) {
    var s := SpaceLen(l);
    s < |l| && !IsWord(l[0]) && l[s] != '=' && (Fold(l[s]) == 'c' ==> s + 1 < |l| && Fold(l[s + 1]) != 'l')
  }

  // Text with nothing for the gate in it: no quote, no dash, no line break but the newline, no `cl`.
  ghost predicate Neutral(l: string) {
    && (forall i :: 0 <= i < |l| ==> l[i] != '\'' && l[i] != '-' && (IsBreak(l[i]) ==> l[i] == '\n'))
    && forall i :: 0 <= i < |l| - 1 ==> !(Fold(l[i]) == 'c' && Fold(l[i + 1]) == 'l')
  }

  ghost predicate IsLead(l: string) {
    Closed(l) && Opens(l) && Neutral(l)
  }

  lemma ClosedIs(l: string, k: nat)
    requires k < |l| && !IsWord(l[|l| - 1]) && !IsSpace(l[k]) && Fold(l[k]) != 'n' && Fold(l[k]) != 'e'
    requires forall i :: k < i < |l| ==> IsSpace(l[i])
    ensures Closed(l)
  {
    var rest := l[k + 1..];
    forall i | 0 <= i < |rest| ensures IsSpace(rest[i]) {
      assert rest[i] == l[k + 1 + i];
    }
    LastSolidLast(l, k);
  }

  lemma OpensIs(l: string, s: nat)
    requires s < |l| && !IsWord(l[0]) && !IsSpace(l[s]) && l[s] != '='
    requires Fold(l[s]) == 'c' ==> s + 1 < |l| && Fold(l[s + 1]) != 'l'
    requires forall i :: 0 <= i < s ==> IsSpace(l[i])
    ensures Opens(l)
  {
    SpaceLenIs(l, s);
  }

  lemma {:induction false} NoClNoCluster(t: string, inWord: bool)
    requires forall i :: 0 <= i < |t| - 1 ==> !(Fold(t[i]) == 'c' && Fold(t[i + 1]) == 'l')
    ensures !FindsCluster(t, inWord)
  {
    hide Fold, ClusterAt;
    if t != "" {
      forall i | 0 <= i < |t[1..]| - 1 ensures !(Fold(t[1..][i]) == 'c' && Fold(t[1..][i + 1]) == 'l') {
        assert t[1..][i] == t[i + 1] && t[1..][i + 1] == t[i + 2];
      }
      NoClNoCluster(t[1..], IsWord(t[0]));
      ClusterHasCl(t);
    }
  }

  lemma ClusterHasCl(t: string)
    ensures ClusterAt(t) ==> exists i :: 0 <= i < |t| - 1 && Fold(t[i]) == 'c' && Fold(t[i + 1]) == 'l'
  {
    if ClusterAt(t) {
      ClusterAtIs(t);
      var k := 2 + SpaceLen(t[2..]);
      var r := t[k..];
      BeginsAt(r, "cl", 0);
      BeginsAt(r, "cl", 1);
      hide ClusterAt, Fold, IsSpace, Begins;
      assert t[k] == r[0] && t[k + 1] == r[1];
      assert Fold(t[k]) == 'c' && Fold(t[k + 1]) == 'l';
    }
  }

  // What can stand behind a clause.
  ghost predicate Follows(b: string) {
    b == "" || (!IsWord(b[0]) && FirstSolid(b) != '=' && !StartsCl(b))
  }

  lemma LeadFollows(l: string, rest: string)
    requires Opens(l)
    ensures Follows(l + rest)
  {
    var b, s := l + rest, SpaceLen(l);
    SpaceLenLocal(l, rest, s);
    assert b[s] == l[s] && b[0] == l[0];
    assert b[s..][0] == l[s];
    if Fold(l[s]) == 'c' {
      assert b[s..][1] == l[s + 1];
      BeginsNot(b[s..], "cl", 1);
    } else {
      BeginsNot(b[s..], "cl", 0);
    }
  }

  lemma SeamAfterLead(l: string, rest: string)
    requires Closed(l)
    ensures Seam(l, rest)
  {
  }

  lemma SeamBeforeLead(c: string, b: string)
    requires Follows(b)
    ensures Seam(c, b)
  {
    if b == "" {
      assert SpaceLen(b) == 0 && FirstSolid(b) == ' ' && !StartsCl(b);
    }
  }

  // ----- nothing to find in the pieces

  ghost predicate FreeOfCluster(pieces: seq<Piece>) {
    forall p <- pieces :: IsLead(p.lead) && !FindsCluster(Skeleton(p.clause), false)
  }

  lemma {:induction false} PiecesFollow(pieces: seq<Piece>)
    requires forall p <- pieces :: IsLead(p.lead)
    ensures Follows(Bare(pieces))
  {
    hide Closed, Opens, Neutral, Skeleton, Follows;
    if pieces != [] {
      assert IsLead(pieces[0].lead);
      LeadFollows(pieces[0].lead, Skeleton(pieces[0].clause) + Bare(pieces[1..]));
    } else {
      assert Follows("") by { NothingFollows(); }
    }
  }

  lemma NothingFollows()
    ensures Follows("")
  {
  }

  // A clause between a lead and the pieces that follow it.
  lemma NoClusterInStep(l: string, c: string, rest: string)
    requires Closed(l) && Neutral(l) && Follows(rest) && !FindsCluster(c, false) && !FindsCluster(rest, false)
    ensures !FindsCluster(l + (c + rest), false)
  {
    hide Seam, FindsCluster, Closed, Follows;
    SeamBeforeLead(c, rest);
    ClusterSeam(c, rest, false);
    NoClNoCluster(l, false);
    SeamAfterLead(l, c + rest);
    ClusterSeam(l, c + rest, false);
  }

  lemma {:induction false} NoClusterInPieces(pieces: seq<Piece>)
    requires FreeOfCluster(pieces)
    ensures !FindsCluster(Bare(pieces), false)
  {
    hide Closed, Opens, Neutral, Skeleton, Follows, FindsCluster;
    if pieces == [] {
      NoSpaceNoCluster("", false);
    } else {
      assert pieces[0] in pieces;
      NoClusterInPieces(pieces[1..]);
      PiecesFollow(pieces[1..]);
      NoClusterInStep(pieces[0].lead, Skeleton(pieces[0].clause), Bare(pieces[1..]));
    }
  }

  // ----- the engine that the pieces name

  // No clause names an engine but a quoted name, whose closing quote begins the next piece.
  ghost predicate ToldAt(pieces: seq<Piece>, i: nat)
    requires i < |pieces|
  {
    var c := Skeleton(pieces[i].clause);
    Settled(c) || ('(' !in c && i + 1 < |pieces| && Ticks(pieces[i + 1].lead))
  }

  ghost predicate Told(pieces: seq<Piece>) {
    forall i :: 0 <= i < |pieces| ==> ToldAt(pieces, i)
  }

  // The engine of the first clause that names one.
  function ClaimOf(pieces: seq<Piece>): Option<string> {
    if pieces == [] then None
    else
      var claim := FirstEngine(Skeleton(pieces[0].clause), false);
      if claim.Some? then claim else ClaimOf(pieces[1..])
  }

  lemma {:induction false} ClaimConcat(a: seq<Piece>, b: seq<Piece>)
    ensures ClaimOf(a + b) == if ClaimOf(a).Some? then ClaimOf(a) else ClaimOf(b)
  {
    hide Skeleton;
    if a == [] {
      assert a + b == b;
    } else {
      assert (a + b)[1..] == a[1..] + b;
      ClaimConcat(a[1..], b);
    }
  }

  // The searches pass over a lead, and over the clause behind it unless that is a name that names an engine.
  lemma ClaimInStep(l: string, c: string, rest: string)
    requires Closed(l) && '=' !in l && Follows(rest) && (Settled(c) || ('(' !in c && Ticks(rest)))
    ensures var t, claim := l + (c + rest), FirstEngine(c, false);
            FirstEngine(t, false) == (if claim.Some? then claim else FirstEngine(rest, false))
            && FirstExplicit(t, false) == FirstExplicit(rest, false)
  {
    assert !IsWord(l[|l| - 1]) && (rest == "" || !IsWord(rest[0]));
    hide Seam, FindsAssign, Closed, Follows, FirstEngine, FirstExplicit, Settled, Ticks, IsWord;
    NoEqualsNoAssign(l, false);
    SeamAfterLead(l, c + rest);
    EngineSkips(l, c + rest, false);
    if Settled(c) {
      SeamBeforeLead(c, rest);
      SettledPasses(c, rest);
      SettledClaims(c);
    } else {
      NamePasses(c, rest, false);
    }
  }

  lemma ToldRest(pieces: seq<Piece>)
    requires pieces != [] && Told(pieces)
    ensures Told(pieces[1..])
    ensures var c := Skeleton(pieces[0].clause);
            Settled(c) || ('(' !in c && |pieces| > 1 && Ticks(pieces[1].lead))
  {
    hide Skeleton, Settled, Ticks;
    var rest := pieces[1..];
    assert ToldAt(pieces, 0);
    forall i | 0 <= i < |rest| ensures ToldAt(rest, i) {
      assert ToldAt(pieces, i + 1);
      assert rest[i] == pieces[i + 1];
      assert i + 1 < |rest| ==> rest[i + 1] == pieces[i + 2];
    }
  }

  lemma TicksBare(pieces: seq<Piece>, y: string)
    requires pieces != [] && Ticks(pieces[0].lead)
    ensures Ticks(Bare(pieces) + y)
  {
    hide Skeleton;
  }

  // What the searches make of pieces with anything behind them.
  lemma {:induction false} ClaimInPieces(pieces: seq<Piece>, y: string)
    requires (forall p <- pieces :: IsLead(p.lead) && '=' !in p.lead) && Told(pieces) && Follows(y)
    ensures Follows(Bare(pieces) + y)
    ensures var t, claim := Bare(pieces) + y, ClaimOf(pieces);
            FirstEngine(t, false) == (if claim.Some? then claim else FirstEngine(y, false))
            && FirstExplicit(t, false) == FirstExplicit(y, false)
  {
    hide Closed, Opens, Neutral, Skeleton, Follows, FirstEngine, FirstExplicit, Told, Settled, Ticks;
    if pieces == [] {
      assert Bare(pieces) + y == y;
    } else {
      var p, rest := pieces[0], pieces[1..];
      assert p in pieces;
      ToldRest(pieces);
      ClaimInPieces(rest, y);
      var c, more := Skeleton(p.clause), Bare(rest) + y;
      if rest != [] && Ticks(rest[0].lead) {
        TicksBare(rest, y);
      }
      ClaimInStep(p.lead, c, more);
      LeadFollows(p.lead, c + more);
      assert Bare(pieces) + y == p.lead + (c + more);
    }
  }

  // ----- no comment lines

  // Is only whitespace on the line after `l`, when `atStart` says so of the line before it?
  function After(l: string, atStart: bool): bool {
    if l == "" then atStart else After(l[1..], l[0] == '\n' || (atStart && IsSpace(l[0])))
  }

  lemma {:induction false} AfterMore(l: string)
    ensures After(l, false) ==> After(l, true)
  {
    if l != "" {
      AfterMore(l[1..]);
    }
  }

  // A clause that begins a line, with something other than a dash.
  predicate StartsLine(c: Clause) {
    c == [] || c[0].Lit? || (!IsSpace(c[0].c) && c[0].c != '-')
  }

  predicate OneLiner(c: Clause) {
    forall a <- c :: a.Ch? ==> !IsBreak(a.c)
  }

  lemma {:induction false} LeadNoComment(l: string, rest: seq<Atom>, atStart: bool)
    requires Neutral(l) && NoComment(rest, After(l, atStart))
    ensures NoComment(Plain(l) + rest, atStart)
  {
    var all := Plain(l) + rest;
    if l == "" {
      assert all == rest;
    } else {
      assert Neutral(l[1..]) by {
        forall i | 0 <= i < |l[1..]| ensures l[1..][i] != '\'' && l[1..][i] != '-'
          && (IsBreak(l[1..][i]) ==> l[1..][i] == '\n') {
          assert l[1..][i] == l[i + 1];
        }
        forall i | 0 <= i < |l[1..]| - 1 ensures !(Fold(l[1..][i]) == 'c' && Fold(l[1..][i + 1]) == 'l') {
          assert l[1..][i] == l[i + 1] && l[1..][i + 1] == l[i + 2];
        }
      }
      var next := l[0] == '\n' || (atStart && IsSpace(l[0]));
      LeadNoComment(l[1..], rest, next);
      assert all[0] == Ch(l[0]) && all[1..] == Plain(l[1..]) + rest;
      assert IsBreak('\n');
    }
  }

  lemma {:induction false} ClauseNoComment(c: Clause, rest: seq<Atom>, atStart: bool)
    requires OneLiner(c) && (atStart ==> StartsLine(c)) && NoComment(rest, true) && NoComment(rest, false)
    ensures NoComment(c + rest, atStart)
  {
    var all := c + rest;
    if c == [] {
      assert all == rest;
    } else {
      assert c[0] in c;
      ClauseNoComment(c[1..], rest, false);
      assert all[0] == c[0] && all[1..] == c[1..] + rest;
    }
  }

  ghost predicate OnLines(p: Piece) {
    IsLead(p.lead) && OneLiner(p.clause) && (After(p.lead, true) ==> StartsLine(p.clause))
  }

  lemma PieceNoComment(l: string, c: Clause, rest: seq<Atom>, atStart: bool)
    requires Neutral(l) && OneLiner(c) && (After(l, true) ==> StartsLine(c))
    requires NoComment(rest, true) && NoComment(rest, false)
    ensures NoComment(Plain(l) + c + rest, atStart)
  {
    hide *;
    AfterMore(l);
    ClauseNoComment(c, rest, After(l, atStart));
    LeadNoComment(l, c + rest, atStart);
    assert Plain(l) + c + rest == Plain(l) + (c + rest);
  }

  lemma {:induction false} NoCommentInPieces(pieces: seq<Piece>, atStart: bool)
    requires forall p <- pieces :: OnLines(p)
    ensures NoComment(Compose(pieces), atStart)
  {
    hide Closed, Opens, Neutral, OneLiner, StartsLine, After;
    if pieces != [] {
      NoCommentInPieces(pieces[1..], true);
      NoCommentInPieces(pieces[1..], false);
      hide NoComment;
      assert OnLines(pieces[0]);
      PieceNoComment(pieces[0].lead, pieces[0].clause, Compose(pieces[1..]), atStart);
    }
  }

  // ----- what makes a lead

  // The characters of the renderer's own words.
  predicate IsLeadChar(c: char) {
    'A' <= c <= 'Z' || 'a' <= c <= 'z' || c == ' ' || c == '\n' || c == '`' || c == '(' || c == ')' || c == ','
      || c == '.'
  }

  lemma LeadCharIs(c: char)
    requires IsLeadChar(c) || c == '='
    ensures c != '\'' && c != '-' && (IsBreak(c) ==> c == '\n')
    ensures Fold(c) == 'c' ==> c == 'C' || c == 'c'
    ensures Fold(c) == 'l' ==> c == 'L' || c == 'l'
  {
  }

  // `e` is where the text has its one `=`, or the end of it.
  lemma NeutralIs(l: string, e: nat)
    requires e <= |l| && (e < |l| ==> l[e] == '=') && forall i :: 0 <= i < |l| && i != e ==> IsLeadChar(l[i])
    requires forall i :: 0 <= i < |l| - 1 && (l[i] == 'C' || l[i] == 'c') ==> l[i + 1] != 'L' && l[i + 1] != 'l'
    ensures Neutral(l) && (e == |l| ==> '=' !in l)
  {
    assert !IsLeadChar('=');
    hide IsBreak, Fold, IsLeadChar;
    forall i | 0 <= i < |l| ensures l[i] != '\'' && l[i] != '-' && (IsBreak(l[i]) ==> l[i] == '\n') {
      LeadCharIs(l[i]);
    }
    forall i | 0 <= i < |l| - 1 ensures !(Fold(l[i]) == 'c' && Fold(l[i + 1]) == 'l') {
      LeadCharIs(l[i]);
      LeadCharIs(l[i + 1]);
    }
  }

  lemma {:induction false} AfterSolid(l: string, k: nat, atStart: bool)
    requires k < |l| && !IsSpace(l[k]) && forall i :: k < i < |l| ==> l[i] == ' '
    ensures !After(l, atStart)
  {
    hide IsSpace;
    var r, next := l[1..], l[0] == '\n' || (atStart && IsSpace(l[0]));
    assert forall i :: 0 <= i < |r| ==> r[i] == l[i + 1];
    assert IsSpace('\n') by { NewlineIsSpace(); }
    if k == 0 {
      AfterBlank(r);
    } else {
      AfterSolid(r, k - 1, next);
    }
  }

  lemma NewlineIsSpace()
    ensures IsSpace('\n')
  {
  }

  lemma {:induction false} AfterBlank(l: string)
    requires forall i :: 0 <= i < |l| ==> l[i] == ' '
    ensures !After(l, false)
  {
    if l != "" {
      AfterBlank(l[1..]);
    }
  }

  // `s` and `k` are the first and the last character that is not whitespace.
  lemma LeadIs(l: string, s: nat, k: nat, e: nat)
    requires s <= k < |l| && !IsWord(l[0]) && !IsWord(l[|l| - 1]) && !IsSpace(l[s]) && !IsSpace(l[k]) && l[s] != '='
    requires Fold(l[s]) == 'c' ==> s + 1 < |l| && Fold(l[s + 1]) != 'l'
    requires Fold(l[k]) != 'n' && Fold(l[k]) != 'e'
    requires (forall i :: 0 <= i < s ==> IsSpace(l[i])) && forall i :: k < i < |l| ==> IsSpace(l[i])
    requires e <= |l| && (e < |l| ==> l[e] == '=') && forall i :: 0 <= i < |l| && i != e ==> IsLeadChar(l[i])
    requires forall i :: 0 <= i < |l| - 1 && (l[i] == 'C' || l[i] == 'c') ==> l[i + 1] != 'L' && l[i + 1] != 'l'
    ensures IsLead(l) && (e == |l| ==> '=' !in l)
    ensures (forall i :: k < i < |l| ==> l[i] == ' ') ==> !After(l, true)
  {
    if forall i :: k < i < |l| ==> l[i] == ' ' {
      AfterSolid(l, k, true);
    }
    OpensIs(l, s);
    ClosedIs(l, k);
    NeutralIs(l, e);
  }

  // ----- clauses that say nothing to the gate

  ghost predicate Orderly(c: Clause) {
    Readable(c) && OneLiner(c) && !FindsCluster(Skeleton(c), false)
  }

  ghost predicate CleanClause(c: Clause) {
    Orderly(c) && Settled(Skeleton(c))
  }

  ghost predicate Good(p: Piece) {
    IsLead(p.lead) && Orderly(p.clause) && (After(p.lead, true) ==> StartsLine(p.clause))
  }

  ghost predicate AllGood(pieces: seq<Piece>) {
    (forall p <- pieces :: Good(p) && '=' !in p.lead) && Told(pieces)
  }

  lemma BreaksAreSpaces(c: char)
    ensures IsBreak(c) ==> IsSpace(c)
  {
  }

  lemma {:induction false} PlainAtoms(t: string)
    ensures forall a <- Plain(t) :: a.Ch? && a.c in t
    ensures t != "" ==> Plain(t) != [] && Plain(t)[0] == Ch(t[0])
  {
    if t != "" {
      PlainAtoms(t[1..]);
    }
  }

  lemma NameIsOrderly(name: string)
    requires QuoteIdent(name).Some?
    ensures Orderly(Plain(name)) && Skeleton(Plain(name)) == name && '(' !in name
  {
    PlainText(name);
    PlainAtoms(name);
    assert forall c <- name :: !IsUnsafe(c);
    hide IsSpace, IsBreak, FindsCluster;
    NoSpaceNoCluster(name, false);
    forall a | a in Plain(name) ensures IsReadable(a) && !IsBreak(a.c) {
      BreaksAreSpaces(a.c);
    }
  }

  // The literal of a comment whose last line is not taken for a comment line.
  lemma CommentIsClean(text: string)
    requires Harmless(text)
    ensures CleanClause(Quoted(text)) && Skeleton(Quoted(text)) == "''"
  {
    CommentIsSteady(text);
    var c := Quoted(text);
    assert Skeleton(c) == "''" by {
      assert c[1..] == [] && Emptied([]) == [] && Flat([]) == "" && [Lit("")][1..] == [];
      assert "'" + "" + "'" == "''";
    }
    assert !IsSpace('\'');
    hide Steady, Harmless, Skeleton, FindsCluster, FindsAssign, Escaped;
    NoSpaceNoCluster("''", false);
    NoEqualsNoAssign("''", false);
  }

  lemma NumberIsPlain(v: string)
    requires S.Digits(v)
    ensures forall i :: 0 <= i < |" = " + v| ==> (" = " + v)[i] != '\'' && !IsBreak((" = " + v)[i])
  {
  }

  lemma {:induction false} PlainIsOrderly(t: string)
    requires (forall i :: 0 <= i < |t| ==> t[i] != '\'' && !IsBreak(t[i])) && !FindsCluster(t, false)
    ensures Orderly(Plain(t)) && Skeleton(Plain(t)) == t
  {
    PlainText(t);
    PlainAtoms(t);
    hide FindsCluster, IsBreak, Skeleton, Steady, Plain;
    forall a | a in Plain(t) ensures IsReadable(a) && !IsBreak(a.c) {
      var i :| 0 <= i < |t| && t[i] == a.c;
    }
  }

  lemma AssignmentChars(name: string, value: string)
    requires S.IsName(name) && S.Digits(value) && '\'' !in name
    ensures var t := name + (" = " + value); forall i :: 0 <= i < |t| ==> t[i] != '\'' && !IsBreak(t[i])
    ensures '=' !in name && forall i :: 0 <= i < |name| ==> !IsSpace(name[i])
  {
    NumberIsPlain(value);
    var t, v := name + (" = " + value), " = " + value;
    assert forall i :: 0 <= i < |name| ==> !IsSpace(name[i]);
    assert '=' !in name;
    hide IsSpace, IsBreak, S.IsName, S.Digits;
    forall i | 0 <= i < |t| ensures t[i] != '\'' && !IsBreak(t[i]) {
      if i < |name| {
        assert t[i] == name[i] && name[i] in name;
        BreaksAreSpaces(name[i]);
      } else {
        assert t[i] == v[i - |name|];
      }
    }
  }

  // A number assigned to a name that keeps to its line and begins none that looks like a comment.
  lemma AssignmentIsClean(name: string, value: string)
    requires S.IsName(name) && S.Digits(value) && '\'' !in name && name[0] != '-'
    ensures var c := Plain(name + (" = " + value)); CleanClause(c) && StartsLine(c) && c != []
  {
    var t := name + (" = " + value);
    AssignmentChars(name, value);
    AssignmentHasNoCluster(name, value, false);
    assert IsAssignment(t);
    PlainIsOrderly(t);
    PlainAtoms(t);
    assert t[0] == name[0] && !IsSpace(name[0]);
    hide Orderly, IsAssignment, FindsAssign, Skeleton, S.Digits, S.IsName, IsSpace;
  }

  lemma NothingIsClean()
    ensures CleanClause([]) && Skeleton([]) == ""
  {
    NoSpaceNoCluster("", false);
    NoEqualsNoAssign("", false);
  }

  lemma GoodPieces(pieces: seq<Piece>)
    requires forall p <- pieces :: Good(p)
    ensures FreeOfCluster(pieces) && forall p <- pieces :: OnLines(p)
  {
    hide IsLead, Readable, OneLiner, StartsLine, Skeleton, After, FindsCluster;
  }

  lemma AllLeads(pieces: seq<Piece>)
    requires AllGood(pieces)
    ensures (forall p <- pieces :: IsLead(p.lead) && '=' !in p.lead) && Told(pieces)
  {
    hide IsLead, Orderly, After, StartsLine, Told;
  }

  lemma {:induction false} PlainIsReadable(t: string)
    requires '\'' !in t
    ensures Readable(Plain(t))
  {
    PlainAtoms(t);
  }

  lemma {:induction false} ComposeIsReadable(pieces: seq<Piece>)
    requires forall p <- pieces :: Good(p)
    ensures Readable(Compose(pieces))
  {
    if pieces != [] {
      var p := pieces[0];
      assert Good(p);
      ComposeIsReadable(pieces[1..]);
      assert '\'' !in p.lead;
      hide IsLead, IsReadable, OneLiner, StartsLine, Skeleton, After, FindsCluster;
      PlainIsReadable(p.lead);
    }
  }

  lemma BareConcat(a: seq<Piece>, b: seq<Piece>)
    ensures Bare(a + b) == Bare(a) + Bare(b)
  {
    ComposeConcat(a, b);
    ComposeSkeleton(a);
    ComposeSkeleton(b);
    ComposeSkeleton(a + b);
    hide Bare, Compose, Skeleton;
    SkeletonConcat(Compose(a), Compose(b));
  }
}

/** The greedy runs that the renderer's regexes are built from, and why text further on cannot move them. */
module Scan {
  import opened Text

  // `\s*` at the head of `t`.
  function SpaceLen(t: string): (n: nat)
    ensures n <= |t|
    ensures forall i :: 0 <= i < n ==> IsSpace(t[i])
    ensures n < |t| ==> !IsSpace(t[n])
  {
    if t == "" || !IsSpace(t[0]) then 0 else 1 + SpaceLen(t[1..])
  }

  // `\S*` at the head of `t`.
  function PlainLen(t: string): (n: nat)
    ensures n <= |t|
    ensures forall i :: 0 <= i < n ==> !IsSpace(t[i])
    ensures n < |t| ==> IsSpace(t[n])
  {
    if t == "" || IsSpace(t[0]) then 0 else 1 + PlainLen(t[1..])
  }

  lemma SpaceLenLocal(a: string, x: string, i: nat)
    requires i < |a| && !IsSpace(a[i])
    ensures SpaceLen(a + x) == SpaceLen(a) <= i
  {
    hide IsSpace;
    var n, m := SpaceLen(a), SpaceLen(a + x);
    assert n <= i;
    assert (a + x)[n] == a[n];
    assert m < |a| ==> (a + x)[m] == a[m];
  }

  lemma SpaceLenIs(t: string, s: nat)
    requires s < |t| && !IsSpace(t[s]) && forall i :: 0 <= i < s ==> IsSpace(t[i])
    ensures SpaceLen(t) == s
  {
    hide IsSpace;
  }

  lemma PlainLenLocal(a: string, x: string)
    requires (exists i :: 0 <= i < |a| && IsSpace(a[i])) || x == "" || IsSpace(x[0])
    ensures PlainLen(a + x) == PlainLen(a)
  {
    hide IsSpace;
    var n, m := PlainLen(a), PlainLen(a + x);
    if n < |a| {
      assert (a + x)[n] == a[n];
    } else if x != "" {
      assert (a + x)[n] == x[0];
    }
    assert m < |a| ==> (a + x)[m] == a[m];
  }

  // A literal part holding no `c` matches before the first `c` or not at all.
  lemma PartLocal(part: string, a: string, x: string, i: nat)
    requires i < |a| && a[i] !in part
    ensures (part <= a + x) == (part <= a)
    ensures part <= a ==> |part| <= i
  {
    assert (a + x)[i] == a[i];
    assert i < |part| ==> part[i] in part;
    assert part <= a + x ==> part == (a + x)[..|part|] == a[..|part|];
  }

  lemma Differs(part: string, t: string, i: nat)
    requires i < |part| && i < |t| && t[i] != part[i]
    ensures !(part <= t)
  {
  }

  lemma Assoc(a: string, b: string, c: string)
    ensures a + (b + c) == a + b + c
  {
  }

  lemma DropConcat(a: string, x: string, n: nat)
    requires n <= |a|
    ensures (a + x)[n..] == a[n..] + x
  {
  }
}

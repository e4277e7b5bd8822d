/** The marker line of a variant file, as the regular expression that finds it reads. */
module Markers {
  import opened Text
  import opened Wrappers
  import opened Variants

  // `--\s*@block\s+(name)\s+(name)`, the whole of the stripped line.
  ghost predicate IsMarkerLine(t: string, a: string, b: string, c: string, m: Mark) {
    && t == "--" + (a + ("@block" + (b + (m.block + (c + m.variant)))))
    && AllSpace(a) && Gap(b) && Gap(c) && IsName(m.block) && IsName(m.variant)
  }

  lemma NameCharIsSolid(c: char)
    ensures IsNameChar(c) ==> !IsSpace(c)
    ensures IsNameStart(c) ==> IsNameChar(c)
  {
  }

  lemma {:induction false} LTrimCuts(t: string) returns (w: string)
    ensures AllSpace(w) && t == w + LTrim(t)
  {
    if t != "" && IsSpace(t[0]) {
      var v := LTrimCuts(t[1..]);
      w := [t[0]] + v;
      assert t == [t[0]] + t[1..];
    } else {
      w := "";
    }
  }

  lemma SpacedNameReads(s: string, n: string, rest: string)
    requires Gap(s) && IsName(n) && (rest == "" || !IsNameChar(rest[0]))
    ensures SpacedName(s + (n + rest)) == Some((n, rest))
  {
    var r := n + rest;
    assert r[0] == n[0];
    NameCharIsSolid(n[0]);
    hide IsSpace, IsNameChar, IsNameStart;
    LTrimSpaces(s, r);
    assert (s + r)[0] == s[0];
    hide LTrim;
    NameLenIs(n, rest);
    assert r[..|n|] == n && r[|n|..] == rest;
  }

  lemma {:induction false} NameLenCuts(t: string)
    ensures forall i :: 0 <= i < NameLen(t) ==> IsNameChar(t[i])
    ensures NameLen(t) < |t| ==> !IsNameChar(t[NameLen(t)])
  {
    hide IsNameChar;
    if t != "" && IsNameChar(t[0]) {
      NameLenCuts(t[1..]);
    }
  }

  lemma SpacedNameCuts(t: string) returns (s: string)
    requires SpacedName(t).Some?
    ensures var (n, rest) := SpacedName(t).value;
            t == s + (n + rest) && Gap(s) && IsName(n) && (rest == "" || !IsNameChar(rest[0]))
  {
    var r := LTrim(t);
    s := LTrimCuts(t);
    NameLenCuts(r);
    NameCharIsSolid(r[0]);
    assert s == "" ==> t == r;
    var n := NameLen(r);
    assert n > 0;
    hide LTrim, IsSpace, IsNameChar, IsNameStart, NameLen;
    assert r == r[..n] + r[n..] && r[..n][0] == r[0];
  }

  lemma AtBehindGap(r: string)
    ensures ("@block" + r)[0] == '@' && !IsSpace('@') && ("@block" + r)[6..] == r && "@block" <= "@block" + r
  {
  }

  lemma LineReads(line: string, a: string, b: string, c: string, m: Mark)
    requires IsMarkerLine(Trim(line), a, b, c, m)
    ensures Marker(line) == Some(m)
  {
    var t := Trim(line);
    var rest := c + m.variant;
    var tail := b + (m.block + rest);
    assert t == "--" + (a + ("@block" + tail)) && t[2..] == a + ("@block" + tail);
    AtBehindGap(tail);
    assert rest != "" && !IsNameChar(rest[0]) by {
      assert rest[0] == c[0];
      NameCharIsSolid(c[0]);
    }
    assert m.variant + "" == m.variant;
    TrimEmpty();
    hide IsSpace, IsNameChar, Trim;
    LTrimSpaces(a, "@block" + tail);
    SpacedNameReads(b, m.block, rest);
    SpacedNameReads(c, m.variant, "");
    hide LTrim, SpacedName, IsName;
  }

  // What is left behind both names of a stripped line is nothing.
  lemma NothingLeft(line: string, before: string, end: string)
    requires Trim(line) == before + end && Trim(end) == ""
    ensures end == ""
  {
    var t := Trim(line);
    if end != "" {
      assert t[|t| - 1] == end[|end| - 1] && !IsSpace(t[|t| - 1]);
      SolidStays(end);
    }
  }

  lemma {:induction false} SolidStays(t: string)
    requires t != "" && !IsSpace(t[|t| - 1])
    ensures Trim(t) != ""
  {
    var w := LTrimCuts(t);
    var l := LTrim(t);
    hide IsSpace;
    assert l == "" ==> t == w;
    assert l != "" ==> l[|l| - 1] == t[|t| - 1];
  }

  lemma MarkerParts(line: string)
    requires Marker(line).Some?
    ensures var t := Trim(line);
            && |t| >= 2 && t[..2] == "--" && "@block" <= LTrim(t[2..])
            && var x := LTrim(t[2..])[6..];
               SpacedName(x).Some? && SpacedName(SpacedName(x).value.1).Some?
               && var (block, y) := SpacedName(x).value; var (variant, end) := SpacedName(y).value;
                  Trim(end) == "" && Marker(line) == Some(Mark(block, variant))
  {
    hide Trim, LTrim, SpacedName;
  }

  lemma MarkerCuts(line: string)
    requires Marker(line).Some?
    ensures exists a, b, c :: IsMarkerLine(Trim(line), a, b, c, Marker(line).value)
  {
    MarkerParts(line);
    hide *;
    var t := Trim(line);
    var r := LTrim(t[2..]);
    var x := r[6..];
    var (block, y) := SpacedName(x).value;
    var (variant, end) := SpacedName(y).value;
    var a := LTrimCuts(t[2..]);
    var b := SpacedNameCuts(x);
    var c := SpacedNameCuts(y);
    Rebuilt(t, r, a, b, block, c, variant, end);
    NothingLeft(line, Whole(a, b, block, c, variant), end);
    WholeIs(t, a, b, c, Mark(block, variant), end);
  }

  function Whole(a: string, b: string, n: string, c: string, v: string): string {
    "--" + (a + ("@block" + (b + (n + (c + v)))))
  }

  lemma Rebuilt(t: string, r: string, a: string, b: string, n: string, c: string, v: string, end: string)
    requires |t| >= 2 && t[..2] == "--" && t[2..] == a + r && "@block" <= r && r[6..] == b + (n + (c + (v + end)))
    ensures t == Whole(a, b, n, c, v) + end
  {
    assert t == t[..2] + t[2..] && r == "@block" + r[6..];
    Glue(a, b, n, c, v, end);
  }

  lemma WholeIs(t: string, a: string, b: string, c: string, m: Mark, end: string)
    requires t == Whole(a, b, m.block, c, m.variant) + end && end == ""
    requires AllSpace(a) && Gap(b) && Gap(c) && IsName(m.block) && IsName(m.variant)
    ensures exists a, b, c :: IsMarkerLine(t, a, b, c, m)
  {
    hide AllSpace, Gap, IsName;
    assert t == Whole(a, b, m.block, c, m.variant);
    assert IsMarkerLine(t, a, b, c, m);
  }

  lemma Glue(a: string, b: string, n: string, c: string, v: string, end: string)
    ensures "--" + (a + ("@block" + (b + (n + (c + (v + end)))))) == "--" + (a + ("@block" + (b + (n + (c + v))))) + end
  {
  }

  // A line is a marker exactly when, stripped, it is the two dashes, the word and two names, with whitespace between.
  lemma MarkerIs(line: string, m: Mark)
    ensures Marker(line) == Some(m) <==> exists a, b, c :: IsMarkerLine(Trim(line), a, b, c, m)
  {
    hide *;
    if Marker(line) == Some(m) {
      MarkerCuts(line);
    }
    if a, b, c :| IsMarkerLine(Trim(line), a, b, c, m) {
      LineReads(line, a, b, c, m);
    }
  }
}

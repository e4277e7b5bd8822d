/** Characters and the whitespace rewrites that `re` and `str.strip` perform. */
module Text {

  // The characters that both `\s` and `str.strip` take for whitespace.
  predicate IsSpace(c: char) {
    || '\t' <= c <= '\r'
    || '\U{1C}' <= c <= ' '
    || c == '\U{85}' || c == '\U{A0}' || c == '\U{1680}'
    || '\U{2000}' <= c <= '\U{200A}'
    || c == '\U{2028}' || c == '\U{2029}' || c == '\U{202F}' || c == '\U{205F}' || c == '\U{3000}'
  }

  ghost predicate AllSpace(t: string) {
    forall i :: 0 <= i < |t| ==> IsSpace(t[i])
  }

  // `\s+`
  ghost predicate Gap(s: string) {
    s != "" && AllSpace(s)
  }

  function LTrim(t: string): (r: string)
    ensures r != [] ==> !IsSpace(r[0])
  {
    if t != [] && IsSpace(t[0]) then LTrim(t[1..]) else t
  }

  function RTrim(t: string): (r: string)
    ensures r <= t && AllSpace(t[|r|..])
    ensures r != [] ==> !IsSpace(r[|r| - 1])
  {
    if t != [] && IsSpace(t[|t| - 1]) then RTrim(t[..|t| - 1]) else t
  }

  function Trim(t: string): string {
    RTrim(LTrim(t))
  }

  // `re.sub(r"\s+", " ", t)`; `inRun` says that the character before t was a space already kept.
  function Squash(t: string, inRun: bool): string {
    if t == [] then []
    else if IsSpace(t[0]) then if inRun then Squash(t[1..], true) else [' '] + Squash(t[1..], true)
    else [t[0]] + Squash(t[1..], false)
  }

  ghost predicate EndsInRun(t: string, inRun: bool) {
    if t == [] then inRun else IsSpace(t[|t| - 1])
  }

  lemma {:induction false} SquashConcat(a: string, b: string, inRun: bool)
    ensures Squash(a + b, inRun) == Squash(a, inRun) + Squash(b, EndsInRun(a, inRun))
  {
    if a == [] {
      assert a + b == b;
    } else {
      assert (a + b)[1..] == a[1..] + b;
      SquashConcat(a[1..], b, IsSpace(a[0]));
    }
  }

  lemma {:induction false} SquashTwice(t: string, p: bool, q: bool)
    requires p ==> q
    ensures Squash(Squash(t, p), q) == Squash(t, q)
  {
    if t != [] {
      var c, rest := t[0], t[1..];
      if IsSpace(c) {
        SquashTwice(rest, true, true);
        assert ([' '] + Squash(rest, true))[1..] == Squash(rest, true);
      } else {
        SquashTwice(rest, false, false);
        assert ([c] + Squash(rest, false))[1..] == Squash(rest, false);
      }
    }
  }

  // A trimmed text is what is left when the ends lose their whitespace, however that is done.
  lemma {:induction false} RTrimConcat(a: string, w: string)
    requires AllSpace(w)
    ensures RTrim(a + w) == RTrim(a)
  {
    if w == [] {
      assert a + w == a;
    } else {
      assert (a + w)[..|a + w| - 1] == a + w[..|w| - 1];
      RTrimConcat(a, w[..|w| - 1]);
    }
  }

  lemma {:induction false} LTrimSpaces(w: string, t: string)
    requires AllSpace(w) && (t == "" || !IsSpace(t[0]))
    ensures LTrim(w + t) == t
  {
    if w == "" {
      assert w + t == t;
    } else {
      assert (w + t)[1..] == w[1..] + t;
      LTrimSpaces(w[1..], t);
    }
  }

  lemma TrimTwice(t: string)
    ensures Trim(Trim(t)) == Trim(t)
  {
    var l, u := LTrim(t), Trim(t);
    if u != [] {
      assert u[0] == l[0];
    }
  }

  // `t.replace(target, value)`: every occurrence, left to right, without overlap.
  function Replace(t: string, target: string, value: string): string
    requires target != ""
  {
    if t == "" then ""
    else if target <= t then value + Replace(t[|target|..], target, value)
    else [t[0]] + Replace(t[1..], target, value)
  }
}

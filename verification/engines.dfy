/** The engine a definition declares, and the clause it is rendered to. */
module Engines {
  import opened Text
  import opened Scan
  import opened Wrappers

  datatype Spec = Spec(variant: string, params: string)

  // `t.partition(c)`: what stands before the first `c`, and what stands behind it.
  function Head(t: string, c: char): (r: string)
    ensures |r| <= |t| && r == t[..|r|] && c !in r && (c in t <==> |r| < |t|)
  {
    if t == "" || t[0] == c then "" else [t[0]] + Head(t[1..], c)
  }

  // `t.rsplit(c, 1)[0]`: what stands before the last `c`, or the whole text.
  function BeforeLast(t: string, c: char): string {
    if c !in t then t else if t[|t| - 1] == c then t[..|t| - 1] else BeforeLast(t[..|t| - 1], c)
  }

  function ParseEngine(engine: string): Spec {
    var text := Trim(engine);
    var variant := Head(text, '(');
    if |variant| == |text| then Spec(text, "")
    else Spec(Trim(variant), Trim(BeforeLast(text[|variant| + 1..], ')')))
  }

  // A spec as a definition writes it.
  function Spelled(s: Spec): string {
    if s.params == "" then s.variant else s.variant + ("(" + (s.params + ")"))
  }

  // None where the variant already carries a prefix that the platform adds.
  function EngineClause(s: Spec): Option<string> {
    if "Replicated" <= s.variant || "Shared" <= s.variant then None
    else if s.params != "" then Some("Replicated" + s.variant + "(" + s.params + ")")
    else Some("Replicated" + s.variant)
  }

  // A variant of the MergeTree family, named in letters.
  ghost predicate IsFamily(f: string) {
    |f| >= 9 && f[|f| - 9..] == "MergeTree" && forall i :: 0 <= i < |f| ==> 'a' <= f[i] <= 'z' || 'A' <= f[i] <= 'Z'
  }

  ghost predicate IsSpec(s: Spec) {
    s.variant != "" && '(' !in s.variant && Trim(s.variant) == s.variant && Trim(s.params) == s.params
  }

  lemma {:induction false} HeadIs(a: string, c: char, x: string)
    requires c !in a && (x == "" || x[0] == c)
    ensures Head(a + x, c) == a
  {
    if a == "" {
      assert a + x == x;
    } else {
      assert (a + x)[0] == a[0] && (a + x)[1..] == a[1..] + x;
      HeadIs(a[1..], c, x);
    }
  }

  lemma TrimEnds(t: string)
    requires Trim(t) == t && t != ""
    ensures !IsSpace(t[0]) && !IsSpace(t[|t| - 1])
  {
    var l := LTrim(t);
    assert t <= l && l[0] == t[0];
  }

  lemma Trimmed(t: string)
    requires t != "" && !IsSpace(t[0]) && !IsSpace(t[|t| - 1])
    ensures Trim(t) == t
  {
  }

  // The variant and the arguments are read as they are written.
  lemma EngineReadsBack(s: Spec)
    requires IsSpec(s)
    ensures ParseEngine(Spelled(s)) == s && ParseEngine(s.variant + "()") == Spec(s.variant, "")
  {
    hide Trim, LTrim, RTrim, IsSpace, ParseEngine, Head, BeforeLast;
    TrimNothing();
    TrimEnds(s.variant);
    ParseBare(s.variant);
    Bracketed(s.variant, s.params);
    Bracketed(s.variant, "");
    assert s.variant + ("(" + ("" + ")")) == s.variant + "()";
  }

  lemma TrimNothing()
    ensures Trim("") == ""
  {
  }

  lemma ParseBare(variant: string)
    requires '(' !in variant && Trim(variant) == variant
    ensures ParseEngine(variant) == Spec(variant, "")
  {
    hide Trim;
    HeadIs(variant, '(', "");
    assert variant + "" == variant;
  }

  lemma Bracketed(variant: string, params: string)
    requires variant != "" && '(' !in variant && Trim(variant) == variant && Trim(params) == params
        && !IsSpace(variant[0])
    ensures ParseEngine(variant + ("(" + (params + ")"))) == Spec(variant, params)
  {
    var rest := params + ")";
    var text := variant + ("(" + rest);
    assert text[0] == variant[0] && text[|text| - 1] == ')' && !IsSpace(')');
    Trimmed(text);
    HeadIs(variant, '(', "(" + rest);
    assert text[|variant| + 1..] == rest;
    assert ')' in rest && rest[|rest| - 1] == ')' && rest[..|rest| - 1] == params;
  }

  // The clause is the prefix before what was declared, so that it can be refused only for the prefix.
  lemma ClauseIsPrefixed(s: Spec)
    requires IsSpec(s)
    ensures EngineClause(s).None? <==> "Replicated" <= s.variant || "Shared" <= s.variant
    ensures EngineClause(s).Some? ==>
              EngineClause(s).value == "Replicated" + Spelled(s) && ParseEngine(EngineClause(s).value[10..]) == s
  {
    EngineReadsBack(s);
    hide *;
    ClauseText(s);
  }

  lemma ClauseText(s: Spec)
    ensures EngineClause(s).None? <==> "Replicated" <= s.variant || "Shared" <= s.variant
    ensures EngineClause(s).Some? ==>
              EngineClause(s).value == "Replicated" + Spelled(s) && EngineClause(s).value[10..] == Spelled(s)
  {
    Brackets(s.variant, s.params);
    Prefixed(Spelled(s));
  }

  lemma Brackets(variant: string, params: string)
    ensures "Replicated" + variant + "(" + params + ")" == "Replicated" + (variant + ("(" + (params + ")")))
  {
    var p := "Replicated";
    Assoc(p, variant, "(" + (params + ")"));
    Assoc(p + variant, "(", params + ")");
    Assoc(p + variant + "(", params, ")");
  }

  lemma Prefixed(t: string)
    ensures ("Replicated" + t)[10..] == t
  {
  }
}

/** The blank lines of an annotated file: the four rewrites are one, and which lines it changes. */
module Spacing {
  import opened Text
  import opened Annotator

  // ----- the lines, by how far they are set in

  // `l` is `n` spaces and a text that begins with none.
  ghost predicate SetIn(l: string, n: nat, text: string) {
    |l| == n + |text| && l[n..] == text && (forall i :: 0 <= i < n ==> l[i] == ' ') && text != "" && !IsSpace(text[0])
  }

  lemma SetInText(l: string, n: nat, text: string)
    requires SetIn(l, n, text)
    ensures LTrim(l) == text && !IsBlank(l) && l[n] == text[0]
  {
    assert l == l[..n] + text && AllSpace(l[..n]);
    assert text[0..] == text;
    assert RTrim(text) == "" ==> AllSpace(text);
    hide IsSpace;
    LTrimSpaces(l[..n], text);
  }

  lemma ColumnIsSetIn(l: string, n: nat, text: string)
    requires SetIn(l, n, text)
    ensures IsColumnStart(l) <==> n == 6 && "- name:" <= text
    ensures IsColumnsHeader(l) <==> n == 4 && text == "columns:"
  {
    assert "      - name:"[6] == '-' && "      - name:"[6..] == "- name:";
    assert "    columns:"[4] == 'c' && "    columns:"[4..] == "columns:";
    assert text[0] != ' ';
  }

  lemma FieldIsSetIn(l: string, n: nat, text: string)
    requires SetIn(l, n, text)
    ensures IsColumnField(l) <==> n == 8 && !("_field_type:" <= text)
  {
    assert text[0] != ' ';
  }

  // A version, a key of one, a column and a field of one are told by two, four, six and eight spaces.
  lemma IndentDecides(l: string, n: nat, text: string)
    requires SetIn(l, n, text)
    ensures IsVersionKey(l) <==> n == 2
    ensures IsColumnsEnd(l) <==> n == 4
    ensures IsColumnStart(l) <==> n == 6 && "- name:" <= text
    ensures IsColumnField(l) <==> n == 8 && !("_field_type:" <= text)
    ensures IsColumnsHeader(l) <==> n == 4 && text == "columns:"
    ensures HasFieldType(l) <==> "_field_type:" <= text
    ensures !IsBlank(l)
  {
    SetInText(l, n, text);
    ColumnIsSetIn(l, n, text);
    FieldIsSetIn(l, n, text);
  }

  // ----- the four rewrites as one

  // Which lines lose the empty line between them, and which gain one.
  predicate Joins(p: string, q: string) {
    || ("current:" <= p && "resource_type:" <= q)
    || (IsColumnField(p) && FIELD_INDENT + "_field_type:" <= q)
  }

  predicate Splits(p: string, q: string) {
    || (p == RESOURCE_TYPE_LINE && "versions:" <= q)
    || (p == FIELD_TYPE_LINE && IsColumnStart(q))
  }

  function Respaced(ls: seq<string>): seq<string> {
    if ls == [] then []
    else if |ls| > 2 && ls[1] == "" && Joins(ls[0], ls[2]) then [ls[0]] + Respaced(ls[2..])
    else if |ls| > 1 && Splits(ls[0], ls[1]) then [ls[0], ""] + Respaced(ls[1..])
    else [ls[0]] + Respaced(ls[1..])
  }

  // ----- one line on, for each rewrite

  lemma CurrentStep(l: string, ls: seq<string>)
    ensures JoinCurrent([l] + ls)
         == if |ls| > 1 && "current:" <= l && ls[0] == "" && "resource_type:" <= ls[1] then [l] + JoinCurrent(ls[1..])
            else [l] + JoinCurrent(ls)
  {
    var all := [l] + ls;
    assert all[0] == l && all[1..] == ls && |all| == |ls| + 1;
    if |ls| > 1 {
      assert all[1] == ls[0] && all[2] == ls[1] && all[2..] == ls[1..];
    }
    CurrentIs(all);
    hide JoinCurrent;
  }

  lemma CurrentIs(ls: seq<string>)
    requires ls != []
    ensures JoinCurrent(ls)
         == if |ls| > 2 && "current:" <= ls[0] && ls[1] == "" && "resource_type:" <= ls[2] then
              [ls[0]] + JoinCurrent(ls[2..])
            else [ls[0]] + JoinCurrent(ls[1..])
  {
  }

  lemma VersionsStep(l: string, ls: seq<string>)
    ensures SplitVersions([l] + ls)
         == if ls != [] && l == RESOURCE_TYPE_LINE && "versions:" <= ls[0] then [l, ""] + SplitVersions(ls)
            else [l] + SplitVersions(ls)
  {
    assert ([l] + ls)[1..] == ls;
  }

  lemma FieldStep(l: string, ls: seq<string>)
    ensures JoinFieldType([l] + ls)
         == if |ls| > 1 && IsColumnField(l) && ls[0] == "" && FIELD_INDENT + "_field_type:" <= ls[1] then
              [l] + JoinFieldType(ls[1..])
            else [l] + JoinFieldType(ls)
  {
    hide IsColumnField;
    assert ([l] + ls)[1..] == ls && |ls| > 0 ==> ([l] + ls)[2..] == ls[1..];
  }

  lemma ColumnsStep(l: string, ls: seq<string>)
    ensures SplitColumns([l] + ls)
         == if ls != [] && l == FIELD_TYPE_LINE && IsColumnStart(ls[0]) then [l, ""] + SplitColumns(ls)
            else [l] + SplitColumns(ls)
  {
    hide IsColumnStart;
    assert ([l] + ls)[1..] == ls;
  }

  lemma FirstStays(ls: seq<string>)
    ensures ls == [] ==> JoinCurrent(ls) == SplitVersions(ls) == JoinFieldType(ls) == SplitColumns(ls) == []
    ensures ls != [] ==> JoinCurrent(ls) != [] && JoinCurrent(ls)[0] == ls[0]
    ensures ls != [] ==> SplitVersions(ls) != [] && SplitVersions(ls)[0] == ls[0]
    ensures ls != [] ==> JoinFieldType(ls) != [] && JoinFieldType(ls)[0] == ls[0]
    ensures ls != [] ==> SplitColumns(ls) != [] && SplitColumns(ls)[0] == ls[0]
  {
    hide IsColumnField, IsColumnStart;
  }

  // A line begins one of the rewrites at most, and an empty one none.
  lemma OneRewrite(l: string)
    ensures "current:" <= l ==> !IsColumnField(l) && l != RESOURCE_TYPE_LINE && l != FIELD_TYPE_LINE && l != ""
    ensures IsColumnField(l) ==> l != RESOURCE_TYPE_LINE && l != FIELD_TYPE_LINE && l != ""
    ensures RESOURCE_TYPE_LINE != FIELD_TYPE_LINE && RESOURCE_TYPE_LINE != "" && FIELD_TYPE_LINE != ""
    ensures "versions:" <= l || "resource_type:" <= l || IsColumnStart(l) ==> l != ""
  {
    assert RESOURCE_TYPE_LINE[0] == 'r' && FIELD_TYPE_LINE[0] == ' ' && "current:"[0] == 'c';
    assert FIELD_INDENT + "_field_type:" <= FIELD_TYPE_LINE;
  }

  function Headers(ls: seq<string>): seq<string> {
    SplitVersions(JoinCurrent(ls))
  }

  // The two header rewrites keep an empty first line and the one behind it.
  lemma HeadersStart(ls: seq<string>)
    ensures ls == [] ==> Headers(ls) == []
    ensures ls != [] ==> Headers(ls) != [] && Headers(ls)[0] == ls[0]
    ensures ls != [] && ls[0] == "" ==> Headers(ls) == [""] + Headers(ls[1..])
  {
    hide JoinCurrent, SplitVersions;
    FirstStays(ls);
    FirstStays(JoinCurrent(ls));
    if ls != [] && ls[0] == "" {
      OneRewrite("");
      assert ls == [""] + ls[1..];
      CurrentStep("", ls[1..]);
      VersionsStep("", JoinCurrent(ls[1..]));
    }
  }

  lemma HeadersStep(l: string, ls: seq<string>)
    ensures Headers([l] + ls)
         == if |ls| > 1 && "current:" <= l && ls[0] == "" && "resource_type:" <= ls[1] then [l] + Headers(ls[1..])
            else if ls != [] && l == RESOURCE_TYPE_LINE && "versions:" <= ls[0] then [l, ""] + Headers(ls)
            else [l] + Headers(ls)
  {
    hide JoinCurrent, SplitVersions, IsColumnField;
    OneRewrite(l);
    CurrentStep(l, ls);
    FirstStays(ls);
    if |ls| > 1 && "current:" <= l && ls[0] == "" && "resource_type:" <= ls[1] {
      VersionsStep(l, JoinCurrent(ls[1..]));
    } else {
      VersionsStep(l, JoinCurrent(ls));
    }
  }

  function Fields(ls: seq<string>): seq<string> {
    SplitColumns(JoinFieldType(ls))
  }

  lemma FieldsStep(l: string, ls: seq<string>)
    ensures Fields([l] + ls)
         == if |ls| > 1 && IsColumnField(l) && ls[0] == "" && FIELD_INDENT + "_field_type:" <= ls[1] then
              [l] + Fields(ls[1..])
            else if ls != [] && l == FIELD_TYPE_LINE && IsColumnStart(ls[0]) then [l, ""] + Fields(ls)
            else [l] + Fields(ls)
  {
    hide JoinFieldType, SplitColumns, IsColumnField, IsColumnStart;
    OneRewrite(l);
    FieldStep(l, ls);
    FirstStays(ls);
    if |ls| > 1 && IsColumnField(l) && ls[0] == "" && FIELD_INDENT + "_field_type:" <= ls[1] {
      ColumnsStep(l, JoinFieldType(ls[1..]));
    } else {
      ColumnsStep(l, JoinFieldType(ls));
    }
  }

  // One pass does what the four do.
  lemma {:induction false} NormalisedIsRespaced(ls: seq<string>)
    ensures Normalised(ls) == Respaced(ls)
    decreases |ls|
  {
    assert Normalised(ls) == Fields(Headers(ls)) by {
      hide JoinCurrent, SplitVersions, JoinFieldType, SplitColumns;
    }
    if ls != [] {
      var l, rest := ls[0], ls[1..];
      assert ls == [l] + rest;
      NormalisedIsRespaced(rest);
      if rest != [] {
        NormalisedIsRespaced(rest[1..]);
        assert rest[1..] == ls[2..];
      }
      RespacedStep(l, rest);
    }
  }

  lemma NormalisedParts(ls: seq<string>)
    ensures Normalised(ls) == Fields(Headers(ls))
  {
    hide JoinCurrent, SplitVersions, JoinFieldType, SplitColumns;
  }

  lemma RespacedIs(l: string, ls: seq<string>)
    ensures Respaced([l] + ls)
         == if |ls| > 1 && ls[0] == "" && Joins(l, ls[1]) then [l] + Respaced(ls[1..])
            else if ls != [] && Splits(l, ls[0]) then [l, ""] + Respaced(ls)
            else [l] + Respaced(ls)
  {
    hide Joins, Splits;
    var all := [l] + ls;
    assert all[0] == l && all[1..] == ls && |all| == |ls| + 1;
    if |ls| > 0 {
      assert all[1] == ls[0] && all[2..] == ls[1..];
    }
    if |ls| > 1 {
      assert all[2] == ls[1];
    }
    RespacedFirst(all);
    hide Respaced;
  }

  lemma RespacedFirst(ls: seq<string>)
    requires ls != []
    ensures Respaced(ls)
         == if |ls| > 2 && ls[1] == "" && Joins(ls[0], ls[2]) then [ls[0]] + Respaced(ls[2..])
            else if |ls| > 1 && Splits(ls[0], ls[1]) then [ls[0], ""] + Respaced(ls[1..])
            else [ls[0]] + Respaced(ls[1..])
  {
    hide Joins, Splits;
  }

  lemma RespacedStep(l: string, rest: seq<string>)
    requires Normalised(rest) == Respaced(rest) && (rest != [] ==> Normalised(rest[1..]) == Respaced(rest[1..]))
    ensures Normalised([l] + rest) == Respaced([l] + rest)
  {
    hide Normalised, Headers, Fields, Respaced, IsColumnField, IsColumnStart;
    NormalisedParts([l] + rest);
    NormalisedParts(rest);
    HeadersStep(l, rest);
    OneRewrite(l);
    RespacedIs(l, rest);
    if rest != [] {
      OneRewrite(rest[0]);
      NormalisedParts(rest[1..]);
    }
    if |rest| > 1 && "current:" <= l && rest[0] == "" && "resource_type:" <= rest[1] {
      FieldsStep(l, Headers(rest[1..]));
    } else if rest != [] && l == RESOURCE_TYPE_LINE && "versions:" <= rest[0] {
      HeaderSplit(l, rest);
    } else {
      FieldsAfter(l, rest);
    }
  }

  lemma HeaderSplit(l: string, rest: seq<string>)
    requires l == RESOURCE_TYPE_LINE
    ensures Fields([l, ""] + Headers(rest)) == [l, ""] + Fields(Headers(rest))
  {
    hide Headers, Fields, IsColumnField, IsColumnStart;
    OneRewrite(l);
    OneRewrite("");
    var h := Headers(rest);
    assert [l, ""] + h == [l] + ([""] + h);
    FieldsStep(l, [""] + h);
    FieldsStep("", h);
    assert [l] + ([""] + Fields(h)) == [l, ""] + Fields(h);
  }

  // Behind a line that begins no header rewrite, the field rewrites look at the lines as they were.
  lemma FieldsAfter(l: string, rest: seq<string>)
    ensures var f := Fields(Headers(rest));
            Fields([l] + Headers(rest))
            == if |rest| > 1 && IsColumnField(l) && rest[0] == "" && FIELD_INDENT + "_field_type:" <= rest[1] then
                 [l] + Fields(Headers(rest[1..]))
               else if rest != [] && l == FIELD_TYPE_LINE && IsColumnStart(rest[0]) then [l, ""] + f
               else [l] + f
  {
    hide Headers, Fields, IsColumnField, IsColumnStart;
    var h := Headers(rest);
    FieldsStep(l, h);
    HeadersStart(rest);
    if rest != [] {
      HeadersStart(rest[1..]);
      if rest[0] == "" {
        assert h[1..] == Headers(rest[1..]);
        assert |rest| > 1 <==> |h| > 1;
        assert |rest| > 1 ==> h[1] == rest[1];
      }
    }
  }

  // ----- what the spacing comes to

  ghost predicate SpacedAt(ls: seq<string>, i: nat)
    requires i < |ls|
  {
    && !(i + 2 < |ls| && ls[i + 1] == "" && Joins(ls[i], ls[i + 2]))
    && !(i + 1 < |ls| && Splits(ls[i], ls[i + 1]))
  }

  // No empty line stands where one goes, and one stands wherever it comes.
  ghost predicate Spaced(ls: seq<string>) {
    forall i :: 0 <= i < |ls| ==> SpacedAt(ls, i)
  }

  lemma SpacedFirst(l: string, ls: seq<string>)
    ensures Spaced([l] + ls) <==> Spaced(ls) && SpacedAt([l] + ls, 0)
  {
    hide Joins, Splits;
    var all := [l] + ls;
    forall i | 0 <= i < |ls| ensures SpacedAt(all, i + 1) == SpacedAt(ls, i) {
    }
    if Spaced(all) {
      forall i | 0 <= i < |ls| ensures SpacedAt(ls, i) {
        assert SpacedAt(all, i + 1);
      }
    }
    if Spaced(ls) && SpacedAt(all, 0) {
      forall i | 0 <= i < |all| ensures SpacedAt(all, i) {
        assert i > 0 ==> SpacedAt(all, i - 1 + 1) == SpacedAt(ls, i - 1);
      }
    }
  }

  lemma JoinsAndSplits(p: string, q: string)
    ensures Joins(p, q) ==> q != "" && p != "" && forall x :: !Splits(p, x)
    ensures Splits(p, q) ==> q != "" && p != "" && forall x :: !Joins(p, x)
  {
    OneRewrite(p);
    OneRewrite(q);
    hide IsColumnField, IsColumnStart;
    assert FIELD_INDENT + "_field_type:" <= q ==> q != "";
  }

  lemma RespacedStart(ls: seq<string>)
    ensures ls == [] ==> Respaced(ls) == []
    ensures ls != [] ==> Respaced(ls) != [] && Respaced(ls)[0] == ls[0]
    ensures ls != [] && ls[0] == "" ==> Respaced(ls) == [""] + Respaced(ls[1..])
  {
    hide Joins, Splits;
    if ls != [] {
      RespacedFirst(ls);
      if ls[0] == "" {
        forall q ensures !Joins("", q) && !Splits("", q) {
          JoinsAndSplits("", q);
        }
      }
    }
  }

  lemma {:induction false} RespacedIsSpaced(ls: seq<string>)
    ensures Spaced(Respaced(ls))
    decreases |ls|
  {
    if ls != [] {
      var l, rest := ls[0], ls[1..];
      RespacedIsSpaced(rest);
      if |rest| > 1 {
        RespacedIsSpaced(rest[1..]);
      }
      assert ls == [l] + rest;
      hide *;
      RespacedIs(l, rest);
      if |rest| > 1 && rest[0] == "" && Joins(l, rest[1]) {
        JoinedIsSpaced(l, rest[1..]);
      } else if rest != [] && Splits(l, rest[0]) {
        SplitIsSpaced(l, rest);
      } else {
        SameIsSpaced(l, rest);
      }
    }
  }

  lemma JoinedIsSpaced(l: string, rest: seq<string>)
    requires rest != [] && Joins(l, rest[0]) && Spaced(Respaced(rest))
    ensures Spaced([l] + Respaced(rest))
  {
    hide Respaced, Spaced, Joins, Splits;
    JoinsAndSplits(l, rest[0]);
    RespacedStart(rest);
    SpacedFirst(l, Respaced(rest));
  }

  lemma SplitIsSpaced(l: string, rest: seq<string>)
    requires rest != [] && Splits(l, rest[0]) && Spaced(Respaced(rest))
    ensures Spaced([l, ""] + Respaced(rest))
  {
    hide Respaced, Spaced, Joins, Splits;
    JoinsAndSplits(l, rest[0]);
    forall q ensures !Joins("", q) && !Splits("", q) {
      JoinsAndSplits("", q);
    }
    JoinsAndSplits(l, "");
    var out := Respaced(rest);
    SpacedFirst("", out);
    SpacedFirst(l, [""] + out);
    assert [l] + ([""] + out) == [l, ""] + out;
  }

  lemma SameIsSpaced(l: string, rest: seq<string>)
    requires !(|rest| > 1 && rest[0] == "" && Joins(l, rest[1])) && !(rest != [] && Splits(l, rest[0]))
    requires Spaced(Respaced(rest))
    ensures Spaced([l] + Respaced(rest))
  {
    hide Respaced, Spaced, Joins, Splits;
    RespacedStart(rest);
    if rest != [] {
      RespacedStart(rest[1..]);
    }
    SpacedFirst(l, Respaced(rest));
  }

  lemma {:induction false} SpacedStays(ls: seq<string>)
    requires Spaced(ls)
    ensures Respaced(ls) == ls
  {
    if ls != [] {
      var l, rest := ls[0], ls[1..];
      assert ls == [l] + rest && SpacedAt(ls, 0);
      hide Joins, Splits, Respaced, Spaced;
      SpacedFirst(l, rest);
      SpacedStays(rest);
      RespacedIs(l, rest);
    }
  }

  // After the rewrites every empty line stands as it should, and they change nothing exactly where it did before.
  lemma NormalisedIsSpaced(ls: seq<string>)
    ensures Spaced(Normalised(ls))
    ensures Normalised(ls) == ls <==> Spaced(ls)
    ensures Normalised(Normalised(ls)) == Normalised(ls)
  {
    hide *;
    NormalisedIsRespaced(ls);
    RespacedIsSpaced(ls);
    NormalisedIsRespaced(Normalised(ls));
    SpacedStays(Respaced(ls));
    if Spaced(ls) {
      SpacedStays(ls);
    }
  }
}

/** Words and letters as `re` sees them with IGNORECASE, and the line breaks of `str.splitlines`. */
module Words {
  import opened Text

  // The characters beyond ASCII that Unicode calls alphanumeric: any set of them, for all that is proved here.
  const ALNUM_BEYOND_ASCII: set<char>

  // `\w`. The four letters that IGNORECASE takes for ASCII ones are alphanumeric, and no whitespace is.
  predicate IsWord(c: char) {
    'a' <= c <= 'z' || 'A' <= c <= 'Z' || '0' <= c <= '9' || c == '_'
    || c == '\U{130}' || c == '\U{131}' || c == '\U{17F}' || c == '\U{212A}'
    || (c >= '\U{80}' && !IsSpace(c) && c in ALNUM_BEYOND_ASCII)
  }

  // The ASCII letter that a pattern letter must be to match `c`: four letters beyond ASCII match one too.
  function Fold(c: char): char {
    if 'A' <= c <= 'Z' then (c as int + 32) as char
    else if c == '\U{130}' || c == '\U{131}' then 'i'
    else if c == '\U{17F}' then 's'
    else if c == '\U{212A}' then 'k'
    else c
  }

  predicate IsFoldLetter(c: char) {
    'a' <= Fold(c) <= 'z'
  }

  // Does `t` begin with `word`, ignoring case?
  predicate Begins(t: string, word: string) {
    word == "" || (t != "" && Fold(t[0]) == word[0] && Begins(t[1..], word[1..]))
  }

  lemma {:induction false} BeginsAt(t: string, word: string, i: nat)
    requires Begins(t, word) && i < |word|
    ensures i < |t| && Fold(t[i]) == word[i]
  {
    if i > 0 {
      BeginsAt(t[1..], word[1..], i - 1);
    }
  }

  lemma {:induction false} BeginsNot(t: string, word: string, i: nat)
    requires i < |word| && i < |t| && Fold(t[i]) != word[i]
    ensures !Begins(t, word)
  {
    if i > 0 {
      BeginsNot(t[1..], word[1..], i - 1);
    }
  }

  lemma {:induction false} BeginsIs(t: string, word: string)
    requires |word| <= |t| && forall i :: 0 <= i < |word| ==> Fold(t[i]) == word[i]
    ensures Begins(t, word)
  {
    hide Fold;
    if word != "" {
      assert forall i :: 0 <= i < |word[1..]| ==> t[1..][i] == t[i + 1] && word[1..][i] == word[i + 1];
      BeginsIs(t[1..], word[1..]);
    }
  }

  lemma {:induction false} BeginsLocal(a: string, x: string, word: string)
    requires |word| <= |a|
    ensures Begins(a + x, word) == Begins(a, word)
  {
    if word != "" {
      assert (a + x)[0] == a[0] && (a + x)[1..] == a[1..] + x;
      BeginsLocal(a[1..], x, word[1..]);
    }
  }

  predicate IsBreak(c: char) {
    '\n' <= c <= '\r' || '\U{1C}' <= c <= '\U{1E}' || c == '\U{85}' || c == '\U{2028}' || c == '\U{2029}'
  }

  // The line break at the head of `t`: none, one character, or a carriage return with its newline.
  function BreakLen(t: string): (n: nat)
    ensures n <= |t|
  {
    if t == "" || !IsBreak(t[0]) then 0 else if t[0] == '\r' && |t| > 1 && t[1] == '\n' then 2 else 1
  }

  // `str.splitlines`
  function SplitLines(t: string): seq<string> {
    if t == "" then []
    else
      var n := BreakLen(t);
      if n > 0 then [""] + SplitLines(t[n..])
      else
        var rest := SplitLines(t[1..]);
        if rest == [] then [[t[0]]] else [[t[0]] + rest[0]] + rest[1..]
  }

  // `"\n".join(lines)`
  function JoinLines(lines: seq<string>): string {
    if lines == [] then "" else if |lines| == 1 then lines[0] else lines[0] + "\n" + JoinLines(lines[1..])
  }
}

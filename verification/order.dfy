/** The order Python sorts strings in, and the sorted list of a set. */
module Order {

  predicate Less(a: string, b: string) {
    b != "" && (a == "" || a[0] < b[0] || (a[0] == b[0] && Less(a[1..], b[1..])))
  }

  lemma {:induction false} LessTrans(a: string, b: string, c: string)
    requires Less(a, b) && Less(b, c)
    ensures Less(a, c)
  {
    if a != "" && a[0] == b[0] && b[0] == c[0] {
      LessTrans(a[1..], b[1..], c[1..]);
    }
  }

  lemma {:induction false} NotLess(a: string)
    ensures !Less(a, a)
  {
    if a != "" {
      NotLess(a[1..]);
    }
  }

  lemma {:induction false} LessTotal(a: string, b: string)
    ensures a == b || Less(a, b) || Less(b, a)
    ensures !(Less(a, b) && Less(b, a)) && !Less(a, a)
    decreases |a| + |b|
  {
    NotLess(a);
    if a != "" && b != "" && a[0] == b[0] {
      LessTotal(a[1..], b[1..]);
      assert a == [a[0]] + a[1..] && b == [b[0]] + b[1..];
    }
  }

  ghost predicate Ascending(xs: seq<string>) {
    forall i, j :: 0 <= i < j < |xs| ==> Less(xs[i], xs[j])
  }

  ghost function Any<T>(s: set<T>): (x: T)
    requires s != {}
    ensures x in s
  {
    var x :| x in s; x
  }

  ghost function Min(s: set<string>): (m: string)
    requires s != {}
    ensures m in s && forall x :: x in s && x != m ==> Less(m, x)
  {
    var x := Any(s);
    var rest := s - {x};
    if rest == {} then
      assert forall y :: y in s && y != x ==> y in rest;
      x
    else
      var m := Min(rest);
      LessTotal(x, m);
      assert forall y :: y in s && y != x && y != m ==> y in rest && Less(m, y);
      if Less(x, m) then
        (assert forall y :: y in s && y != x && y != m ==> Less(x, y) by {
           forall y | y in s && y != x && y != m ensures Less(x, y) { LessTrans(x, m, y); }
         }
         x)
      else m
  }

  // `sorted(s)`.
  ghost function Sorted(s: set<string>): (xs: seq<string>)
    ensures |xs| == |s| && Ascending(xs)
    ensures forall x :: x in xs <==> x in s
  {
    if s == {} then []
    else
      var m := Min(s);
      var rest := Sorted(s - {m});
      assert forall i :: 0 <= i < |rest| ==> rest[i] in s && rest[i] != m by {
        assert forall i :: 0 <= i < |rest| ==> rest[i] in rest;
      }
      [m] + rest
  }
}

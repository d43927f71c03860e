/**
  Go's string order and `sort.Strings`. Go compares strings byte by byte;
  for UTF-8 text that is the same as comparing code points one by one, which
  is what `Less` does on Dafny strings.
 */
module GoSort {

  /** Lexicographic order on code points; a proper prefix comes first. */
  predicate Less(a: string, b: string) {
    if |a| == 0 then |b| > 0
    else if |b| == 0 then false
    else if a[0] != b[0] then a[0] < b[0]
    else Less(a[1..], b[1..])
  }

  lemma LessIrreflexive(a: string)
    ensures !Less(a, a)
  {
  }

  lemma {:induction false} LessTransitive(a: string, b: string, c: string)
    requires Less(a, b) && Less(b, c)
    ensures Less(a, c)
  {
    if |a| > 0 && |b| > 0 && |c| > 0 && a[0] == b[0] == c[0] {
      LessTransitive(a[1..], b[1..], c[1..]);
    }
  }

  lemma {:induction false} LessTotal(a: string, b: string)
    requires a != b
    ensures Less(a, b) || Less(b, a)
  {
    if |a| > 0 && |b| > 0 && a[0] == b[0] {
      assert a == [a[0]] + a[1..] && b == [b[0]] + b[1..];
      LessTotal(a[1..], b[1..]);
    }
  }

  lemma {:induction false} LessAsymmetric(a: string, b: string)
    requires Less(a, b)
    ensures !Less(b, a)
  {
    if |a| > 0 && |b| > 0 && a[0] == b[0] {
      LessAsymmetric(a[1..], b[1..]);
    }
  }

  /** Ascending with no repeated element: the shape `sort.Strings` gives a de-duplicated list. */
  predicate StrictlySorted(xs: seq<string>) {
    forall i, j :: 0 <= i < j < |xs| ==> Less(xs[i], xs[j])
  }

  function Elems(xs: seq<string>): set<string> {
    set x | x in xs
  }

  lemma SortedTail(xs: seq<string>)
    requires StrictlySorted(xs) && |xs| > 0
    ensures StrictlySorted(xs[1..])
    ensures xs[0] !in xs[1..]
    ensures Elems(xs[1..]) == Elems(xs) - {xs[0]}
  {
    if xs[0] in xs[1..] {
      var k :| 0 <= k < |xs[1..]| && xs[1..][k] == xs[0];
      assert Less(xs[0], xs[k + 1]);
      LessIrreflexive(xs[0]);
    }
  }

  /** Inserts `x` into a strictly sorted list, keeping it strictly sorted. */
  function Insert(xs: seq<string>, x: string): (r: seq<string>)
    requires StrictlySorted(xs)
    ensures StrictlySorted(r)
    ensures Elems(r) == Elems(xs) + {x}
  {
    if |xs| == 0 then [x]
    else if xs[0] == x then xs
    else if Less(x, xs[0]) then
      assert forall j :: 0 <= j < |xs| ==> Less(x, xs[j]) by {
        forall j | 0 <= j < |xs| ensures Less(x, xs[j]) {
          if j > 0 { LessTransitive(x, xs[0], xs[j]); }
        }
      }
      [x] + xs
    else
      SortedTail(xs);
      LessTotal(x, xs[0]);
      var rest := Insert(xs[1..], x);
      assert forall y :: y in rest ==> Less(xs[0], y) by {
        forall y | y in rest ensures Less(xs[0], y) {
          assert y in Elems(rest);
          if y != x {
            var k :| 1 <= k < |xs| && xs[k] == y;
          }
        }
      }
      assert Elems([xs[0]] + rest) == {xs[0]} + Elems(rest);
      [xs[0]] + rest
  }

  /**
    `sort.Strings` applied to the keys of a Go set (`map[string]bool`),
    visited in whatever order the map iteration happens to produce.
   */
  method SortSet(s: set<string>) returns (r: seq<string>)
    ensures StrictlySorted(r)
    ensures Elems(r) == s
  {
    r := [];
    var rest := s;
    while rest != {}
      invariant StrictlySorted(r)
      invariant rest <= s
      invariant Elems(r) == s - rest
      decreases rest
    {
      var x :| x in rest;
      r := Insert(r, x);
      rest := rest - {x};
    }
  }

  /**
    A strictly sorted list is determined by its elements, so the result of
    sorting does not depend on the order in which the set was visited.
   */
  lemma {:induction false} SortedUnique(a: seq<string>, b: seq<string>)
    requires StrictlySorted(a) && StrictlySorted(b)
    requires Elems(a) == Elems(b)
    ensures a == b
  {
    if |a| > 0 { assert a[0] in Elems(a); }
    if |b| > 0 { assert b[0] in Elems(b); }
    if |a| > 0 && |b| > 0 {
      if a[0] != b[0] {
        var i :| 0 <= i < |b| && b[i] == a[0];
        var j :| 0 <= j < |a| && a[j] == b[0];
        assert Less(b[0], a[0]);
        assert Less(a[0], b[0]);
        LessAsymmetric(a[0], b[0]);
      }
      SortedTail(a);
      SortedTail(b);
      SortedUnique(a[1..], b[1..]);
      assert a == [a[0]] + a[1..] && b == [b[0]] + b[1..];
    }
  }

  /** A strictly sorted list has no duplicates, so its length is its element count. */
  lemma {:induction false} SortedLength(xs: seq<string>)
    requires StrictlySorted(xs)
    ensures |Elems(xs)| == |xs|
  {
    if |xs| > 0 {
      SortedTail(xs);
      SortedLength(xs[1..]);
      assert Elems(xs) == Elems(xs[1..]) + {xs[0]};
    }
  }
}

/** Python's ordering of strings and of lists of strings, and `sorted`. */
module Ordering {
  import opened Collections

  ghost predicate TotalOrder<T(!new)>(leq: (T, T) -> bool) {
    && (forall a, b :: leq(a, b) || leq(b, a))
    && (forall a, b :: leq(a, b) && leq(b, a) ==> a == b)
    && (forall a, b, c :: leq(a, b) && leq(b, c) ==> leq(a, c))
  }

  ghost predicate SortedBy<T(!new)>(leq: (T, T) -> bool, s: seq<T>) {
    forall i, j :: 0 <= i < j < |s| ==> leq(s[i], s[j])
  }

  /** Lexicographic lifting of an element order, as Python compares sequences. */
  predicate LexLeq<T(==)>(leq: (T, T) -> bool, a: seq<T>, b: seq<T>) {
    if a == [] then true
    else if b == [] then false
    else if a[0] == b[0] then LexLeq(leq, a[1..], b[1..])
    else leq(a[0], b[0])
  }

  predicate CharLeq(a: char, b: char) { a <= b }

  predicate StringLeq(a: string, b: string) { LexLeq(CharLeq, a, b) }

  predicate GroupLeq(a: seq<string>, b: seq<string>) { LexLeq(StringLeq, a, b) }

  lemma {:induction false} LexTotalAt<T(!new)>(leq: (T, T) -> bool, a: seq<T>, b: seq<T>)
    requires TotalOrder(leq)
    ensures LexLeq(leq, a, b) || LexLeq(leq, b, a)
    ensures LexLeq(leq, a, b) && LexLeq(leq, b, a) ==> a == b
  {
    if a != [] && b != [] && a[0] == b[0] {
      LexTotalAt(leq, a[1..], b[1..]);
      assert a == [a[0]] + a[1..] && b == [b[0]] + b[1..];
    }
  }

  lemma {:induction false} LexTransitiveAt<T(!new)>(leq: (T, T) -> bool, a: seq<T>, b: seq<T>, c: seq<T>)
    requires TotalOrder(leq)
    requires LexLeq(leq, a, b) && LexLeq(leq, b, c)
    ensures LexLeq(leq, a, c)
  {
    if a != [] && b != [] && c != [] && a[0] == b[0] == c[0] {
      LexTransitiveAt(leq, a[1..], b[1..], c[1..]);
    }
  }

  lemma StringsTotallyOrdered()
    ensures TotalOrder(StringLeq)
  {
    forall a: string, b: string
      ensures StringLeq(a, b) || StringLeq(b, a)
      ensures StringLeq(a, b) && StringLeq(b, a) ==> a == b
    {
      LexTotalAt(CharLeq, a, b);
    }
    forall a: string, b: string, c: string | StringLeq(a, b) && StringLeq(b, c)
      ensures StringLeq(a, c)
    {
      LexTransitiveAt(CharLeq, a, b, c);
    }
  }

  lemma GroupsTotallyOrdered()
    ensures TotalOrder(GroupLeq)
  {
    StringsTotallyOrdered();
    forall a: seq<string>, b: seq<string>
      ensures GroupLeq(a, b) || GroupLeq(b, a)
      ensures GroupLeq(a, b) && GroupLeq(b, a) ==> a == b
    {
      LexTotalAt(StringLeq, a, b);
    }
    forall a: seq<string>, b: seq<string>, c: seq<string> | GroupLeq(a, b) && GroupLeq(b, c)
      ensures GroupLeq(a, c)
    {
      LexTransitiveAt(StringLeq, a, b, c);
    }
  }

  /** `sorted(list)` on a totally ordered element type. */
  method Sorted<T(!new)>(leq: (T, T) -> bool, xs: seq<T>) returns (r: seq<T>)
    requires TotalOrder(leq)
    ensures SortedBy(leq, r)
    ensures multiset(r) == multiset(xs)
  {
    r := [];
    for i := 0 to |xs|
      invariant SortedBy(leq, r)
      invariant multiset(r) == multiset(xs[..i])
    {
      assert xs[..i + 1] == xs[..i] + [xs[i]];
      r := InsertSorted(leq, r, xs[i]);
    }
    assert xs[..|xs|] == xs;
  }

  method InsertSorted<T(!new)>(leq: (T, T) -> bool, s: seq<T>, x: T) returns (r: seq<T>)
    requires TotalOrder(leq) && SortedBy(leq, s)
    ensures SortedBy(leq, r)
    ensures multiset(r) == multiset(s) + multiset{x}
  {
    var k := 0;
    while k < |s| && leq(s[k], x)
      invariant 0 <= k <= |s|
      invariant forall j :: 0 <= j < k ==> leq(s[j], x)
    {
      k := k + 1;
    }
    r := s[..k] + [x] + s[k..];
    FollowersAbove(leq, s, k, x);
    InsertKeepsOrder(leq, s, k, x);
    InsertAdds(s, k, x);
  }

  lemma FollowersAbove<T(!new)>(leq: (T, T) -> bool, s: seq<T>, k: nat, x: T)
    requires TotalOrder(leq) && SortedBy(leq, s) && (k < |s| ==> !leq(s[k], x))
    ensures forall j :: k <= j < |s| ==> leq(x, s[j])
  {
    forall j | k <= j < |s| ensures leq(x, s[j]) {
      assert leq(x, s[k]);
      if j > k { assert leq(s[k], s[j]); }
    }
  }

  lemma InsertKeepsOrder<T(!new)>(leq: (T, T) -> bool, s: seq<T>, k: nat, x: T)
    requires SortedBy(leq, s) && k <= |s|
    requires (forall j :: 0 <= j < k ==> leq(s[j], x)) && forall j :: k <= j < |s| ==> leq(x, s[j])
    ensures SortedBy(leq, s[..k] + [x] + s[k..])
  {
    var r := s[..k] + [x] + s[k..];
    forall i, j | 0 <= i < j < |r| ensures leq(r[i], r[j]) {
      assert r[i] == if i < k then s[i] else if i == k then x else s[i - 1];
      assert r[j] == if j < k then s[j] else if j == k then x else s[j - 1];
    }
  }

  lemma InsertAdds<T>(s: seq<T>, k: nat, x: T)
    requires k <= |s|
    ensures multiset(s[..k] + [x] + s[k..]) == multiset(s) + multiset{x}
  {
    assert s == s[..k] + s[k..];
  }

  /** `sorted(set)`: the set is enumerated in some order and then sorted. */
  method SortedSet(s: set<string>) returns (r: seq<string>)
    ensures SortedBy(StringLeq, r) && Distinct(r) && Elems(r) == s
  {
    StringsTotallyOrdered();
    var left, xs := s, [];
    while left != {}
      invariant Elems(xs) == s - left && left <= s
      invariant Distinct(xs)
      decreases left
    {
      var x :| x in left;
      assert x !in Elems(xs);
      assert Elems(xs + [x]) == Elems(xs) + {x};
      left, xs := left - {x}, xs + [x];
    }
    r := Sorted(StringLeq, xs);
    SameElements(r, xs);
  }

  lemma SameElements<T(!new)>(r: seq<T>, xs: seq<T>)
    requires multiset(r) == multiset(xs)
    ensures Elems(r) == Elems(xs) && |r| == |xs|
    ensures Distinct(xs) ==> Distinct(r)
  {
    assert |r| == |multiset(r)| == |multiset(xs)| == |xs|;
    forall x ensures x in Elems(r) <==> x in Elems(xs) {
      assert x in r <==> x in multiset(r);
      assert x in xs <==> x in multiset(xs);
    }
    if Distinct(xs) && !Distinct(r) {
      var i, j :| 0 <= i < j < |r| && r[i] == r[j];
      assert r == r[..i] + [r[i]] + r[i + 1..j] + [r[j]] + r[j + 1..];
      assert multiset(r)[r[i]] >= 2;
      DistinctOnce(xs, r[i]);
      assert false;
    }
  }

  lemma {:induction false} DistinctOnce<T(!new)>(s: seq<T>, x: T)
    requires Distinct(s)
    ensures multiset(s)[x] <= 1
  {
    if s != [] {
      assert s == [s[0]] + s[1..];
      DistinctOnce(s[1..], x);
      if x == s[0] {
        assert x !in s[1..];
      }
    }
  }

  /** A strictly sorted list is determined by its elements. */
  lemma {:induction false} SortedIsCanonical<T(!new)>(leq: (T, T) -> bool, a: seq<T>, b: seq<T>)
    requires TotalOrder(leq)
    requires SortedBy(leq, a) && Distinct(a) && SortedBy(leq, b) && Distinct(b)
    requires forall x :: x in a <==> x in b
    ensures a == b
  {
    assert |b| > 0 ==> b[0] in a;
    if a != [] {
      assert a[0] in b && b != [];
      assert a[0] == b[0];
      forall x ensures x in a[1..] <==> x in b[1..] {
        assert a == [a[0]] + a[1..] && b == [b[0]] + b[1..];
        assert x in a <==> x == a[0] || x in a[1..];
        assert x in b <==> x == b[0] || x in b[1..];
      }
      SortedIsCanonical(leq, a[1..], b[1..]);
      assert a == [a[0]] + a[1..] && b == [b[0]] + b[1..];
    }
  }
}

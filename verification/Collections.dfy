/** Optional values, the elements of a sequence, and sizes of finite sets. */
module Collections {

  datatype Option<T> = None | Some(value: T)

  function Elems<T>(s: seq<T>): set<T> {
    set x | x in s
  }

  ghost predicate Distinct<T(!new)>(s: seq<T>) {
    forall i, j :: 0 <= i < j < |s| ==> s[i] != s[j]
  }

  lemma {:induction false} SubsetSize<T>(a: set<T>, b: set<T>)
    requires a <= b
    ensures |a| <= |b|
  {
    if a != {} {
      var x :| x in a;
      SubsetSize(a - {x}, b - {x});
    }
  }

  lemma SubsetOfSameSize<T>(a: set<T>, b: set<T>)
    requires a <= b && |b| <= |a|
    ensures a == b
  {
    assert |b - a| == |b| - |a|;
  }

  /** A sequence has no repeats exactly when it has as many elements as entries. */
  lemma {:induction false} DistinctIff<T(!new)>(s: seq<T>)
    ensures |Elems(s)| <= |s|
    ensures |Elems(s)| == |s| <==> Distinct(s)
  {
    if s != [] {
      DistinctIff(s[1..]);
      assert Elems(s) == Elems(s[1..]) + {s[0]};
      if s[0] in s[1..] {
        var k :| 0 <= k < |s[1..]| && s[1..][k] == s[0];
        assert Elems(s) == Elems(s[1..]) && s[k + 1] == s[0];
      }
    }
  }

  function Without<T>(s: seq<T>, i: nat): seq<T>
    requires i < |s|
  {
    s[..i] + s[i + 1..]
  }

  /** A finite set does not hold every string. */
  lemma FreshString(taken: set<string>) returns (x: string)
    ensures x != "" && x !in taken
  {
    var n := LongerThanAll(taken);
    x := seq(n + 1, _ => 'x');
  }

  lemma {:induction false} LongerThanAll(taken: set<string>) returns (n: nat)
    ensures forall x :: x in taken ==> |x| <= n
  {
    if taken == {} {
      n := 0;
    } else {
      var y :| y in taken;
      var m := LongerThanAll(taken - {y});
      n := if m < |y| then |y| else m;
      assert forall x :: x in taken ==> x == y || x in taken - {y};
    }
  }
}

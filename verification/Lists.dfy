/** Sequences without repetition. */
module Lists {
  ghost predicate NoRepeat<T>(s: seq<T>) {
    forall i, j :: 0 <= i < j < |s| ==> s[i] != s[j]
  }

  lemma EmptyNoRepeat<T>()
    ensures var s: seq<T> := []; NoRepeat(s)
  {
  }

  lemma PushNoRepeat<T>(x: T, s: seq<T>)
    requires NoRepeat(s) && x !in s
    ensures NoRepeat([x] + s)
  {
  }

  ghost function Numbers(n: nat): (r: set<nat>)
    ensures |r| == n && forall i :: i in r <==> 0 <= i < n
  {
    if n == 0 then {} else Numbers(n - 1) + {n - 1}
  }

  ghost function Elements(s: seq<nat>): (r: set<nat>)
    requires NoRepeat(s)
    ensures |r| == |s| && forall x :: x in r <==> x in s
  {
    if s == [] then {} else
      assert s[0] !in s[1..];
      assert s == [s[0]] + s[1..];
      Elements(s[1..]) + {s[0]}
  }

  lemma SubsetSize<T>(a: set<T>, b: set<T>)
    requires a <= b
    ensures |a| <= |b| && (|a| == |b| ==> a == b)
  {
    assert b == a + (b - a);
    assert |b| == |a| + |b - a|;
  }

  /** There are n numbers below n at most. */
  lemma AtMost(s: seq<nat>, n: nat)
    requires NoRepeat(s) && forall i :: 0 <= i < |s| ==> s[i] < n
    ensures |s| <= n
  {
    SubsetSize(Elements(s), Numbers(n));
  }

  /** And n of them are all. */
  lemma Everyone(s: seq<nat>, n: nat, x: nat) returns (i: nat)
    requires NoRepeat(s) && |s| == n && x < n && forall i :: 0 <= i < |s| ==> s[i] < n
    ensures i < |s| && s[i] == x
  {
    SubsetSize(Elements(s), Numbers(n));
    assert x in Numbers(n);
    i :| 0 <= i < |s| && s[i] == x;
  }
}

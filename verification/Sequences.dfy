/** Facts about sequences shared by several components. */
module Sequences {
  predicate Distinct<T(==)>(s: seq<T>) {
    forall i, j | 0 <= i < j < |s| :: s[i] != s[j]
  }

  function RemoveAt<T>(s: seq<T>, k: nat): (r: seq<T>)
    requires k < |s|
    ensures |r| == |s| - 1
  {
    s[..k] + s[k + 1..]
  }

  lemma RemoveAtMultiset<T>(s: seq<T>, k: nat)
    requires k < |s|
    ensures multiset(RemoveAt(s, k)) == multiset(s) - multiset{s[k]}
  {
    assert s == s[..k] + [s[k]] + s[k + 1..];
  }

  // Two orderings of the same elements: the last one of b is somewhere in a.
  lemma MatchLast<T>(a: seq<T>, b: seq<T>) returns (k: nat)
    requires multiset(a) == multiset(b) && b != []
    ensures k < |a| && a[k] == b[|b| - 1]
    ensures multiset(RemoveAt(a, k)) == multiset(b[..|b| - 1])
  {
    var n := |b| - 1;
    assert b[n] in multiset(a);
    k :| 0 <= k < |a| && a[k] == b[n];
    RemoveAtMultiset(a, k);
    RemoveAtMultiset(b, n);
    assert RemoveAt(b, n) == b[..n];
  }
}

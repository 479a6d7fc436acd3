/** Taking one element out of a sequence and out of a permutation of it; sizes of subsets. */
module Permutations {

  function Without<T>(s: seq<T>, k: nat): seq<T>
    requires k < |s|
  {
    s[..k] + s[k + 1..]
  }

  lemma WithoutOne<T>(s: seq<T>, k: nat)
    requires k < |s|
    ensures s == s[..k] + [s[k]] + s[k + 1..]
    ensures multiset(s) == multiset(Without(s, k)) + multiset{s[k]}
    ensures forall x :: x in s[k + 1..] ==> x in Without(s, k)
  {
    assert s == s[..k] + [s[k]] + s[k + 1..];
  }

  lemma SameMembers<T>(a: seq<T>, b: seq<T>)
    requires multiset(a) == multiset(b)
    ensures forall x :: x in a <==> x in b
  {
    forall x
      ensures x in a <==> x in b
    {
      assert x in a <==> x in multiset(a);
      assert x in b <==> x in multiset(b);
    }
  }

  /** Where a permutation keeps the last element; without it, the rest are permutations of each other. */
  lemma WhereLastWent<T>(xs: seq<T>, ys: seq<T>) returns (k: nat)
    requires xs != [] && multiset(xs) == multiset(ys)
    ensures k < |ys| && ys[k] == xs[|xs| - 1]
    ensures multiset(xs[..|xs| - 1]) == multiset(Without(ys, k))
  {
    var init, x := xs[..|xs| - 1], xs[|xs| - 1];
    assert xs == init + [x];
    assert x in multiset(ys);
    k :| 0 <= k < |ys| && ys[k] == x;
    WithoutOne(ys, k);
    assert multiset(init) == multiset(xs) - multiset{x};
    assert multiset(Without(ys, k)) == multiset(ys) - multiset{x};
  }

  lemma Smaller<T>(a: set<T>, b: set<T>)
    requires a <= b
    ensures |a| <= |b|
  {
    assert b == a + (b - a);
  }
}

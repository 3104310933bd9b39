/** Selection without replacement as `generate_random_choice` does it: draw
    an index into the working copy, take that element, and `splice` it out
    so that it cannot be drawn again. */
module Selection {

  /** `s.splice(i, 1)` on a value: `s` with its `i`-th element removed. */
  function Without<T>(s: seq<T>, i: nat): (r: seq<T>)
    requires i < |s|
    ensures |r| == |s| - 1
  {
    s[..i] + s[i + 1..]
  }

  /** The `k`-th of the `draws` indexes a working copy that has lost `k`
      elements of the `n` it started with. */
  predicate Fits(n: nat, draws: seq<int>) {
    |draws| <= n && forall k :: 0 <= k < |draws| ==> 0 <= draws[k] < n - k
  }

  lemma FitsPrefix(n: nat, draws: seq<int>, m: nat)
    requires Fits(n, draws) && m <= |draws|
    ensures Fits(n, draws[..m])
  {
  }

  /** The working copy after the `draws` have been spliced out, in order. */
  function Remaining<T>(pool: seq<T>, draws: seq<int>): (r: seq<T>)
    requires Fits(|pool|, draws)
    ensures |r| == |pool| - |draws|
    decreases |draws|
  {
    if draws == [] then pool
    else
      var front := draws[..|draws| - 1];
      FitsPrefix(|pool|, draws, |draws| - 1);
      Without(Remaining(pool, front), draws[|draws| - 1])
  }

  /** The elements the `draws` select, in the order they were drawn. */
  function Picks<T>(pool: seq<T>, draws: seq<int>): (r: seq<T>)
    requires Fits(|pool|, draws)
    ensures |r| == |draws|
    decreases |draws|
  {
    if draws == [] then []
    else
      var front := draws[..|draws| - 1];
      FitsPrefix(|pool|, draws, |draws| - 1);
      Picks(pool, front) + [Remaining(pool, front)[draws[|draws| - 1]]]
  }

  lemma WithoutSplits<T>(s: seq<T>, i: nat)
    requires i < |s|
    ensures multiset(Without(s, i)) + multiset{s[i]} == multiset(s)
  {
    assert s == s[..i] + [s[i]] + s[i + 1..];
  }

  /** What has been picked and what is left together make up the pool:
      each element is picked at most as often as it occurs. */
  lemma {:induction false} PicksPartition<T>(pool: seq<T>, draws: seq<int>)
    requires Fits(|pool|, draws)
    ensures multiset(Picks(pool, draws)) + multiset(Remaining(pool, draws)) == multiset(pool)
    decreases |draws|
  {
    if draws != [] {
      var front := draws[..|draws| - 1];
      var d := draws[|draws| - 1];
      FitsPrefix(|pool|, draws, |draws| - 1);
      PicksPartition(pool, front);
      WithoutSplits(Remaining(pool, front), d);
    }
  }

  /** The picks are a sub-multiset of the pool; in particular every pick
      is an element of it. */
  lemma PicksFromPool<T>(pool: seq<T>, draws: seq<int>)
    requires Fits(|pool|, draws)
    ensures multiset(Picks(pool, draws)) <= multiset(pool)
    ensures forall x :: x in Picks(pool, draws) ==> x in pool
  {
    PicksPartition(pool, draws);
    forall x | x in Picks(pool, draws)
      ensures x in pool
    {
      assert x in multiset(Picks(pool, draws));
    }
  }

  /** Removes `a[i]` from the first `len` elements of `a` by shifting the
      rest of them down one place, as `splice(i, 1)` does. */
  method RemoveAt<T>(a: array<T>, len: nat, i: nat)
    requires i < len <= a.Length
    modifies a
    ensures a[..len - 1] == Without(old(a[..len]), i)
  {
    var k := i;
    while k < len - 1
      invariant i <= k <= len - 1
      invariant a[..i] == old(a[..i])
      invariant forall m :: i <= m < k ==> a[m] == old(a[m + 1])
      invariant forall m :: k <= m < a.Length ==> a[m] == old(a[m])
    {
      a[k] := a[k + 1];
      k := k + 1;
    }
    assert a[..len - 1] == a[..i] + a[i..len - 1];
    assert a[i..len - 1] == old(a[..len])[i + 1..];
  }
}

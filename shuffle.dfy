/** `random.shuffle` as the decks and the turn order use it: the Fisher-Yates walk from the
    last position down, swapping each position with a randomly chosen one at or before it.
    The random choices are an input. */
module Shuffling {

  /** `picks[i]` is the position chosen for position `i`: at most `i`. */
  predicate PicksFit(picks: seq<nat>, n: nat) {
    |picks| == n && forall i :: 0 <= i < n ==> picks[i] <= i
  }

  /** The shuffled list holds the same elements as the original, each as often. */
  method Shuffle<T>(s: seq<T>, picks: seq<nat>) returns (r: seq<T>)
    requires PicksFit(picks, |s|)
    ensures |r| == |s| && multiset(r) == multiset(s)
  {
    r := s;
    var i := |s|;
    while i > 1
      invariant 0 <= i <= |s| && |r| == |s|
      invariant multiset(r) == multiset(s)
    {
      i := i - 1;
      var j := picks[i];
      r := r[i := r[j]][j := r[i]];
    }
  }

  /** The numbers 0..n-1 in increasing order: `list(range(n))`. */
  function Range(n: nat): (r: seq<int>)
    ensures |r| == n && forall i :: 0 <= i < n ==> r[i] == i
  {
    if n == 0 then [] else Range(n - 1) + [n - 1]
  }

  /** A shuffled `range(n)` lists each of 0..n-1 exactly once. */
  lemma {:induction false} ShuffledRangeIsPermutation(order: seq<int>, n: nat)
    requires multiset(order) == multiset(Range(n))
    ensures |order| == n
    ensures forall k :: 0 <= k < n ==> k in order
    ensures forall i :: 0 <= i < |order| ==> 0 <= order[i] < n
    ensures forall i, j :: 0 <= i < j < |order| ==> order[i] != order[j]
  {
    assert |order| == |multiset(order)| == |multiset(Range(n))| == n;
    forall k | 0 <= k < n ensures k in order {
      assert Range(n)[k] == k;
      assert k in multiset(Range(n));
    }
    forall i | 0 <= i < |order| ensures 0 <= order[i] < n {
      assert order[i] in multiset(Range(n));
    }
    forall i, j | 0 <= i < j < |order| ensures order[i] != order[j] {
      if order[i] == order[j] {
        RangeOnce(n, order[i]);
        TwiceInMultiset(order, i, j);
        assert false;
      }
    }
  }

  /** Each number of the range occurs in it at most once. */
  lemma {:induction false} RangeOnce(n: nat, x: int)
    ensures multiset(Range(n))[x] <= 1
  {
    if n > 0 {
      RangeOnce(n - 1, x);
      assert multiset(Range(n)) == multiset(Range(n - 1)) + multiset{n - 1};
      if x == n - 1 {
        assert x !in Range(n - 1);
      }
    }
  }

  /** A value found at two distinct positions occurs at least twice. */
  lemma TwiceInMultiset<T>(s: seq<T>, i: nat, j: nat)
    requires i < j < |s| && s[i] == s[j]
    ensures multiset(s)[s[i]] >= 2
  {
    assert s == s[..i] + [s[i]] + s[i + 1..j] + [s[j]] + s[j + 1..];
  }
}

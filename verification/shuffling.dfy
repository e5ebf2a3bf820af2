/**
 * The shuffles of the pipeline as a Fisher–Yates shuffle whose random draws are an argument:
 * draw `i` picks the position, among the first `i + 1`, whose element is moved to position `i`.
 * The split's `DataFrame.sample(frac=1, random_state=...)` is seeded, so it uses one fixed draw
 * sequence per length; `np.random.shuffle` at the end of a training epoch uses numpy's unseeded
 * global generator, so its draws are arbitrary valid draws, new on each call.
 */
module Shuffling {

  /** Draws for shuffling `n` elements: one per position, each at most its position. */
  predicate ValidDraws(draws: seq<nat>, n: nat)
  {
    |draws| == n && forall i :: 0 <= i < n ==> draws[i] <= i
  }

  /** The sequence with the elements at `i` and `j` exchanged. */
  function Swap<T>(s: seq<T>, i: nat, j: nat): (r: seq<T>)
    requires i < |s| && j < |s|
    ensures |r| == |s| && r[i] == s[j] && r[j] == s[i]
    ensures forall k :: 0 <= k < |s| && k != i && k != j ==> r[k] == s[k]
    ensures multiset(r) == multiset(s)
  {
    s[i := s[j]][j := s[i]]
  }

  /**
   * Fisher–Yates from the back: the last position receives the element at the last draw, then
   * the remaining prefix is shuffled with the remaining draws.
   */
  function Shuffle<T>(s: seq<T>, draws: seq<nat>): (r: seq<T>)
    requires ValidDraws(draws, |s|)
    ensures |r| == |s| && multiset(r) == multiset(s)
    decreases |s|
  {
    if s == [] then []
    else
      var n := |s| - 1;
      var t := Swap(s, n, draws[n]);
      assert t == t[..n] + [t[n]];
      Shuffle(t[..n], draws[..n]) + [t[n]]
  }

  /** Every element of a shuffle comes from the input and every input element is in the shuffle. */
  lemma ShuffleSameElements<T>(s: seq<T>, draws: seq<nat>, x: T)
    requires ValidDraws(draws, |s|)
    ensures x in Shuffle(s, draws) <==> x in s
  {
    var r := Shuffle(s, draws);
    assert x in r <==> x in multiset(r);
    assert x in s <==> x in multiset(s);
  }
}

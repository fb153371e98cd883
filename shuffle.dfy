/**
 * Fisher–Yates shuffle on a copy of its input. The random source is an
 * input: the caller supplies, for every step, the index the loop swaps with.
 */
module Shuffling {
  import opened Lists

  /** The number of random draws a shuffle of n elements makes: one for each i from n - 1 down to 1. */
  function DrawCount(n: nat): nat {
    if n == 0 then 0 else n - 1
  }

  /**
   * draws[k] is the index j drawn at the k-th step, when the loop is at
   * i = n - 1 - k; a draw of floor(random * (i + 1)) always lies in 0..i.
   */
  predicate ValidDraws(n: nat, draws: seq<nat>) {
    && |draws| == DrawCount(n)
    && forall k :: 0 <= k < |draws| ==> draws[k] <= n - 1 - k
  }

  /** The sequence with the elements at i and j exchanged. */
  function Swap<T>(s: seq<T>, i: nat, j: nat): (r: seq<T>)
    requires i < |s| && j < |s|
    ensures |r| == |s|
  {
    s[i := s[j]][j := s[i]]
  }

  /** Exchanging two elements keeps the multiset of elements. */
  lemma SwapPermutes<T>(s: seq<T>, i: nat, j: nat)
    requires i < |s| && j < |s|
    ensures multiset(Swap(s, i, j)) == multiset(s)
  {
  }

  /**
   * The turns of the loop from i down to 1: the turn at i exchanges the
   * elements at i and at draws[|s| - 1 - i].
   */
  function StepsFrom<T>(s: seq<T>, i: nat, draws: seq<nat>): (r: seq<T>)
    requires i < |s| && ValidDraws(|s|, draws)
    ensures |r| == |s|
    decreases i
  {
    if i == 0 then s
    else StepsFrom(Swap(s, i, draws[|s| - 1 - i]), i - 1, draws)
  }

  /** Every turn of the loop exchanges two elements, so the turns together only reorder s. */
  lemma {:induction false} StepsFromPermutes<T>(s: seq<T>, i: nat, draws: seq<nat>)
    requires i < |s| && ValidDraws(|s|, draws)
    ensures multiset(StepsFrom(s, i, draws)) == multiset(s)
    decreases i
  {
    if i > 0 {
      SwapPermutes(s, i, draws[|s| - 1 - i]);
      StepsFromPermutes(Swap(s, i, draws[|s| - 1 - i]), i - 1, draws);
    }
  }

  /** The order a shuffle of s produces for the given draws. */
  function Shuffle<T>(s: seq<T>, draws: seq<nat>): (r: seq<T>)
    requires ValidDraws(|s|, draws)
    ensures |r| == |s|
    ensures multiset(r) == multiset(s)
  {
    if |s| == 0 then s
    else
      StepsFromPermutes(s, |s| - 1, draws);
      StepsFrom(s, |s| - 1, draws)
  }

  /** Exchanging two elements commutes with a map. */
  lemma MapSwap<T, U>(f: T -> U, s: seq<T>, i: nat, j: nat)
    requires i < |s| && j < |s|
    ensures MapSeq(f, Swap(s, i, j)) == Swap(MapSeq(f, s), i, j)
  {
  }

  /** Running the loop's turns commutes with a map. */
  lemma {:induction false} MapStepsFrom<T, U>(f: T -> U, s: seq<T>, i: nat, draws: seq<nat>)
    requires i < |s| && ValidDraws(|s|, draws)
    ensures MapSeq(f, StepsFrom(s, i, draws)) == StepsFrom(MapSeq(f, s), i, draws)
    decreases i
  {
    if i > 0 {
      var j := draws[|s| - 1 - i];
      MapSwap(f, s, i, j);
      MapStepsFrom(f, Swap(s, i, j), i - 1, draws);
    }
  }

  /**
   * Shuffling commutes with a map: the same draws move a field of each
   * element (its label, its flag) exactly as they move the elements.
   */
  lemma MapShuffle<T, U>(f: T -> U, s: seq<T>, draws: seq<nat>)
    requires ValidDraws(|s|, draws)
    ensures MapSeq(f, Shuffle(s, draws)) == Shuffle(MapSeq(f, s), draws)
  {
    if |s| > 0 {
      MapStepsFrom(f, s, |s| - 1, draws);
    }
  }

  /** A shuffled sequence holds exactly the values of its input. */
  lemma ShuffleElements<T>(s: seq<T>, draws: seq<nat>)
    requires ValidDraws(|s|, draws)
    ensures forall x :: x in Shuffle(s, draws) <==> x in s
  {
    forall x ensures x in Shuffle(s, draws) <==> x in s {
      assert x in Shuffle(s, draws) <==> x in multiset(Shuffle(s, draws));
    }
  }

  /** Shuffling a sequence of pairwise-different elements keeps them pairwise different. */
  lemma ShuffleDistinct<T>(s: seq<T>, draws: seq<nat>)
    requires ValidDraws(|s|, draws) && Distinct(s)
    ensures Distinct(Shuffle(s, draws))
  {
    DistinctPermutation(s, Shuffle(s, draws));
  }

  /** Exchanges two elements of an array in place, as the destructuring assignment does. */
  method Exchange<T>(a: array<T>, i: nat, j: nat)
    requires i < a.Length && j < a.Length
    modifies a
    ensures a[..] == Swap(old(a[..]), i, j)
  {
    a[i], a[j] := a[j], a[i];
  }

  /**
   * The shuffle itself: copy the input into a fresh array, then for i from
   * the last index down to 1 exchange element i with the element at the
   * index drawn for it, draws[n - 1 - i].
   * The input is a value, so it cannot be changed; the result is a
   * permutation of it.
   */
  method ShuffleArray<T>(input: seq<T>, draws: seq<nat>) returns (shuffled: seq<T>)
    requires ValidDraws(|input|, draws)
    ensures shuffled == Shuffle(input, draws)
    ensures |shuffled| == |input|
    ensures multiset(shuffled) == multiset(input)
  {
    var n := |input|;
    var a := new T[n](k requires 0 <= k < n => input[k]);
    ghost var done := input;
    assert a[..] == done;
    var i := n - 1;
    while i > 0
      invariant -1 <= i < n && (n > 0 ==> i >= 0)
      invariant a[..] == done && |done| == n
      invariant i >= 0 ==> StepsFrom(done, i, draws) == StepsFrom(input, n - 1, draws)
    {
      var j := draws[n - 1 - i];
      Exchange(a, i, j);
      done := Swap(done, i, j);
      i := i - 1;
    }
    shuffled := a[..];
  }
}

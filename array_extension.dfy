/**
 * The array helpers of the chart: a bounds test, an in-place Fisher-Yates
 * shuffle and a shuffled copy. The random draw of each shuffle iteration
 * is supplied by the caller as a sequence of draws.
 */
module ArrayExtension {

  /** The indices of a collection of `n` elements: the range `0 ..< n`, in order. */
  function Indices(n: nat): seq<int> {
    seq(n, i => i)
  }

  /**
   * Whether `index` matches the range of indices of `s`; exactly the indices
   * that can be used to subscript `s`.
   */
  function IsInBounds<T>(s: seq<T>, index: int): (inBounds: bool)
    ensures inBounds <==> 0 <= index < |s|
  {
    var range := Indices(|s|);
    assert 0 <= index < |s| ==> range[index] == index;
    index in range
  }

  /**
   * Draws fit for shuffling `count` elements: one per iteration, `count - 1`
   * of them when there are at least two elements, and draw `j` below the
   * number of still-unshuffled elements `count - j`.
   */
  predicate ValidDraws(draws: seq<nat>, count: nat) {
    && |draws| == (if count > 1 then count - 1 else 0)
    && forall j :: 0 <= j < |draws| ==> draws[j] < count - j
  }

  /** Iteration `j` of the shuffle: swap position `j` with position `j + d`, skipped when `d` is 0. */
  function SwapStep<T>(s: seq<T>, j: nat, d: nat): (r: seq<T>)
    requires j + d < |s|
    ensures |r| == |s|
  {
    if d == 0 then s
    else seq(|s|, i requires 0 <= i < |s| => if i == j then s[j + d] else if i == j + d then s[j] else s[i])
  }

  /** A step exchanges positions `j` and `j + d` and keeps every other position. */
  lemma SwapStepExchanges<T>(s: seq<T>, j: nat, d: nat)
    requires j + d < |s|
    ensures SwapStep(s, j, d)[j] == s[j + d] && SwapStep(s, j, d)[j + d] == s[j]
    ensures forall i :: 0 <= i < |s| && i != j && i != j + d ==> SwapStep(s, j, d)[i] == s[i]
  {
  }

  /** A step keeps the multiset of elements. */
  lemma SwapStepPermutes<T>(s: seq<T>, j: nat, d: nat)
    requires j + d < |s|
    ensures multiset(SwapStep(s, j, d)) == multiset(s)
  {
    if d != 0 {
      assert SwapStep(s, j, d) == s[j := s[j + d]][j + d := s[j]];
    }
  }

  /** The sequence after the first `k` iterations of the shuffle. */
  function ShuffleSteps<T>(s: seq<T>, draws: seq<nat>, k: nat): (r: seq<T>)
    requires ValidDraws(draws, |s|) && k <= |draws|
    ensures |r| == |s|
    decreases k
  {
    if k == 0 then s else SwapStep(ShuffleSteps(s, draws, k - 1), k - 1, draws[k - 1])
  }

  /** The shuffle of `s` with the given draws. */
  function Shuffle<T>(s: seq<T>, draws: seq<nat>): seq<T>
    requires ValidDraws(draws, |s|)
  {
    ShuffleSteps(s, draws, |draws|)
  }

  /** Every iteration swaps two in-bounds positions, the first being the iteration's own index. */
  lemma SwapPartnerInBounds<T>(s: seq<T>, draws: seq<nat>, j: nat)
    requires ValidDraws(draws, |s|) && j < |draws|
    ensures IsInBounds(s, j) && IsInBounds(s, j + draws[j])
    ensures |s| - j >= 2
  {
    assert draws[j] < |s| - j;
  }

  /** The shuffle only permutes: the multiset of elements never changes. */
  lemma {:induction false} ShuffleStepsPermutes<T>(s: seq<T>, draws: seq<nat>, k: nat)
    requires ValidDraws(draws, |s|) && k <= |draws|
    ensures multiset(ShuffleSteps(s, draws, k)) == multiset(s)
  {
    if k > 0 {
      ShuffleStepsPermutes(s, draws, k - 1);
      ShuffleStepPermutes(s, draws, k);
    }
  }

  /** Iteration `k - 1` keeps the multiset of the sequence it starts from. */
  lemma ShuffleStepPermutes<T>(s: seq<T>, draws: seq<nat>, k: nat)
    requires ValidDraws(draws, |s|) && 0 < k <= |draws|
    ensures multiset(ShuffleSteps(s, draws, k)) == multiset(ShuffleSteps(s, draws, k - 1))
  {
    assert draws[k - 1] < |s| - (k - 1);
    SwapStepPermutes(ShuffleSteps(s, draws, k - 1), k - 1, draws[k - 1]);
  }

  /**
   * After iteration `j` (that is, after `j + 1` iterations) positions 0 to j
   * never change again: every later iteration swaps only positions above j.
   */
  lemma {:induction false} ShuffleFixesPrefix<T>(s: seq<T>, draws: seq<nat>, j: nat, k: nat)
    requires ValidDraws(draws, |s|) && j < k <= |draws|
    ensures forall i :: 0 <= i <= j ==> ShuffleSteps(s, draws, k)[i] == ShuffleSteps(s, draws, j + 1)[i]
  {
    if k > j + 1 {
      ShuffleFixesPrefix(s, draws, j, k - 1);
      var prev := ShuffleSteps(s, draws, k - 1);
      assert draws[k - 1] < |s| - (k - 1);
      SwapStepExchanges(prev, k - 1, draws[k - 1]);
    }
  }

  /** With fewer than two elements the shuffle changes nothing. */
  lemma ShuffleOfShortIsIdentity<T>(s: seq<T>, draws: seq<nat>)
    requires ValidDraws(draws, |s|) && |s| < 2
    ensures Shuffle(s, draws) == s
  {
  }

  /**
   * A shuffle is a permutation of its input with the same length, and
   * position `j` of the result holds the element that iteration `j` drew
   * from the still-unshuffled part.
   */
  lemma ShuffleIsPermutation<T>(s: seq<T>, draws: seq<nat>)
    requires ValidDraws(draws, |s|)
    ensures |Shuffle(s, draws)| == |s|
    ensures multiset(Shuffle(s, draws)) == multiset(s)
    ensures forall j :: 0 <= j < |draws| ==>
              Shuffle(s, draws)[j] == ShuffleSteps(s, draws, j)[j + draws[j]]
  {
    ShuffleStepsPermutes(s, draws, |draws|);
    forall j | 0 <= j < |draws|
      ensures Shuffle(s, draws)[j] == ShuffleSteps(s, draws, j)[j + draws[j]]
    {
      ShuffleSettles(s, draws, j);
    }
  }

  /** Position `j` of the shuffle is the element that iteration `j` swapped into it. */
  lemma ShuffleSettles<T>(s: seq<T>, draws: seq<nat>, j: nat)
    requires ValidDraws(draws, |s|) && j < |draws|
    ensures j + draws[j] < |s|
    ensures Shuffle(s, draws)[j] == ShuffleSteps(s, draws, j)[j + draws[j]]
  {
    assert draws[j] < |s| - j;
    ShuffleFixesPrefix(s, draws, j, |draws|);
    SwapStepExchanges(ShuffleSteps(s, draws, j), j, draws[j]);
    assert ShuffleSteps(s, draws, j + 1) == SwapStep(ShuffleSteps(s, draws, j), j, draws[j]);
  }

  /** Shuffles the array in place with the given draws. */
  method ShuffleInPlace<T>(a: array<T>, draws: seq<nat>)
    requires ValidDraws(draws, a.Length)
    modifies a
    ensures a[..] == Shuffle(old(a[..]), draws)
    ensures multiset(a[..]) == multiset(old(a[..]))
  {
    var c := a.Length;
    if c <= 1 {
      return;
    }
    ghost var original := a[..];
    for firstUnshuffled := 0 to c - 1
      invariant a[..] == ShuffleSteps(original, draws, firstUnshuffled)
    {
      var unshuffledCount := c - firstUnshuffled;
      var d := draws[firstUnshuffled];
      assert d < unshuffledCount;
      if d == 0 {
        continue;
      }
      var i := firstUnshuffled + d;
      SwapPartnerInBounds(original, draws, firstUnshuffled);
      ghost var before := a[..];
      a[firstUnshuffled], a[i] := a[i], a[firstUnshuffled];
      assert a[..] == SwapStep(before, firstUnshuffled, d);
    }
    ShuffleStepsPermutes(original, draws, |draws|);
  }

  /** A shuffled copy of `s`; `s` itself is a value and cannot change. */
  method Shuffled<T>(s: seq<T>, draws: seq<nat>) returns (result: seq<T>)
    requires ValidDraws(draws, |s|)
    ensures result == Shuffle(s, draws)
    ensures |result| == |s| && multiset(result) == multiset(s)
  {
    var a := new T[|s|](i requires 0 <= i < |s| => s[i]);
    assert a[..] == s;
    ShuffleInPlace(a, draws);
    result := a[..];
  }
}

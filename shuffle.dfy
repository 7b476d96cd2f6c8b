/**
 * The seeded Fisher–Yates shuffle (`shuffleArray`). The floating-point body of
 * `seededRandom` is not modelled: the generator is an arbitrary function from
 * an integer seed to a number in [0, 1), and each draw is `floor(u * n)`.
 */
module Shuffle {

  /** A value `seededRandom` can return. */
  type UnitReal = r: real | 0.0 <= r < 1.0

  /** `Math.floor(u * n)`: an index drawn below n. */
  function Draw(u: UnitReal, n: nat): (k: nat)
    requires n > 0
    ensures k < n
  {
    assert u * (n as real) < n as real;
    (u * (n as real)).Floor
  }

  /** `seed || Date.now()`: a zero seed is replaced by the clock value. */
  function EffectiveSeed(seed: int, now: int): (s: int)
    ensures seed != 0 ==> s == seed
    ensures seed == 0 ==> s == now
  {
    if seed != 0 then seed else now
  }

  function Swap<T>(xs: seq<T>, i: nat, j: nat): (ys: seq<T>)
    requires i < |xs| && j < |xs|
    ensures |ys| == |xs|
  {
    xs[i := xs[j]][j := xs[i]]
  }

  /** The Fisher–Yates loop as a function: with `k` positions still to fix and
      seed `s`, draw an index below k, swap it with position k-1, continue. */
  function ShuffleFrom<T>(rand: int -> UnitReal, xs: seq<T>, k: nat, s: int): seq<T>
    requires k <= |xs|
    decreases k
  {
    if k == 0 then xs
    else ShuffleFrom(rand, Swap(xs, k - 1, Draw(rand(s), k)), k - 1, s + 1)
  }

  /** The sequence `shuffleArray(xs, seed)` returns. */
  function Shuffled<T>(rand: int -> UnitReal, xs: seq<T>, seed: int, now: int): seq<T>
  {
    ShuffleFrom(rand, xs, |xs|, EffectiveSeed(seed, now))
  }

  lemma SwapPermutes<T>(xs: seq<T>, i: nat, j: nat)
    requires i < |xs| && j < |xs|
    ensures multiset(Swap(xs, i, j)) == multiset(xs)
  {
    var ys := xs[i := xs[j]];
    assert multiset(ys) == multiset(xs) - multiset{xs[i]} + multiset{xs[j]};
    assert ys[j] == (if i == j then xs[j] else xs[j]);
    assert multiset(ys[j := xs[i]]) == multiset(ys) - multiset{ys[j]} + multiset{xs[i]};
  }

  /** Every step of the loop is a swap, so the result is a permutation. */
  lemma {:induction false} ShuffleFromPermutes<T>(rand: int -> UnitReal, xs: seq<T>, k: nat, s: int)
    requires k <= |xs|
    ensures |ShuffleFrom(rand, xs, k, s)| == |xs|
    ensures multiset(ShuffleFrom(rand, xs, k, s)) == multiset(xs)
    decreases k
  {
    if k > 0 {
      var j := Draw(rand(s), k);
      SwapPermutes(xs, k - 1, j);
      ShuffleFromPermutes(rand, Swap(xs, k - 1, j), k - 1, s + 1);
    }
  }

  /** `shuffleArray` returns a permutation of its input: same length, same elements
      with the same multiplicities, for every seed and every generator. */
  lemma ShuffledPermutes<T>(rand: int -> UnitReal, xs: seq<T>, seed: int, now: int)
    ensures |Shuffled(rand, xs, seed, now)| == |xs|
    ensures multiset(Shuffled(rand, xs, seed, now)) == multiset(xs)
  {
    ShuffleFromPermutes(rand, xs, |xs|, EffectiveSeed(seed, now));
  }

  /** Every element of a shuffle comes from the input. */
  lemma ShuffledMember<T>(rand: int -> UnitReal, xs: seq<T>, seed: int, now: int, i: nat)
    requires i < |xs|
    ensures |Shuffled(rand, xs, seed, now)| == |xs|
    ensures Shuffled(rand, xs, seed, now)[i] in xs
  {
    var ys := Shuffled(rand, xs, seed, now);
    ShuffledPermutes(rand, xs, seed, now);
    assert ys[i] in multiset(ys);
  }

  /** A prefix of a shuffle takes each element at most as often as the input holds it. */
  lemma ShufflePrefixDrawn<T>(rand: int -> UnitReal, xs: seq<T>, seed: int, now: int, p: seq<T>)
    requires p <= Shuffled(rand, xs, seed, now)
    ensures multiset(p) <= multiset(xs)
    ensures forall x :: x in p ==> x in xs
  {
    var ys := Shuffled(rand, xs, seed, now);
    ShuffledPermutes(rand, xs, seed, now);
    assert ys == p + ys[|p|..];
    assert multiset(ys) == multiset(p) + multiset(ys[|p|..]);
    forall x | x in p ensures x in xs {
      assert x in multiset(ys);
    }
  }

  /** `shuffleArray(array, seed)`: copies the input into a new array and runs the
      Fisher–Yates loop on the copy; the caller's sequence is a value and is not
      touched. */
  method ShuffleArray<T>(input: seq<T>, seed: int, now: int, rand: int -> UnitReal)
    returns (r: seq<T>)
    ensures r == Shuffled(rand, input, seed, now)
    ensures |r| == |input| && multiset(r) == multiset(input)
  {
    var arr := new T[|input|](i requires 0 <= i < |input| => input[i]);
    var currentIndex := arr.Length;
    var s := EffectiveSeed(seed, now);
    assert arr[..] == input;
    while currentIndex > 0
      invariant 0 <= currentIndex <= arr.Length
      invariant ShuffleFrom(rand, arr[..], currentIndex, s)
             == ShuffleFrom(rand, input, |input|, EffectiveSeed(seed, now))
      decreases currentIndex
    {
      var randomIndex := Draw(rand(s), currentIndex);
      ghost var before := arr[..];
      s := s + 1;
      currentIndex := currentIndex - 1;
      arr[currentIndex], arr[randomIndex] := arr[randomIndex], arr[currentIndex];
      assert arr[..] == Swap(before, currentIndex, randomIndex);
    }
    r := arr[..];
    ShuffledPermutes(rand, input, seed, now);
  }
}

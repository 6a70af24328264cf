/** `random.shuffle` as Python 2.7 runs it: for `i` from `len(x) - 1` down to
    1, draw `j = int(random() * (i + 1))` and swap `x[i]` with `x[j]`. The
    Mersenne Twister behind `random()` is not modelled: the values it returns
    after `seed(3)` are a parameter, one real in [0, 1) per call. Since the
    corpus loader reseeds before every shuffle, every shuffle sees the same
    values, and so the permutation depends only on the length of the list. */
module Shuffle {

  /** A value of `random()`: a real in [0, 1). */
  type Unit = x: real | 0.0 <= x < 1.0

  /** The values of the successive calls of `random()`: call number `k`
      (from 0) returns `draws(k)`. */
  type Draws = nat -> Unit

  /** `int(u * bound)`: an index below `bound`. The product is exact here;
      CPython rounds it to a double before truncating. */
  function Pick(u: Unit, bound: nat): (j: nat)
    requires bound > 0
    ensures j < bound
  {
    var x := u * bound as real;
    assert x < bound as real by {
      assert u * bound as real < 1.0 * bound as real;
    }
    x.Floor
  }

  /** `s` with the elements at `i` and `j` exchanged. */
  function Swap<T>(s: seq<T>, i: nat, j: nat): (r: seq<T>)
    requires i < |s| && j < |s|
    ensures |r| == |s| && r[i] == s[j] && r[j] == s[i]
    ensures forall k | 0 <= k < |s| && k != i && k != j :: r[k] == s[k]
  {
    s[i := s[j]][j := s[i]]
  }

  /** The indices drawn when a list of length `n` is shuffled: call number
      `c` of `random()` is made in the round for position `n - 1 - c` and
      picks an index in `0 .. n - 1 - c`. (The entry for `c = n - 1` belongs
      to no round and is never read.) */
  function Picks(draws: Draws, n: nat): (picks: seq<nat>)
    ensures ValidPicks(picks, n)
  {
    PicksFrom(draws, 0, n)
  }

  /** The indices drawn by calls `c .. n - 1`. */
  function PicksFrom(draws: Draws, c: nat, n: nat): (picks: seq<nat>)
    requires c <= n
    ensures |picks| == n - c
    ensures forall k | 0 <= k < n - c :: picks[k] < n - c - k
    decreases n - c
  {
    if c == n then [] else [Pick(draws(c), n - c)] + PicksFrom(draws, c + 1, n)
  }

  /** Entry `k` of the indices drawn from call `c` on is drawn by call `c + k`. */
  lemma {:induction false} PicksFromAt(draws: Draws, c: nat, n: nat, k: nat)
    requires c + k < n
    ensures PicksFrom(draws, c, n)[k] == Pick(draws(c + k), n - c - k)
    decreases k
  {
    if k > 0 {
      PicksFromAt(draws, c + 1, n, k - 1);
    }
  }

  /** Call number `c` picks the index `Pick(draws(c), n - c)`. */
  lemma PickIsDrawn(draws: Draws, n: nat, c: nat, bound: nat)
    requires c < n && bound == n - c
    ensures Picks(draws, n)[c] == Pick(draws(c), bound)
  {
    PicksFromAt(draws, 0, n, c);
  }

  /** One index per call, each within the range of its round. */
  predicate ValidPicks(picks: seq<nat>, n: nat) {
    |picks| == n && forall c | 0 <= c < n :: picks[c] < n - c
  }

  /** The rounds of the shuffle from `i` down to 1 applied to `s`; the round
      for `i` uses the index of call number `|s| - 1 - i`. */
  function ShuffleFrom<T>(s: seq<T>, i: nat, picks: seq<nat>): (r: seq<T>)
    requires i < |s| && ValidPicks(picks, |s|)
    ensures |r| == |s|
    decreases i
  {
    if i == 0 then s
    else ShuffleFrom(Swap(s, i, picks[|s| - 1 - i]), i - 1, picks)
  }

  /** The list `s` after `random.shuffle`. */
  function Shuffled<T>(s: seq<T>, draws: Draws): (r: seq<T>)
    ensures |r| == |s|
  {
    if s == [] then s else ShuffleFrom(s, |s| - 1, Picks(draws, |s|))
  }

  /** Each round is a swap, so the rounds only rearrange. */
  lemma {:induction false} ShuffleFromIsPermutation<T>(s: seq<T>, i: nat, picks: seq<nat>)
    requires i < |s| && ValidPicks(picks, |s|)
    ensures |ShuffleFrom(s, i, picks)| == |s|
    ensures multiset(ShuffleFrom(s, i, picks)) == multiset(s)
    decreases i
  {
    if i > 0 {
      ShuffleFromIsPermutation(Swap(s, i, picks[|s| - 1 - i]), i - 1, picks);
    }
  }

  /** Shuffling only rearranges: same length, same elements with the same
      multiplicities. */
  lemma ShuffledIsPermutation<T>(s: seq<T>, draws: Draws)
    ensures |Shuffled(s, draws)| == |s|
    ensures multiset(Shuffled(s, draws)) == multiset(s)
  {
    if s != [] {
      ShuffleFromIsPermutation(s, |s| - 1, Picks(draws, |s|));
    }
  }

  /** The positions `0, 1, ..., n - 1`. */
  function Range(n: nat): (r: seq<nat>)
    ensures |r| == n && forall k | 0 <= k < n :: r[k] == k
  {
    seq(n, k => k)
  }

  /** The permutation applied to every list of length `n`: the shuffle of
      the positions `0 .. n - 1`. */
  function Permutation(n: nat, draws: Draws): (p: seq<nat>)
    ensures |p| == n
  {
    Shuffled<nat>(Range(n), draws)
  }

  /** The permutation is a rearrangement of the positions `0 .. n - 1`. */
  lemma PermutationOfPositions(n: nat, draws: Draws)
    ensures multiset(Permutation(n, draws)) == multiset(Range(n))
    ensures forall k | 0 <= k < n :: Permutation(n, draws)[k] < n
  {
    var p := Permutation(n, draws);
    ShuffledIsPermutation(Range(n), draws);
    forall k | 0 <= k < n
      ensures p[k] < n
    {
      assert p[k] in multiset(Range(n));
    }
  }

  /** The shuffle moves elements by their positions alone: the shuffled list
      holds at position `k` the element of `s` at `Permutation(|s|)[k]`. Two
      lists of the same length are therefore rearranged the same way. */
  lemma ShuffledByPermutation<T>(s: seq<T>, draws: Draws)
    ensures forall k | 0 <= k < |s| :: Permutation(|s|, draws)[k] < |s|
    ensures forall k | 0 <= k < |s| :: Shuffled(s, draws)[k] == s[Permutation(|s|, draws)[k]]
  {
    var n := |s|;
    PermutationOfPositions(n, draws);
    if n > 0 {
      var picks := Picks(draws, n);
      ShuffleFromByPositions(s, picks);
      assert Permutation(n, draws) == Rearrangement(n, picks);
      assert Shuffled(s, draws) == ShuffleFrom(s, n - 1, picks);
    }
  }

  /** The rounds applied to the positions `0 .. n - 1`. */
  function Rearrangement(n: nat, picks: seq<nat>): (p: seq<nat>)
    requires n > 0 && ValidPicks(picks, n)
    ensures |p| == n
  {
    ShuffleFrom<nat>(Range(n), n - 1, picks)
  }

  /** The rounds applied to `s` place at `k` the element of `s` at the
      position the same rounds place at `k` when applied to `0 .. n - 1`. */
  lemma ShuffleFromByPositions<T>(s: seq<T>, picks: seq<nat>)
    requires |s| > 0 && ValidPicks(picks, |s|)
    ensures forall k | 0 <= k < |s| :: Rearrangement(|s|, picks)[k] < |s|
    ensures forall k | 0 <= k < |s| ::
      ShuffleFrom(s, |s| - 1, picks)[k] == s[Rearrangement(|s|, picks)[k]]
  {
    ShuffleFromTracks(s, s, Range(|s|), |s| - 1, picks);
  }

  /** The rounds only ever look at positions: if `x` holds at each `k` the
      element of `s` at `p[k]`, then after the same rounds applied to both,
      `x` still holds at each `k` the element of `s` at the new `p[k]`. */
  lemma {:induction false} ShuffleFromTracks<T>(s: seq<T>, x: seq<T>, p: seq<nat>, i: nat, picks: seq<nat>)
    requires |x| == |p| && i < |p| && ValidPicks(picks, |p|)
    requires forall k | 0 <= k < |p| :: p[k] < |s| && x[k] == s[p[k]]
    ensures forall k | 0 <= k < |p| ::
      ShuffleFrom<nat>(p, i, picks)[k] < |s| && ShuffleFrom(x, i, picks)[k] == s[ShuffleFrom<nat>(p, i, picks)[k]]
    decreases i
  {
    if i > 0 {
      var j := picks[|p| - 1 - i];
      ShuffleFromTracks(s, Swap(x, i, j), Swap(p, i, j), i - 1, picks);
    }
  }

  /** Shuffling two lists of the same length moves their elements the same
      way: an element and its counterpart end up at the same position. */
  lemma ShuffleDependsOnlyOnLength<T, U>(s: seq<T>, t: seq<U>, draws: Draws, k: nat)
    requires |s| == |t| && k < |s|
    ensures exists m | 0 <= m < |s| :: Shuffled(s, draws)[k] == s[m] && Shuffled(t, draws)[k] == t[m]
  {
    ShuffledByPermutation(s, draws);
    ShuffledByPermutation(t, draws);
    var m := Permutation(|s|, draws)[k];
    assert Shuffled(s, draws)[k] == s[m] && Shuffled(t, draws)[k] == t[m];
  }

  /** The first round, for position `i`, swaps `i` with the index of its call. */
  lemma ShuffleFromStep<T>(s: seq<T>, i: nat, picks: seq<nat>, j: nat)
    requires 0 < i < |s| && ValidPicks(picks, |s|) && j == picks[|s| - 1 - i]
    ensures j <= i
    ensures ShuffleFrom(s, i, picks) == ShuffleFrom(Swap(s, i, j), i - 1, picks)
  {
  }

  /** `a[i], a[j] = a[j], a[i]`. */
  method SwapInPlace<T>(a: array<T>, i: nat, j: nat)
    requires i < a.Length && j < a.Length
    modifies a
    ensures a[..] == Swap(old(a[..]), i, j)
  {
    a[i], a[j] := a[j], a[i];
  }

  /** `random.shuffle(a)` in place, reading the values of `random()` from
      `draws` one call after the other. */
  method ShuffleInPlace<T>(a: array<T>, draws: Draws)
    modifies a
    ensures a[..] == Shuffled(old(a[..]), draws)
  {
    if a.Length == 0 {
      return;
    }
    ghost var picks := Picks(draws, a.Length);
    ghost var result := ShuffleFrom(a[..], a.Length - 1, picks);
    var calls: nat := 0;
    var i := a.Length - 1;
    while i > 0
      invariant 0 <= i < a.Length
      invariant calls == a.Length - 1 - i
      invariant ShuffleFrom(a[..], i, picks) == result
    {
      ghost var before := a[..];
      var j := Pick(draws(calls), i + 1);
      PickIsDrawn(draws, a.Length, calls, i + 1);
      ShuffleFromStep(before, i, picks, j);
      calls := calls + 1;
      SwapInPlace(a, i, j);
      assert ShuffleFrom(a[..], i - 1, picks) == result;
      i := i - 1;
    }
  }
}

/**
 * The seeded random source (utils.py `RandomGenerator`, and the module-level
 * numpy generator that experiment_bamba2020.py draws from).
 *
 * numpy's Mersenne Twister is not modelled. The generator's state is a natural
 * number; `Next` is a stand-in step function and `Draw(st, bound)` the raw draw
 * in `[0, bound)` a state yields. Every property proved about the callers uses
 * only the range of `Draw`, so it holds for any generator with that range; and
 * because each method's result is a function of the state it starts from, two
 * generators built from the same seed and driven by the same calls return the
 * same values.
 */
module Random {

  const MODULUS: nat := 0x8000_0000

  /** The state after one draw. */
  function Next(st: nat): nat {
    (st * 1103515245 + 12345) % MODULUS
  }

  /**
   * The raw draw in `[0, bound)` that the state `st` yields: `st` reduced
   * modulo `bound`, by repeated subtraction.
   */
  function Draw(st: nat, bound: nat): (r: nat)
    requires bound > 0
    ensures r < bound
    decreases st
  {
    if st < bound then st else Draw(st - bound, bound)
  }

  /** `s` with positions `i` and `j` exchanged. */
  function Swap<T>(s: seq<T>, i: nat, j: nat): seq<T>
    requires i < |s| && j < |s|
  {
    s[i := s[j]][j := s[i]]
  }

  /**
   * numpy's in-place shuffle, run on `s` from the state `st`: for `k` from
   * `i - 1` down to 1 it exchanges position `k` with a drawn position in
   * `[0, k]`. Returns the arrangement and the state after the draws.
   */
  function FisherYates<T>(st: nat, s: seq<T>, i: nat): (r: (seq<T>, nat))
    requires i <= |s|
    ensures |r.0| == |s|
    decreases i
  {
    if i <= 1 then (s, st)
    else FisherYates(Next(st), Swap(s, i - 1, Draw(st, i)), i - 1)
  }

  /** The whole shuffle of `s` from state `st`. */
  function Shuffled<T>(st: nat, s: seq<T>): (r: (seq<T>, nat))
    ensures |r.0| == |s|
  {
    FisherYates(st, s, |s|)
  }

  /** A shuffle is a permutation: the same elements, each as often. */
  lemma {:induction false} ShuffledPermutes<T>(st: nat, s: seq<T>)
    ensures multiset(Shuffled(st, s).0) == multiset(s)
    ensures forall x :: x in Shuffled(st, s).0 <==> x in s
  {
    FisherYatesPermutes(st, s, |s|);
    forall x ensures x in Shuffled(st, s).0 <==> x in s {
      assert x in Shuffled(st, s).0 <==> x in multiset(Shuffled(st, s).0);
    }
  }

  /** Each exchange keeps the multiset, so the whole shuffle does. */
  lemma {:induction false} FisherYatesPermutes<T>(st: nat, s: seq<T>, i: nat)
    requires i <= |s|
    ensures multiset(FisherYates(st, s, i).0) == multiset(s)
    decreases i
  {
    if i > 1 {
      SwapPermutes(s, i - 1, Draw(st, i));
      FisherYatesPermutes(Next(st), Swap(s, i - 1, Draw(st, i)), i - 1);
    }
  }

  lemma {:induction false} SwapPermutes<T>(s: seq<T>, i: nat, j: nat)
    requires i < |s| && j < |s|
    ensures |Swap(s, i, j)| == |s|
    ensures multiset(Swap(s, i, j)) == multiset(s)
  {
    var t := s[i := s[j]];
    assert multiset(t) == multiset(s) - multiset{s[i]} + multiset{s[j]};
    assert multiset(t[j := s[i]]) == multiset(t) - multiset{t[j]} + multiset{s[i]};
  }

  /** `k` independent uniform picks from `s`, in draw order, and the state after them. */
  function Picks<T>(st: nat, s: seq<T>, k: nat): (r: (seq<T>, nat))
    requires k > 0 ==> |s| > 0
    ensures |r.0| == k && forall x :: x in r.0 ==> x in s
  {
    if k == 0 then ([], st)
    else
      var (prev, st1) := Picks(st, s, k - 1);
      (prev + [s[Draw(st1, |s|)]], Next(st1))
  }

  /** `k` integers drawn uniformly from `[lo, hi)`, in draw order, and the state after them. */
  function Integers(st: nat, lo: int, hi: int, k: nat): (r: (seq<int>, nat))
    requires k > 0 ==> lo < hi
    ensures |r.0| == k && forall x :: x in r.0 ==> lo <= x < hi
  {
    if k == 0 then ([], st)
    else
      var (prev, st1) := Integers(st, lo, hi, k - 1);
      (prev + [lo + Draw(st1, hi - lo)], Next(st1))
  }

  /** A seeded generator whose state each draw advances. */
  class RandomGenerator {
    var state: nat

    /** numpy's `RandomState(seed)` accepts seeds in `[0, 2^32)`. */
    constructor (seed: nat)
      requires seed < 0x1_0000_0000
      ensures state == seed
    {
      state := seed;
    }

    /**
     * numpy's module-level generator, which nothing seeds: its state comes
     * from the operating system's entropy at import, so it is any state.
     */
    constructor Global(entropy: nat)
      ensures state == entropy
    {
      state := entropy;
    }

    /**
     * A shuffled copy of `arr`: the copy is shuffled in place, so `arr` itself,
     * a value here, is left as it was.
     */
    method Shuffle<T>(arr: seq<T>) returns (r: seq<T>)
      modifies this
      ensures (r, state) == Shuffled(old(state), arr)
      ensures |r| == |arr| && multiset(r) == multiset(arr)
    {
      var copy := new T[|arr|](k requires 0 <= k < |arr| => arr[k]);
      assert copy[..] == arr;
      var i := copy.Length;
      while i > 1
        invariant 0 <= i <= copy.Length
        invariant FisherYates(state, copy[..], i) == Shuffled(old(state), arr)
      {
        var j := Draw(state, i);
        assert Swap(copy[..], i - 1, j) == copy[..][i - 1 := copy[j]][j := copy[i - 1]];
        copy[i - 1], copy[j] := copy[j], copy[i - 1];
        state := Next(state);
        i := i - 1;
      }
      r := copy[..];
      ShuffledPermutes(old(state), arr);
    }

    /** One uniform pick from a non-empty list (numpy raises on an empty one). */
    method Choice<T>(arr: seq<T>) returns (r: T)
      requires |arr| > 0
      modifies this
      ensures r in arr
      ensures r == arr[Draw(old(state), |arr|)] && state == Next(old(state))
    {
      r := arr[Draw(state, |arr|)];
      state := Next(state);
    }

    /**
     * `size` picks from `arr` in one call. numpy weighs each pick by `p`; the
     * weights are not modelled, so each pick is only known to be a member.
     * numpy accepts an empty `arr` only when no pick is asked for.
     */
    method ChoiceMany<T>(arr: seq<T>, size: nat) returns (r: seq<T>)
      requires size > 0 ==> |arr| > 0
      modifies this
      ensures (r, state) == Picks(old(state), arr, size)
      ensures |r| == size && forall x :: x in r ==> x in arr
    {
      r := [];
      var k := 0;
      while k < size
        invariant 0 <= k <= size
        invariant (r, state) == Picks(old(state), arr, k)
      {
        r := r + [arr[Draw(state, |arr|)]];
        state := Next(state);
        k := k + 1;
      }
    }

    /** numpy's `randint(low, high)`: an integer in `[low, high)`; numpy raises unless `low < high`. */
    method RandInt(low: int, high: int) returns (r: int)
      requires low < high
      modifies this
      ensures low <= r < high
      ensures r == low + Draw(old(state), high - low) && state == Next(old(state))
    {
      r := low + Draw(state, high - low);
      state := Next(state);
    }
  }
}

/**
 * The trial lists of the three-block agency experiment
 * (experiment_bamba2020.py): the shuffled Block 1 list, the Block 2
 * adaptation delays, the Block 3 list ordered so that neighbouring delays
 * differ by at most 250 ms with catch trials inserted at drawn positions, and
 * the rule that catch trials are never rated.
 *
 * numpy's module-level generator is the experiment's `RandomGenerator`. The
 * Block 2 normal draws (`np.random.normal`) are a parameter.
 */
module Bamba {
  import opened Options
  import opened Random

  /** A delay of the experiment: the catch delay 'negative', or a number of milliseconds. */
  datatype Delay = Negative | Ms(ms: real)

  const TARGET_DELAYS: seq<real> := [0.0, 50.0, 100.0, 150.0, 200.0, 250.0, 300.0, 400.0, 500.0]
  const CATCH_DELAYS: seq<Delay> := [Negative, Ms(1000.0)]

  const N_TRIALS_BLOCK1_TARGET: nat := 3
  const N_TRIALS_BLOCK1_CATCH: nat := 1
  const N_TRIALS_BLOCK2_LOW: nat := 20
  const N_TRIALS_BLOCK2_HIGH: nat := 20
  const N_TRIALS_BLOCK3_TARGET: nat := 1
  const N_TRIALS_BLOCK3_CATCH: nat := 1
  const MAX_DIFF: real := 250.0

  /** Python's `s * k` on a list: `k` copies of `s`, one after another. */
  function ListRepeat<T>(s: seq<T>, k: nat): (r: seq<T>)
    ensures |r| == |s| * k
  {
    if k == 0 then [] else s + ListRepeat(s, k - 1)
  }

  /** Numbers as delays. */
  function AsDelays(s: seq<real>): (r: seq<Delay>)
    ensures |r| == |s|
    ensures forall i :: 0 <= i < |s| ==> r[i] == Ms(s[i])
  {
    seq(|s|, i requires 0 <= i < |s| => Ms(s[i]))
  }

  /** `delay in CATCH_DELAYS`. */
  predicate IsCatch(d: Delay) {
    d in CATCH_DELAYS
  }

  /** `show_rating = not is_catch`. */
  predicate ShowRating(d: Delay) {
    !IsCatch(d)
  }

  /** The rating is skipped exactly for the 'negative' delay and for 1000 ms; every target delay is rated. */
  lemma {:induction false} RatingRule(d: Delay)
    ensures ShowRating(d) <==> d != Negative && d != Ms(1000.0)
    ensures forall x :: x in TARGET_DELAYS ==> ShowRating(Ms(x))
  {
  }

  function Abs(x: real): real {
    if x < 0.0 then -x else x
  }

  /** Every two neighbouring delays of `s` differ by at most `maxDiff`. */
  predicate AdjacentWithin(s: seq<real>, maxDiff: real) {
    forall i :: 0 <= i < |s| - 1 ==> Abs(s[i] - s[i + 1]) <= maxDiff
  }

  /** The first `n` neighbouring pairs of `s` differ by at most `maxDiff`. */
  predicate PairsWithin(s: seq<real>, maxDiff: real, n: int) {
    forall i :: 0 <= i < n && i + 1 < |s| ==> Abs(s[i] - s[i + 1]) <= maxDiff
  }

  /**
   * Shuffle-and-check with at most `fuel` shuffles: the first shuffle of
   * `delays` whose neighbours all lie within `maxDiff`, or `None` once the
   * fuel runs out; and the generator state after the shuffles made.
   */
  function Retry(st: nat, delays: seq<real>, maxDiff: real, fuel: nat): (Option<seq<real>>, nat)
    decreases fuel
  {
    if fuel == 0 then (None, st)
    else
      var (shuffled, st1) := Shuffled(st, delays);
      if AdjacentWithin(shuffled, maxDiff) then (Some(shuffled), st1)
      else Retry(st1, delays, maxDiff, fuel - 1)
  }

  /** `_sort_delays_with_constraint` with a cap of `fuel` shuffles: lists of length at most 1 come back unchanged. */
  function ConstrainedOrder(st: nat, delays: seq<real>, maxDiff: real, fuel: nat): (Option<seq<real>>, nat) {
    if |delays| <= 1 then (Some(delays), st) else Retry(st, delays, maxDiff, fuel)
  }

  /**
   * A returned order is a permutation of the input whose neighbours all lie
   * within `maxDiff`; lists of length at most 1 come back as they are; only a
   * list of two or more can exhaust the fuel.
   */
  lemma {:induction false} ConstrainedOrderSound(st: nat, delays: seq<real>, maxDiff: real, fuel: nat)
    ensures var r := ConstrainedOrder(st, delays, maxDiff, fuel).0;
      (r.Some? ==> multiset(r.value) == multiset(delays) && AdjacentWithin(r.value, maxDiff)) &&
      (|delays| <= 1 ==> r == Some(delays)) &&
      (r.None? ==> |delays| >= 2)
  {
    if |delays| > 1 {
      RetrySound(st, delays, maxDiff, fuel);
    }
  }

  lemma {:induction false} RetrySound(st: nat, delays: seq<real>, maxDiff: real, fuel: nat)
    ensures var r := Retry(st, delays, maxDiff, fuel).0;
      r.Some? ==> multiset(r.value) == multiset(delays) && AdjacentWithin(r.value, maxDiff)
    decreases fuel
  {
    if fuel > 0 {
      ShuffledPermutes(st, delays);
      RetrySound(Shuffled(st, delays).1, delays, maxDiff, fuel - 1);
    }
  }

  /**
   * Without a cap the search need not end: two delays further apart than
   * `maxDiff` have no admissible order, so every number of shuffles fails.
   */
  lemma {:induction false} NoAdmissibleOrder(st: nat, a: real, b: real, maxDiff: real, fuel: nat)
    requires Abs(a - b) > maxDiff
    ensures ConstrainedOrder(st, [a, b], maxDiff, fuel).0.None?
    decreases fuel
  {
    if fuel > 0 {
      var (shuffled, st1) := Shuffled(st, [a, b]);
      ShuffledPermutes(st, [a, b]);
      assert shuffled[0] in multiset(shuffled) && shuffled[1] in multiset(shuffled);
      assert multiset(shuffled)[shuffled[0]] + (if shuffled[1] != shuffled[0] then multiset(shuffled)[shuffled[1]] else 0) <= 2;
      assert !AdjacentWithin(shuffled, maxDiff) by {
        if shuffled[0] == shuffled[1] {
          assert multiset(shuffled)[shuffled[0]] == 2;
          assert a == b;
        }
        assert {shuffled[0], shuffled[1]} == {a, b} by {
          assert shuffled[0] in multiset{a, b} && shuffled[1] in multiset{a, b};
        }
      }
      NoAdmissibleOrder(st1, a, b, maxDiff, fuel - 1);
    }
  }

  /** The target delays in their listed order already meet the 250 ms constraint, so Block 3 has an admissible order. */
  lemma TargetsOrderable()
    ensures AdjacentWithin(TARGET_DELAYS, MAX_DIFF)
  {
    var t := TARGET_DELAYS;
    assert t[0] == 0.0 && t[1] == 50.0 && t[2] == 100.0 && t[3] == 150.0 && t[4] == 200.0;
    assert t[5] == 250.0 && t[6] == 300.0 && t[7] == 400.0 && t[8] == 500.0;
  }

  /** `target_trials + catch_trials` of Block 1, before the shuffle. */
  function Block1List(): seq<Delay> {
    ListRepeat(AsDelays(TARGET_DELAYS), N_TRIALS_BLOCK1_TARGET) + ListRepeat(CATCH_DELAYS, N_TRIALS_BLOCK1_CATCH)
  }

  /** Block 1's shuffled list and the generator state after it. */
  function Block1Delays(st: nat): (seq<Delay>, nat) {
    Shuffled(st, Block1List())
  }

  /** `k` copies of `s` hold each element `k` times as often as `s`. */
  lemma {:induction false} ListRepeatCount<T>(s: seq<T>, k: nat, x: T)
    ensures multiset(ListRepeat(s, k))[x] == k * multiset(s)[x]
  {
    if k > 0 {
      ListRepeatCount(s, k - 1, x);
      assert multiset(ListRepeat(s, k)) == multiset(s) + multiset(ListRepeat(s, k - 1));
      assert k * multiset(s)[x] == multiset(s)[x] + (k - 1) * multiset(s)[x];
    }
  }

  /** The numbers of `s` strictly increase. */
  predicate Increasing(s: seq<real>) {
    forall i, j :: 0 <= i < j < |s| ==> s[i] < s[j]
  }

  /** Each element of a strictly increasing list occurs in it once. */
  lemma {:induction false} IncreasingCount(s: seq<real>, x: real)
    requires Increasing(s)
    ensures multiset(s)[x] == if x in s then 1 else 0
  {
    if s != [] {
      assert s == [s[0]] + s[1..];
      if x == s[0] {
        assert x !in s[1..];
      } else {
        IncreasingCount(s[1..], x);
      }
    }
  }

  /**
   * `k` copies of distinct numbers followed by `m` copies of other delays hold
   * each of the numbers exactly `k` times.
   */
  lemma {:induction false} TargetCount(ts: seq<real>, k: nat, cs: seq<Delay>, m: nat, x: real)
    requires Increasing(ts) && x in ts && Ms(x) !in cs
    ensures multiset(ListRepeat(AsDelays(ts), k) + ListRepeat(cs, m))[Ms(x)] == k
  {
    var a, b := ListRepeat(AsDelays(ts), k), ListRepeat(cs, m);
    assert multiset(AsDelays(ts))[Ms(x)] == 1 by {
      IncreasingCount(ts, x);
      AsDelaysCount(ts, Ms(x));
    }
    assert multiset(a)[Ms(x)] == k by {
      ListRepeatCount(AsDelays(ts), k, Ms(x));
    }
    assert multiset(b)[Ms(x)] == 0 by {
      ListRepeatCount(cs, m, Ms(x));
    }
    assert multiset(a + b) == multiset(a) + multiset(b);
  }

  /** ... and each delay that is none of the numbers `m` times as often as it is listed. */
  lemma {:induction false} OtherCount(ts: seq<real>, k: nat, cs: seq<Delay>, m: nat, c: Delay)
    requires c.Negative? || c.ms !in ts
    ensures multiset(ListRepeat(AsDelays(ts), k) + ListRepeat(cs, m))[c] == m * multiset(cs)[c]
  {
    ListRepeatCount(AsDelays(ts), k, c);
    ListRepeatCount(cs, m, c);
    AsDelaysCount(ts, c);
    assert c.Ms? ==> multiset(ts)[c.ms] == 0;
  }

  /**
   * Block 1 holds every target delay three times and each catch delay once,
   * 29 trials in all, in shuffled order.
   */
  lemma Block1Composition(st: nat)
    ensures multiset(Block1Delays(st).0) == multiset(Block1List())
    ensures |Block1Delays(st).0| == 29
    ensures forall x :: x in TARGET_DELAYS ==> multiset(Block1Delays(st).0)[Ms(x)] == 3
    ensures multiset(Block1Delays(st).0)[Negative] == 1 && multiset(Block1Delays(st).0)[Ms(1000.0)] == 1
  {
    var ts, cs := TARGET_DELAYS, CATCH_DELAYS;
    ShuffledPermutes(st, Block1List());
    assert Increasing(ts);
    forall x | x in ts ensures multiset(Block1List())[Ms(x)] == 3 {
      TargetCount(ts, 3, cs, 1, x);
    }
    assert 1000.0 !in ts;
    OtherCount(ts, 3, cs, 1, Negative);
    OtherCount(ts, 3, cs, 1, Ms(1000.0));
    assert multiset(cs)[Negative] == 1 && multiset(cs)[Ms(1000.0)] == 1;
  }

  /** Block 2's delays: twenty zeros in the Low condition, otherwise the normal draws clipped to `[0, 500]`. */
  function Block2Delays(condition: string, draws: seq<real>): (r: seq<Delay>)
    requires condition != "Low" ==> |draws| == N_TRIALS_BLOCK2_HIGH
  {
    if condition == "Low" then ListRepeat([Ms(0.0)], N_TRIALS_BLOCK2_LOW)
    else AsDelays(seq(|draws|, i requires 0 <= i < |draws| => Clip(draws[i], 0.0, 500.0)))
  }

  /** numpy's `clip` of one value. */
  function Clip(x: real, lo: real, hi: real): real {
    if x < lo then lo else if x > hi then hi else x
  }

  /** Low gives twenty 0 ms delays; High gives twenty delays, each in `[0, 500]` and equal to its draw when the draw is. */
  lemma {:induction false} Block2Range(condition: string, draws: seq<real>)
    requires condition != "Low" ==> |draws| == N_TRIALS_BLOCK2_HIGH
    ensures |Block2Delays(condition, draws)| == 20
    ensures condition == "Low" ==> forall d :: d in Block2Delays(condition, draws) ==> d == Ms(0.0)
    ensures condition != "Low" ==> forall i :: 0 <= i < 20 ==>
      var d := Block2Delays(condition, draws)[i];
      d.Ms? && 0.0 <= d.ms <= 500.0 && (0.0 <= draws[i] <= 500.0 ==> d.ms == draws[i])
  {
    if condition == "Low" {
      LowIsZeros(N_TRIALS_BLOCK2_LOW);
    }
  }

  lemma {:induction false} LowIsZeros(k: nat)
    ensures forall d :: d in ListRepeat([Ms(0.0)], k) ==> d == Ms(0.0)
  {
    if k > 0 {
      LowIsZeros(k - 1);
    }
  }

  /** `s` with `x` inserted before position `pos` (Python's `list.insert`). */
  function InsertAt<T>(s: seq<T>, pos: nat, x: T): (r: seq<T>)
    requires pos <= |s|
    ensures |r| == |s| + 1
  {
    s[..pos] + [x] + s[pos..]
  }

  /** Each catch delay in turn inserted at a position drawn from `[0, len]`, and the state after the draws. */
  function InsertCatches(st: nat, base: seq<Delay>, catches: seq<Delay>): (r: (seq<Delay>, nat))
    ensures |r.0| == |base| + |catches|
    decreases |catches|
  {
    if catches == [] then (base, st)
    else InsertCatches(Next(st), InsertAt(base, 0 + Draw(st, |base| + 1), catches[0]), catches[1..])
  }

  /** The rated trials of `s`, in order: `s` without its catch delays. */
  function RatedOnly(s: seq<Delay>): seq<Delay> {
    if s == [] then [] else (if IsCatch(s[0]) then [] else [s[0]]) + RatedOnly(s[1..])
  }

  lemma {:induction false} RatedOnlyAppend(a: seq<Delay>, b: seq<Delay>)
    ensures RatedOnly(a + b) == RatedOnly(a) + RatedOnly(b)
    decreases |a|
  {
    if a == [] {
      assert a + b == b;
    } else {
      assert (a + b)[0] == a[0] && (a + b)[1..] == a[1..] + b;
      RatedOnlyAppend(a[1..], b);
    }
  }

  /** Inserting one catch delay leaves the rated trials as they were and adds the catch. */
  lemma {:induction false} InsertCatchKeepsOrder(base: seq<Delay>, pos: nat, c: Delay)
    requires pos <= |base| && IsCatch(c)
    ensures RatedOnly(InsertAt(base, pos, c)) == RatedOnly(base)
    ensures multiset(InsertAt(base, pos, c)) == multiset(base) + multiset{c}
  {
    var a, b := base[..pos], base[pos..];
    assert a + b == base;
    assert InsertAt(base, pos, c) == a + ([c] + b);
    assert RatedOnly([c]) == [] by {
      assert [c][1..] == [];
    }
    assert RatedOnly(a + ([c] + b)) == RatedOnly(a + b) by {
      RatedOnlyAppend(a, [c] + b);
      RatedOnlyAppend([c], b);
      RatedOnlyAppend(a, b);
    }
    assert multiset(a + ([c] + b)) == multiset(a + b) + multiset{c};
  }

  /** Inserting catch delays leaves the rated trials where they were relative to each other, and adds exactly the catches. */
  lemma {:induction false} InsertCatchesKeepsOrder(st: nat, base: seq<Delay>, catches: seq<Delay>)
    requires forall c :: c in catches ==> IsCatch(c)
    ensures RatedOnly(InsertCatches(st, base, catches).0) == RatedOnly(base)
    ensures multiset(InsertCatches(st, base, catches).0) == multiset(base) + multiset(catches)
    decreases |catches|
  {
    if catches != [] {
      var pos := 0 + Draw(st, |base| + 1);
      InsertCatchKeepsOrder(base, pos, catches[0]);
      InsertCatchesKeepsOrder(Next(st), InsertAt(base, pos, catches[0]), catches[1..]);
      assert catches == [catches[0]] + catches[1..];
    }
  }

  /** Numbers are never the 'negative' catch, and only 1000 ms is the other one. */
  lemma {:induction false} RatedOnlyNumbers(s: seq<real>)
    requires 1000.0 !in s
    ensures RatedOnly(AsDelays(s)) == AsDelays(s)
    decreases |s|
  {
    if s != [] {
      assert AsDelays(s)[1..] == AsDelays(s[1..]);
      RatedOnlyNumbers(s[1..]);
    }
  }

  /** Block 3's targets, `TARGET_DELAYS * N_TRIALS_BLOCK3_TARGET`, and its catches. */
  function Block3Targets(): seq<real> {
    ListRepeat(TARGET_DELAYS, N_TRIALS_BLOCK3_TARGET)
  }

  function Block3Catches(): seq<Delay> {
    ListRepeat(CATCH_DELAYS, N_TRIALS_BLOCK3_CATCH)
  }

  /** The constrained ordering of `targets` with `catches` inserted after it, and the state after the draws. */
  function OrderedWithCatches(st: nat, targets: seq<real>, catches: seq<Delay>, fuel: nat): Option<(seq<Delay>, nat)> {
    var (sorted, st1) := ConstrainedOrder(st, targets, MAX_DIFF, fuel);
    if sorted.None? then None
    else Some(InsertCatches(st1, AsDelays(sorted.value), catches))
  }

  /** Block 3's list and the generator state after it; `None` when the ordering runs out of fuel. */
  function Block3Delays(st: nat, fuel: nat): Option<(seq<Delay>, nat)> {
    OrderedWithCatches(st, Block3Targets(), Block3Catches(), fuel)
  }

  /** The order of the targets Block 3 uses. */
  function Block3Order(st: nat, fuel: nat): Option<seq<real>> {
    ConstrainedOrder(st, Block3Targets(), MAX_DIFF, fuel).0
  }

  /**
   * When the ordering succeeds, the list holds the targets in that order as the
   * subsequence of its rated trials, and the catches inserted among them.
   */
  lemma {:induction false} OrderedWithCatchesShape(st: nat, targets: seq<real>, catches: seq<Delay>, fuel: nat)
    requires 1000.0 !in targets && forall c :: c in catches ==> IsCatch(c)
    ensures var r := OrderedWithCatches(st, targets, catches, fuel);
      var order := ConstrainedOrder(st, targets, MAX_DIFF, fuel).0;
      r.Some? <==> order.Some?
    ensures var r := OrderedWithCatches(st, targets, catches, fuel);
      var order := ConstrainedOrder(st, targets, MAX_DIFF, fuel).0;
      r.Some? ==>
        multiset(r.value.0) == multiset(AsDelays(targets)) + multiset(catches) &&
        multiset(order.value) == multiset(targets) && AdjacentWithin(order.value, MAX_DIFF) &&
        RatedOnly(r.value.0) == AsDelays(order.value)
  {
    var (sorted, st1) := ConstrainedOrder(st, targets, MAX_DIFF, fuel);
    ConstrainedOrderSound(st, targets, MAX_DIFF, fuel);
    if sorted.Some? {
      var order := sorted.value;
      InsertCatchesKeepsOrder(st1, AsDelays(order), catches);
      assert 1000.0 !in order by {
        assert 1000.0 !in multiset(targets);
      }
      RatedOnlyNumbers(order);
      AsDelaysPermutes(order, targets);
    }
  }

  /**
   * When the ordering succeeds, Block 3 has 11 trials: the nine targets in an
   * order whose neighbours differ by at most 250 ms, kept as the rated
   * trials in that order, and the two catch delays inserted among them.
   */
  lemma Block3Shape(st: nat, fuel: nat)
    ensures Block3Delays(st, fuel).Some? <==> Block3Order(st, fuel).Some?
    ensures var r := Block3Delays(st, fuel);
      var order := Block3Order(st, fuel);
      r.Some? ==>
        |r.value.0| == 11 &&
        multiset(r.value.0) == multiset(AsDelays(TARGET_DELAYS)) + multiset(CATCH_DELAYS) &&
        multiset(order.value) == multiset(TARGET_DELAYS) && AdjacentWithin(order.value, MAX_DIFF) &&
        RatedOnly(r.value.0) == AsDelays(order.value)
  {
    assert Block3Targets() == TARGET_DELAYS;
    assert Block3Catches() == CATCH_DELAYS;
    assert 1000.0 !in TARGET_DELAYS;
    OrderedWithCatchesShape(st, TARGET_DELAYS, CATCH_DELAYS, fuel);
  }

  /** Mapping numbers to delays keeps permutations. */
  lemma {:induction false} AsDelaysPermutes(a: seq<real>, b: seq<real>)
    requires multiset(a) == multiset(b)
    ensures multiset(AsDelays(a)) == multiset(AsDelays(b))
  {
    forall d ensures multiset(AsDelays(a))[d] == multiset(AsDelays(b))[d] {
      AsDelaysCount(a, d);
      AsDelaysCount(b, d);
    }
  }

  lemma {:induction false} AsDelaysCount(s: seq<real>, d: Delay)
    ensures multiset(AsDelays(s))[d] == if d.Ms? then multiset(s)[d.ms] else 0
    decreases |s|
  {
    if s != [] {
      assert s == [s[0]] + s[1..];
      assert AsDelays(s) == [Ms(s[0])] + AsDelays(s[1..]);
      AsDelaysCount(s[1..], d);
    }
  }

  /** One record of the experiment, without the GUI's click time, tone time and rating value. */
  datatype SessionTrial = SessionTrial(blockType: string, trialNum: nat, delay: Delay, rated: bool)

  /** The records a block appends: numbered from 1, rated when the block rates and the delay is not a catch. */
  function BlockRecords(blockType: string, delays: seq<Delay>, rates: bool): (r: seq<SessionTrial>)
    ensures |r| == |delays|
  {
    seq(|delays|, i requires 0 <= i < |delays| => SessionTrial(blockType, i + 1, delays[i], rates && ShowRating(delays[i])))
  }

  /** The experiment object: its condition, numpy's module-level generator and the records so far. */
  class SoAExperiment {
    const condition: string
    const rng: RandomGenerator
    var trialData: seq<SessionTrial>

    /**
     * `SoAExperiment(subject_id, condition)`: no seed is taken, and every
     * draw uses numpy's unseeded module-level generator, whose state at
     * construction is `entropy`; two sessions need not draw alike.
     */
    constructor (condition: string, entropy: nat)
      ensures this.condition == condition && trialData == [] && rng.state == entropy && fresh(rng)
    {
      this.condition := condition;
      rng := new RandomGenerator.Global(entropy);
      trialData := [];
    }

    /** The per-trial loop the three blocks share: one record per delay, appended in order. */
    method AppendBlock(blockType: string, delays: seq<Delay>, rates: bool)
      modifies this
      ensures trialData == old(trialData) + BlockRecords(blockType, delays, rates)
    {
      ghost var before := trialData;
      for i := 0 to |delays|
        invariant |trialData| == |before| + i
        invariant trialData[..|before|] == before
        invariant forall k :: 0 <= k < i ==>
          trialData[|before| + k] == SessionTrial(blockType, k + 1, delays[k], rates && ShowRating(delays[k]))
      {
        var isCatch := delays[i] in CATCH_DELAYS;
        trialData := trialData + [SessionTrial(blockType, i + 1, delays[i], rates && !isCatch)];
      }
      assert trialData == before + BlockRecords(blockType, delays, rates);
    }

    method RunBlock1()
      modifies this, rng
      ensures var (delays, st) := Block1Delays(old(rng.state));
        trialData == old(trialData) + BlockRecords("Block1", delays, true) && rng.state == st
    {
      var targetTrials := ListRepeat(AsDelays(TARGET_DELAYS), N_TRIALS_BLOCK1_TARGET);
      var catchTrials := ListRepeat(CATCH_DELAYS, N_TRIALS_BLOCK1_CATCH);
      var allDelays := rng.Shuffle(targetTrials + catchTrials);
      AppendBlock("Block1", allDelays, true);
    }

    method RunBlock2(draws: seq<real>)
      requires condition != "Low" ==> |draws| == N_TRIALS_BLOCK2_HIGH
      modifies this
      ensures trialData == old(trialData) + BlockRecords("Block2", Block2Delays(condition, draws), false)
    {
      var delays: seq<Delay>;
      if condition == "Low" {
        delays := ListRepeat([Ms(0.0)], N_TRIALS_BLOCK2_LOW);
      } else {
        delays := AsDelays(seq(|draws|, i requires 0 <= i < |draws| => Clip(draws[i], 0.0, 500.0)));
      }
      AppendBlock("Block2", delays, false);
    }

    /** `_sort_delays_with_constraint`, giving up after `fuel` shuffles. */
    method SortDelaysWithConstraint(delays: seq<real>, maxDiff: real, fuel: nat) returns (r: Option<seq<real>>)
      modifies rng
      ensures (r, rng.state) == ConstrainedOrder(old(rng.state), delays, maxDiff, fuel)
    {
      if |delays| <= 1 {
        return Some(delays);
      }
      var attempts := 0;
      while attempts < fuel
        invariant attempts <= fuel
        invariant Retry(rng.state, delays, maxDiff, fuel - attempts) == Retry(old(rng.state), delays, maxDiff, fuel)
      {
        ghost var st := rng.state;
        var shuffled := rng.Shuffle(delays);
        var valid := true;
        var i := 0;
        while i < |shuffled| - 1 && valid
          invariant 0 <= i <= |shuffled| - 1
          invariant valid <==> PairsWithin(shuffled, maxDiff, i)
        {
          if Abs(shuffled[i] - shuffled[i + 1]) > maxDiff {
            valid := false;
          }
          i := i + 1;
        }
        assert valid <==> AdjacentWithin(shuffled, maxDiff);
        if valid {
          return Some(shuffled);
        }
        attempts := attempts + 1;
      }
      return None;
    }

    /** Block 3's insertion loop: each catch delay at a position drawn by `randint(0, len + 1)`. */
    method InsertCatchTrials(base: seq<Delay>, catchTrials: seq<Delay>) returns (allDelays: seq<Delay>)
      modifies rng
      ensures (allDelays, rng.state) == InsertCatches(old(rng.state), base, catchTrials)
    {
      allDelays := base;
      for c := 0 to |catchTrials|
        invariant InsertCatches(rng.state, allDelays, catchTrials[c..]) ==
          InsertCatches(old(rng.state), base, catchTrials)
      {
        assert catchTrials[c..][0] == catchTrials[c] && catchTrials[c..][1..] == catchTrials[c + 1..];
        var insertPos := rng.RandInt(0, |allDelays| + 1);
        allDelays := allDelays[..insertPos] + [catchTrials[c]] + allDelays[insertPos..];
      }
      assert catchTrials[|catchTrials|..] == [];
    }

    /** Block 3; `false`, with no records added, when the ordering exhausts its fuel. */
    method RunBlock3(fuel: nat) returns (done: bool)
      modifies this, rng
      ensures var r := Block3Delays(old(rng.state), fuel);
        done == r.Some? &&
        trialData == old(trialData) + (if done then BlockRecords("Block3", r.value.0, true) else []) &&
        (done ==> rng.state == r.value.1) &&
        (!done ==> rng.state == ConstrainedOrder(old(rng.state), Block3Targets(), MAX_DIFF, fuel).1)
    {
      var targetTrials := Block3Targets();
      var catchTrials := Block3Catches();
      var sorted := SortDelaysWithConstraint(targetTrials, MAX_DIFF, fuel);
      if sorted.None? {
        return false;
      }
      var allDelays := InsertCatchTrials(AsDelays(sorted.value), catchTrials);
      AppendBlock("Block3", allDelays, true);
      return true;
    }

    /**
     * `run`: Block 1, then three cycles of Block 2 and Block 3; with every
     * ordering found that is 29 + 3 * (20 + 11) = 122 records.
     */
    method Run(draws: seq<seq<real>>, fuel: nat) returns (done: bool)
      requires |draws| == 3 && forall k :: 0 <= k < 3 ==> |draws[k]| == N_TRIALS_BLOCK2_HIGH
      modifies this, rng
      ensures done ==> |trialData| == |old(trialData)| + 122
    {
      RunBlock1();
      assert |Block1List()| == 29;
      for cycle := 0 to 3
        invariant |trialData| == |old(trialData)| + 29 + 31 * cycle
      {
        RunBlock2(draws[cycle]);
        Block2Range(condition, draws[cycle]);
        ghost var st := rng.state;
        done := RunBlock3(fuel);
        if !done {
          return false;
        }
        Block3Shape(st, fuel);
      }
      return true;
    }
  }
}

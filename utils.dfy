/**
 * The trial-plan builder (utils.py): trial types by ratio, delays by one of
 * four modes, one block's trial records, the whole plan with global indices,
 * and the epsilon regressor.
 *
 * Each builder that draws from the generator is a method proved equal to a
 * spec function of the generator's starting state (`BlockTrials`, `PlanFrom`);
 * the properties the plan promises are lemmas about those functions.
 */
module Utils {
  import opened Options
  import opened Config
  import opened Random

  datatype TrialType = Active | PreTone

  /**
   * One planned trial. `globalIndex` is `None` until the plan builder adds the
   * `trial_index_global` key to the block builder's record.
   */
  datatype Trial = Trial(
    blockId: string,
    blockName: string,
    indexInBlock: nat,
    trialType: TrialType,
    delayMs: Option<int>,
    sigma: Option<int>,
    globalIndex: Option<nat>)

  /** `n` copies of `x`. */
  function Repeat<T>(x: T, n: nat): (r: seq<T>)
    ensures |r| == n
  {
    seq(n, _ => x)
  }

  /** Python's `[x] * m`, which is empty for `m <= 0`. */
  function ListTimes<T>(x: T, m: int): seq<T> {
    if m <= 0 then [] else Repeat(x, m)
  }

  function Max0(m: int): nat {
    if m <= 0 then 0 else m
  }

  lemma {:induction false} RepeatCount<T>(x: T, n: nat, y: T)
    ensures multiset(Repeat(x, n))[y] == if y == x then n else 0
  {
    if n > 0 {
      RepeatCount(x, n - 1, y);
      assert Repeat(x, n) == Repeat(x, n - 1) + [x];
    }
  }

  /** Python's `int(x)` on a float: truncation toward zero. */
  function TruncToInt(x: real): (r: int)
    ensures x >= 0.0 ==> r as real <= x < r as real + 1.0
    ensures x < 0.0 ==> r as real - 1.0 < x <= r as real
  {
    if x >= 0.0 then x.Floor else -((-x).Floor)
  }

  /**
   * `n * x` in exact reals, written as `n` additions of `x` so that the plan
   * builder's definitions stay within linear arithmetic; `TimesIsProduct`
   * shows it is the product.
   */
  function Times(n: nat, x: real): real {
    if n == 0 then 0.0 else Times(n - 1, x) + x
  }

  lemma {:induction false} TimesIsProduct(n: nat, x: real)
    ensures Times(n, x) == n as real * x
  {
    if n > 0 {
      TimesIsProduct(n - 1, x);
      assert n as real * x == (n - 1) as real * x + x;
    }
  }

  /** `int(n_trials * pretone_ratio)`: how many Pre-tone trials a block gets. */
  function PretoneCount(nTrials: nat, ratio: real): int {
    TruncToInt(Times(nTrials, ratio))
  }

  /** `['Active'] * n_active + ['Pre-tone'] * n_pretone`, before the shuffle. */
  function InitialTypes(nTrials: nat, ratio: real): seq<TrialType> {
    var nPretone := PretoneCount(nTrials, ratio);
    ListTimes(Active, nTrials - nPretone) + ListTimes(PreTone, nPretone)
  }

  /** The shuffled trial types of a block, and the generator state after the shuffle. */
  function AssignedTypes(st: nat, nTrials: nat, ratio: real): (r: (seq<TrialType>, nat))
    ensures |r.0| >= nTrials
  {
    Shuffled(st, InitialTypes(nTrials, ratio))
  }

  /**
   * Exactly `int(n * ratio)` Pre-tone entries (none when that is negative) and
   * the rest Active. For a ratio in `[0, 1]` the list has exactly `n` entries and
   * `int(n * ratio)` is `floor(n * ratio)`; ratio 0 gives all Active and a ratio
   * whose count reaches `n` gives all Pre-tone.
   */
  lemma {:induction false} AssignedTypeCounts(st: nat, nTrials: nat, ratio: real)
    ensures multiset(AssignedTypes(st, nTrials, ratio).0)[PreTone] == Max0(PretoneCount(nTrials, ratio))
    ensures multiset(AssignedTypes(st, nTrials, ratio).0)[Active] == Max0(nTrials - PretoneCount(nTrials, ratio))
    ensures 0.0 <= ratio <= 1.0 ==>
      |AssignedTypes(st, nTrials, ratio).0| == nTrials &&
      PretoneCount(nTrials, ratio) == (nTrials as real * ratio).Floor &&
      0 <= PretoneCount(nTrials, ratio) <= nTrials
    ensures PretoneCount(nTrials, ratio) <= 0 ==>
      forall t :: t in AssignedTypes(st, nTrials, ratio).0 ==> t == Active
    ensures PretoneCount(nTrials, ratio) >= nTrials ==>
      forall t :: t in AssignedTypes(st, nTrials, ratio).0 ==> t == PreTone
  {
    var k := PretoneCount(nTrials, ratio);
    assert AssignedTypes(st, nTrials, ratio).0 == Shuffled(st, ListTimes(Active, nTrials - k) + ListTimes(PreTone, k)).0;
    ShuffledTypeCounts(st, nTrials, k);
    if 0.0 <= ratio <= 1.0 {
      PretoneCountInRange(nTrials, ratio);
    }
  }

  /** The counts of a shuffled list of `n - k` Active and `k` Pre-tone entries. */
  lemma {:induction false} ShuffledTypeCounts(st: nat, nTrials: nat, k: int)
    ensures var types := Shuffled(st, ListTimes(Active, nTrials - k) + ListTimes(PreTone, k)).0;
      multiset(types)[PreTone] == Max0(k) && multiset(types)[Active] == Max0(nTrials - k) &&
      |types| == Max0(nTrials - k) + Max0(k) &&
      (k <= 0 ==> forall t :: t in types ==> t == Active) &&
      (k >= nTrials ==> forall t :: t in types ==> t == PreTone)
  {
    var types := Shuffled(st, ListTimes(Active, nTrials - k) + ListTimes(PreTone, k)).0;
    ShuffledPermutes(st, ListTimes(Active, nTrials - k) + ListTimes(PreTone, k));
    InitialTypeCounts(nTrials, k);
    forall t | t in types ensures k <= 0 ==> t == Active
    {
      assert multiset(types)[t] > 0;
    }
    forall t | t in types ensures k >= nTrials ==> t == PreTone
    {
      assert multiset(types)[t] > 0;
    }
  }

  lemma {:induction false} InitialTypeCounts(nTrials: nat, k: int)
    ensures var types := ListTimes(Active, nTrials - k) + ListTimes(PreTone, k);
      multiset(types)[PreTone] == Max0(k) && multiset(types)[Active] == Max0(nTrials - k) &&
      |types| == Max0(nTrials - k) + Max0(k)
  {
    var actives, pretones := ListTimes(Active, nTrials - k), ListTimes(PreTone, k);
    RepeatCount(Active, Max0(nTrials - k), Active);
    RepeatCount(Active, Max0(nTrials - k), PreTone);
    RepeatCount(PreTone, Max0(k), Active);
    RepeatCount(PreTone, Max0(k), PreTone);
    assert multiset(actives + pretones) == multiset(actives) + multiset(pretones);
  }

  lemma {:induction false} PretoneCountInRange(nTrials: nat, ratio: real)
    requires 0.0 <= ratio <= 1.0
    ensures PretoneCount(nTrials, ratio) == (nTrials as real * ratio).Floor
    ensures 0 <= PretoneCount(nTrials, ratio) <= nTrials
  {
    TimesIsProduct(nTrials, ratio);
    var x := nTrials as real * ratio;
    assert 0.0 <= x <= nTrials as real by {
      assert nTrials as real * ratio <= nTrials as real * 1.0;
    }
  }

  /** Which of the four delay modes a block uses: the first of its keys present, in this order. */
  datatype DelayMode = FixedMode(delay: int) | DiscreteMode(candidates: seq<int>) | UniformMode(lo: int, hi: int) | GaussianMode

  function ModeOf(info: BlockInfo): DelayMode {
    if info.fixedDelay.Some? then FixedMode(info.fixedDelay.value)
    else if info.discreteSet.Some? then DiscreteMode(info.discreteSet.value)
    else if info.uniformRange.Some? then UniformMode(info.uniformRange.value.0, info.uniformRange.value.1)
    else GaussianMode
  }

  /**
   * A block the builder can run without a Python exception: a Gaussian block
   * needs a non-zero numeric sigma (`None` raises a TypeError, 0 turns the
   * weights into NaN and numpy's choice raises), and a discrete set or a uniform
   * range must be non-empty when a trial asks for a draw (numpy raises).
   */
  predicate WellFormedBlock(info: BlockInfo) {
    match ModeOf(info)
    case FixedMode(_) => true
    case DiscreteMode(ds) => info.nTrials > 0 ==> |ds| > 0
    case UniformMode(lo, hi) => info.nTrials > 0 ==> lo <= hi
    case GaussianMode => info.sigma.Some? && info.sigma.value != 0
  }

  /** Gaussian mode: picks from the global `DELAY_SET`, then shuffled again. */
  function GaussianDelays(st: nat, nTrials: nat): (r: (seq<int>, nat)) {
    var (sampled, st1) := Picks(st, DELAY_SET, nTrials);
    Shuffled(st1, sampled)
  }

  /** A block's delays, one per trial, and the generator state after them. */
  function BlockDelays(st: nat, info: BlockInfo): (r: (seq<int>, nat))
    requires WellFormedBlock(info)
    ensures |r.0| == info.nTrials
  {
    match ModeOf(info)
    case FixedMode(d) => (Repeat(d, info.nTrials), st)
    case DiscreteMode(ds) => Picks(st, ds, info.nTrials)
    case UniformMode(lo, hi) => Integers(st, lo, hi + 1, info.nTrials)
    case GaussianMode => GaussianDelays(st, info.nTrials)
  }

  /** The delay a block's mode allows, judged from the keys the block holds. */
  predicate DelayAllowed(info: BlockInfo, d: int) {
    if info.fixedDelay.Some? then d == info.fixedDelay.value
    else if info.discreteSet.Some? then d in info.discreteSet.value
    else if info.uniformRange.Some? then info.uniformRange.value.0 <= d <= info.uniformRange.value.1
    else d in DELAY_SET
  }

  /**
   * Precedence fixed > discrete > uniform > Gaussian: every delay is the fixed
   * delay, a member of the discrete set, in the inclusive uniform range, or a
   * member of the global `DELAY_SET` (never a preset's own delay set).
   */
  lemma {:induction false} BlockDelaysAllowed(st: nat, info: BlockInfo)
    requires WellFormedBlock(info)
    ensures forall d :: d in BlockDelays(st, info).0 ==> DelayAllowed(info, d)
    ensures info.fixedDelay.Some? ==> BlockDelays(st, info).0 == Repeat(info.fixedDelay.value, info.nTrials)
  {
    if ModeOf(info).GaussianMode? {
      var (sampled, st1) := Picks(st, DELAY_SET, info.nTrials);
      ShuffledPermutes(st1, sampled);
    }
  }

  /** Position `i` of a block: Active trials carry their delay, Pre-tone trials none. */
  function TrialAt(blockId: string, info: BlockInfo, types: seq<TrialType>, delays: seq<int>, i: nat): Trial
    requires i < |types| && i < |delays|
  {
    Trial(blockId, info.name, i, types[i],
      if types[i] == Active then Some(delays[i]) else None,
      info.sigma, None)
  }

  function MakeTrials(blockId: string, info: BlockInfo, types: seq<TrialType>, delays: seq<int>): (r: seq<Trial>)
    requires |types| >= info.nTrials && |delays| >= info.nTrials
    ensures |r| == info.nTrials
  {
    seq(info.nTrials, i requires 0 <= i < info.nTrials => TrialAt(blockId, info, types, delays, i))
  }

  /** A block's trials: delays first, then types, from the same generator. */
  function BlockTrials(st: nat, blockId: string, info: BlockInfo, ratio: real): (r: (seq<Trial>, nat))
    requires WellFormedBlock(info)
    ensures |r.0| == info.nTrials
  {
    var (delays, st1) := BlockDelays(st, info);
    var (types, st2) := AssignedTypes(st1, info.nTrials, ratio);
    (MakeTrials(blockId, info, types, delays), st2)
  }

  /** The trial-type column of a list of trials. */
  function TypesOf(trials: seq<Trial>): seq<TrialType> {
    seq(|trials|, i requires 0 <= i < |trials| => trials[i].trialType)
  }

  /**
   * A block has exactly `n_trials` records; record `i` has index `i` in the
   * block and the block's id, name and sigma; its delay is `None` exactly when
   * it is a Pre-tone trial, and an Active trial `i` carries the `i`-th drawn
   * delay; every delay is one the block's mode allows; and for a ratio in
   * `[0, 1]` exactly `int(n * ratio)` records are Pre-tone.
   */
  lemma {:induction false} BlockTrialsShape(st: nat, blockId: string, info: BlockInfo, ratio: real)
    requires WellFormedBlock(info)
    ensures |BlockTrials(st, blockId, info, ratio).0| == info.nTrials
    ensures forall i :: 0 <= i < info.nTrials ==>
      var t := BlockTrials(st, blockId, info, ratio).0[i];
      t.indexInBlock == i && t.blockId == blockId && t.blockName == info.name &&
      t.sigma == info.sigma && t.globalIndex.None? &&
      (t.delayMs.None? <==> t.trialType == PreTone) &&
      (t.trialType == Active ==> t.delayMs == Some(BlockDelays(st, info).0[i])) &&
      (t.delayMs.Some? ==> DelayAllowed(info, t.delayMs.value))
    ensures 0.0 <= ratio <= 1.0 ==>
      multiset(TypesOf(BlockTrials(st, blockId, info, ratio).0))[PreTone] == PretoneCount(info.nTrials, ratio)
  {
    var delays, st1 := BlockDelays(st, info).0, BlockDelays(st, info).1;
    var types := AssignedTypes(st1, info.nTrials, ratio).0;
    var trials := BlockTrials(st, blockId, info, ratio).0;
    assert trials == MakeTrials(blockId, info, types, delays);
    BlockDelaysAllowed(st, info);
    forall i | 0 <= i < info.nTrials
      ensures var t := trials[i];
        t.indexInBlock == i && t.blockId == blockId && t.blockName == info.name &&
        t.sigma == info.sigma && t.globalIndex.None? &&
        (t.delayMs.None? <==> t.trialType == PreTone) &&
        (t.trialType == Active ==> t.delayMs == Some(delays[i])) &&
        (t.delayMs.Some? ==> DelayAllowed(info, t.delayMs.value))
    {
      assert trials[i] == TrialAt(blockId, info, types, delays, i);
      assert delays[i] in delays;
    }
    if 0.0 <= ratio <= 1.0 {
      AssignedTypeCounts(st1, info.nTrials, ratio);
      assert |types| == info.nTrials;
      forall i | 0 <= i < |types| ensures TypesOf(trials)[i] == types[i] {
        assert trials[i] == TrialAt(blockId, info, types, delays, i);
      }
      assert TypesOf(trials) == types;
    }
  }

  /** The resolved block table and order a plan can be built from. */
  predicate PlanInputsValid(blocks: map<string, BlockInfo>, order: seq<string>) {
    OrderResolves(blocks, order) && forall k :: 0 <= k < |order| ==> WellFormedBlock(blocks[order[k]])
  }

  /** Every suffix of a buildable order is buildable. */
  lemma {:induction false} PlanInputsSuffix(blocks: map<string, BlockInfo>, order: seq<string>, b: nat)
    requires PlanInputsValid(blocks, order) && b <= |order|
    ensures PlanInputsValid(blocks, order[b..])
  {
    forall k | 0 <= k < |order[b..]| ensures order[b..][k] == order[b + k] {}
  }

  /** `block` with `trial_index_global` set to `g`, `g + 1`, ... */
  function Indexed(block: seq<Trial>, g: nat): (r: seq<Trial>)
    ensures |r| == |block|
  {
    seq(|block|, i requires 0 <= i < |block| => block[i].(globalIndex := Some(g + i)))
  }

  /**
   * The blocks of `order`, in order, each built from the generator state the
   * one before it left, and the state after the last.
   */
  function BuildBlocks(st: nat, blocks: map<string, BlockInfo>, order: seq<string>, ratio: real): (r: (seq<seq<Trial>>, nat))
    requires PlanInputsValid(blocks, order)
    ensures |r.0| == |order|
    decreases |order|
  {
    if order == [] then ([], st)
    else
      var (block, st1) := BlockTrials(st, order[0], blocks[order[0]], ratio);
      var (rest, st2) := BuildBlocks(st1, blocks, order[1..], ratio);
      ([block] + rest, st2)
  }

  /** The blocks concatenated, each numbered globally from where the one before stopped, the first from `g`. */
  function NumberFrom(bs: seq<seq<Trial>>, g: nat): seq<Trial>
    decreases |bs|
  {
    if bs == [] then [] else Indexed(bs[0], g) + NumberFrom(bs[1..], g + |bs[0]|)
  }

  /** The trials of the blocks of `order`, in order, numbered globally from `g`. */
  function PlanFrom(st: nat, blocks: map<string, BlockInfo>, order: seq<string>, ratio: real, g: nat): seq<Trial>
    requires PlanInputsValid(blocks, order)
  {
    NumberFrom(BuildBlocks(st, blocks, order, ratio).0, g)
  }

  /** Each block id of `order`, repeated once per trial of that block. */
  function ExpandOrder(blocks: map<string, BlockInfo>, order: seq<string>): seq<string>
    requires OrderResolves(blocks, order)
  {
    if order == [] then [] else Repeat(order[0], blocks[order[0]].nTrials) + ExpandOrder(blocks, order[1..])
  }

  function BlockIdsOf(trials: seq<Trial>): seq<string> {
    seq(|trials|, i requires 0 <= i < |trials| => trials[i].blockId)
  }

  /** What every record of a plan built from `blocks` satisfies. */
  predicate PlannedFrom(blocks: map<string, BlockInfo>, t: Trial) {
    t.blockId in blocks &&
    t.blockName == blocks[t.blockId].name &&
    t.sigma == blocks[t.blockId].sigma &&
    (t.delayMs.None? <==> t.trialType == PreTone) &&
    (t.delayMs.Some? ==> DelayAllowed(blocks[t.blockId], t.delayMs.value))
  }

  /** `block` could be the block `id` of `blocks`: `n_trials` records, each with that id and `PlannedFrom`. */
  predicate BlockOf(blocks: map<string, BlockInfo>, id: string, block: seq<Trial>) {
    id in blocks && |block| == blocks[id].nTrials &&
    forall j :: 0 <= j < |block| ==> block[j].blockId == id && PlannedFrom(blocks, block[j])
  }

  /** One block per id of `order`, in order. */
  predicate BlocksOf(blocks: map<string, BlockInfo>, order: seq<string>, bs: seq<seq<Trial>>) {
    |bs| == |order| && forall i :: 0 <= i < |order| ==> BlockOf(blocks, order[i], bs[i])
  }

  /** A built block is a block of its id. */
  lemma {:induction false} BlockTrialsBlockOf(st: nat, blocks: map<string, BlockInfo>, id: string, ratio: real)
    requires id in blocks && WellFormedBlock(blocks[id])
    ensures BlockOf(blocks, id, BlockTrials(st, id, blocks[id], ratio).0)
  {
    BlockTrialsShape(st, id, blocks[id], ratio);
  }

  /** Block `i` of a build is a block of `order[i]`. */
  lemma {:induction false} BuildBlocksShape(st: nat, blocks: map<string, BlockInfo>, order: seq<string>, ratio: real)
    requires PlanInputsValid(blocks, order)
    ensures BlocksOf(blocks, order, BuildBlocks(st, blocks, order, ratio).0)
    decreases |order|
  {
    if order != [] {
      var (block, st1) := BlockTrials(st, order[0], blocks[order[0]], ratio);
      PlanInputsSuffix(blocks, order, 1);
      BlockTrialsBlockOf(st, blocks, order[0], ratio);
      var rest := BuildBlocks(st1, blocks, order[1..], ratio).0;
      BuildBlocksShape(st1, blocks, order[1..], ratio);
      var bs := BuildBlocks(st, blocks, order, ratio).0;
      assert bs == [block] + rest;
      forall i | 1 <= i < |order| ensures BlockOf(blocks, order[i], bs[i]) {
        assert bs[i] == rest[i - 1] && order[i] == order[1..][i - 1];
      }
    }
  }

  /** The global indices of `NumberFrom(bs, g)` run `g, g + 1, ...` without gaps. */
  lemma {:induction false} NumberFromIndexing(bs: seq<seq<Trial>>, g: nat)
    ensures forall k :: 0 <= k < |NumberFrom(bs, g)| ==> NumberFrom(bs, g)[k].globalIndex == Some(g + k)
    decreases |bs|
  {
    if bs != [] {
      NumberFromIndexing(bs[1..], g + |bs[0]|);
      IndexedAppend(bs[0], g, NumberFrom(bs[1..], g + |bs[0]|));
    }
  }

  /** Numbering a block from `g` in front of a list numbered from `g + |block|` numbers the whole from `g`. */
  lemma {:induction false} IndexedAppend(block: seq<Trial>, g: nat, rest: seq<Trial>)
    requires forall k :: 0 <= k < |rest| ==> rest[k].globalIndex == Some(g + |block| + k)
    ensures forall k :: 0 <= k < |Indexed(block, g) + rest| ==> (Indexed(block, g) + rest)[k].globalIndex == Some(g + k)
  {
    var plan := Indexed(block, g) + rest;
    forall k | 0 <= k < |plan| ensures plan[k].globalIndex == Some(g + k) {
      if k >= |block| {
        assert plan[k] == rest[k - |block|];
      }
    }
  }

  /** Dropping the first block of `BlocksOf` leaves the rest of the order. */
  lemma {:induction false} BlocksOfTail(blocks: map<string, BlockInfo>, order: seq<string>, bs: seq<seq<Trial>>)
    requires BlocksOf(blocks, order, bs) && bs != []
    ensures BlocksOf(blocks, order[1..], bs[1..])
  {
    forall i | 0 <= i < |order[1..]| ensures BlockOf(blocks, order[1..][i], bs[1..][i]) {
      assert order[1..][i] == order[i + 1] && bs[1..][i] == bs[i + 1];
    }
  }

  /**
   * Blocks that match `order` number into `n_trials` records per block, the
   * block ids of `order` in order, each as one contiguous run.
   */
  lemma {:induction false} NumberFromBlockIds(blocks: map<string, BlockInfo>, order: seq<string>, bs: seq<seq<Trial>>, g: nat)
    requires BlocksOf(blocks, order, bs)
    ensures OrderResolves(blocks, order)
    ensures |NumberFrom(bs, g)| == TotalTrials(blocks, order)
    ensures BlockIdsOf(NumberFrom(bs, g)) == ExpandOrder(blocks, order)
    decreases |bs|
  {
    if bs != [] {
      BlocksOfTail(blocks, order, bs);
      var rest := NumberFrom(bs[1..], g + |bs[0]|);
      NumberFromBlockIds(blocks, order[1..], bs[1..], g + |bs[0]|);
      BlockIdsAppend(bs[0], g, order[0], rest);
    }
  }

  /** The ids of a block of `id`s, renumbered, in front of `rest`. */
  lemma {:induction false} BlockIdsAppend(block: seq<Trial>, g: nat, id: string, rest: seq<Trial>)
    requires forall i :: 0 <= i < |block| ==> block[i].blockId == id
    ensures BlockIdsOf(Indexed(block, g) + rest) == Repeat(id, |block|) + BlockIdsOf(rest)
  {
    var plan := Indexed(block, g) + rest;
    forall k | 0 <= k < |plan| ensures BlockIdsOf(plan)[k] == (Repeat(id, |block|) + BlockIdsOf(rest))[k] {
      if k >= |block| {
        assert plan[k] == rest[k - |block|];
      }
    }
  }

  /** Blocks that match `order` number into records that are all `PlannedFrom`. */
  lemma {:induction false} NumberFromRecords(blocks: map<string, BlockInfo>, order: seq<string>, bs: seq<seq<Trial>>, g: nat)
    requires BlocksOf(blocks, order, bs)
    ensures forall k :: 0 <= k < |NumberFrom(bs, g)| ==> PlannedFrom(blocks, NumberFrom(bs, g)[k])
    decreases |bs|
  {
    if bs != [] {
      BlocksOfTail(blocks, order, bs);
      NumberFromRecords(blocks, order[1..], bs[1..], g + |bs[0]|);
      RecordsAppend(blocks, bs[0], g, NumberFrom(bs[1..], g + |bs[0]|));
    }
  }

  /** Renumbering keeps `PlannedFrom`, and so does concatenation. */
  lemma {:induction false} RecordsAppend(blocks: map<string, BlockInfo>, block: seq<Trial>, g: nat, rest: seq<Trial>)
    requires forall i :: 0 <= i < |block| ==> PlannedFrom(blocks, block[i])
    requires forall i :: 0 <= i < |rest| ==> PlannedFrom(blocks, rest[i])
    ensures forall k :: 0 <= k < |Indexed(block, g) + rest| ==> PlannedFrom(blocks, (Indexed(block, g) + rest)[k])
  {
    var plan := Indexed(block, g) + rest;
    forall k | 0 <= k < |plan| ensures PlannedFrom(blocks, plan[k]) {
      if k < |block| {
        assert plan[k] == block[k].(globalIndex := Some(g + k));
      } else {
        assert plan[k] == rest[k - |block|];
      }
    }
  }

  /**
   * The plan's length is the sum of its blocks' `n_trials`, and its global
   * indices run `g, g + 1, ...` without gaps.
   */
  lemma {:induction false} PlanFromIndexing(st: nat, blocks: map<string, BlockInfo>, order: seq<string>, ratio: real, g: nat)
    requires PlanInputsValid(blocks, order)
    ensures |PlanFrom(st, blocks, order, ratio, g)| == TotalTrials(blocks, order)
    ensures forall k :: 0 <= k < |PlanFrom(st, blocks, order, ratio, g)| ==>
      PlanFrom(st, blocks, order, ratio, g)[k].globalIndex == Some(g + k)
  {
    var bs := BuildBlocks(st, blocks, order, ratio).0;
    BuildBlocksShape(st, blocks, order, ratio);
    NumberFromBlockIds(blocks, order, bs, g);
    NumberFromIndexing(bs, g);
  }

  /** The plan's blocks appear in `order`'s order, each as one contiguous run of its own trials. */
  lemma {:induction false} PlanFromBlockIds(st: nat, blocks: map<string, BlockInfo>, order: seq<string>, ratio: real, g: nat)
    requires PlanInputsValid(blocks, order)
    ensures BlockIdsOf(PlanFrom(st, blocks, order, ratio, g)) == ExpandOrder(blocks, order)
  {
    BuildBlocksShape(st, blocks, order, ratio);
    NumberFromBlockIds(blocks, order, BuildBlocks(st, blocks, order, ratio).0, g);
  }

  /** Every record of the plan keeps its block's name, sigma and delay rules. */
  lemma {:induction false} PlanFromRecords(st: nat, blocks: map<string, BlockInfo>, order: seq<string>, ratio: real, g: nat)
    requires PlanInputsValid(blocks, order)
    ensures forall k :: 0 <= k < |PlanFrom(st, blocks, order, ratio, g)| ==>
      PlannedFrom(blocks, PlanFrom(st, blocks, order, ratio, g)[k])
  {
    BuildBlocksShape(st, blocks, order, ratio);
    NumberFromRecords(blocks, order, BuildBlocks(st, blocks, order, ratio).0, g);
  }

  /** One step of `PlanFrom`: the first block, built from `st` and numbered from `g`, then the rest. */
  lemma {:induction false} PlanFromStep(st: nat, blocks: map<string, BlockInfo>, order: seq<string>, ratio: real, g: nat,
                      block: seq<Trial>, st1: nat)
    requires PlanInputsValid(blocks, order) && order != []
    requires (block, st1) == BlockTrials(st, order[0], blocks[order[0]], ratio)
    ensures PlanInputsValid(blocks, order[1..])
    ensures PlanFrom(st, blocks, order, ratio, g) == Indexed(block, g) + PlanFrom(st1, blocks, order[1..], ratio, g + |block|)
  {
    PlanInputsSuffix(blocks, order, 1);
    var bs := BuildBlocks(st, blocks, order, ratio).0;
    var rest := BuildBlocks(st1, blocks, order[1..], ratio).0;
    assert bs == [block] + rest;
    assert bs[0] == block && bs[1..] == rest;
  }

  /** How `create_all_trials` resolves its preset argument. */
  function ResolvePreset(preset: Option<string>): (r: (map<string, BlockInfo>, seq<string>, real))
    ensures PlanInputsValid(r.0, r.1)
    ensures (preset.None? || preset.value !in EXPERIMENT_PRESETS) ==> r == (BLOCKS, BLOCK_ORDER, PRETONE_RATIO)
  {
    PresetsBuildable();
    if preset.Some? && preset.value != "" && preset.value in EXPERIMENT_PRESETS then
      var p := EXPERIMENT_PRESETS[preset.value];
      (p.blocks, p.blockOrder, p.pretoneRatio.GetOr(PRETONE_RATIO))
    else
      (BLOCKS, BLOCK_ORDER, PRETONE_RATIO)
  }

  /** Every configured preset, and the default tables, can be built. */
  lemma PresetsBuildable()
    ensures forall p :: p in EXPERIMENT_PRESETS ==>
      PlanInputsValid(EXPERIMENT_PRESETS[p].blocks, EXPERIMENT_PRESETS[p].blockOrder)
    ensures PlanInputsValid(BLOCKS, BLOCK_ORDER)
  {
    PresetTable();
    OriginalBuildable();
    Condition1Buildable();
    Condition2Buildable();
    StableVolatileStableBuildable();
    LearningTestBuildable();
  }

  lemma OriginalBuildable() ensures PlanInputsValid(ORIGINAL.blocks, ORIGINAL.blockOrder) {}

  lemma Condition1Buildable() ensures PlanInputsValid(CONDITION1_STABLE.blocks, CONDITION1_STABLE.blockOrder) {}

  lemma Condition2Buildable() ensures PlanInputsValid(CONDITION2_VOLATILE.blocks, CONDITION2_VOLATILE.blockOrder) {
    RangeZeroToFiveHundred();
  }

  lemma StableVolatileStableBuildable()
    ensures PlanInputsValid(STABLE_VOLATILE_STABLE.blocks, STABLE_VOLATILE_STABLE.blockOrder)
  {
    RangeZeroToFiveHundred();
  }

  lemma LearningTestBuildable() ensures PlanInputsValid(LEARNING_TEST.blocks, LEARNING_TEST.blockOrder) {}

  /** The whole plan for a seed and a preset argument. */
  function Plan(seed: nat, preset: Option<string>): seq<Trial> {
    var (blocks, order, ratio) := ResolvePreset(preset);
    PlanFrom(seed, blocks, order, ratio, 0)
  }

  /** The plan's global indices are exactly `0 .. len - 1`, and its length is the sum of `n_trials`. */
  lemma {:induction false} PlanIndexing(seed: nat, preset: Option<string>)
    ensures |Plan(seed, preset)| == TotalTrials(ResolvePreset(preset).0, ResolvePreset(preset).1)
    ensures forall k :: 0 <= k < |Plan(seed, preset)| ==> Plan(seed, preset)[k].globalIndex.Some? && Plan(seed, preset)[k].globalIndex.value == k
    ensures BlockIdsOf(Plan(seed, preset)) == ExpandOrder(ResolvePreset(preset).0, ResolvePreset(preset).1)
  {
    var (blocks, order, ratio) := ResolvePreset(preset);
    PlanFromIndexing(seed, blocks, order, ratio, 0);
    PlanFromBlockIds(seed, blocks, order, ratio, 0);
  }

  /** No preset, or an unknown one, resolves as 'original' does, to 480 trials. */
  lemma {:induction false} DefaultResolvesToOriginal(preset: Option<string>)
    requires preset.None? || preset.value !in EXPERIMENT_PRESETS
    ensures ResolvePreset(preset) == ResolvePreset(Some("original"))
    ensures TotalTrials(ResolvePreset(preset).0, ResolvePreset(preset).1) == 480
  {
    OriginalTotal();
    DefaultTablesAreOriginal();
  }

  /** The default plan (no preset, or an unknown one) is the 'original' preset's 480 trials. */
  lemma {:induction false} DefaultPlanLength(seed: nat, preset: Option<string>)
    requires preset.None? || preset.value !in EXPERIMENT_PRESETS
    ensures |Plan(seed, preset)| == 480
    ensures Plan(seed, preset) == Plan(seed, Some("original"))
  {
    DefaultResolvesToOriginal(preset);
    PlanIndexing(seed, preset);
  }

  /** `calculate_epsilon`: the deviation of a delay from `MU_0`, and its square. */
  function CalculateEpsilon(delayMs: Option<real>): (r: (Option<real>, Option<real>))
    ensures r.0.Some? <==> delayMs.Some?
    ensures r.1.Some? <==> delayMs.Some?
    ensures delayMs.Some? ==> MU_0 as real + r.0.value == delayMs.value
    ensures delayMs.Some? ==> r.1.value == r.0.value * r.0.value && r.1.value >= 0.0
  {
    match delayMs
    case None => (None, None)
    case Some(d) =>
      var epsilon := d - MU_0 as real;
      (Some(epsilon), Some(epsilon * epsilon))
  }

  /** `create_block_trials`' defaults: `config.BLOCKS[block_id]` and `config.PRETONE_RATIO`. */
  function ResolveBlockArgs(blockId: string, blockInfo: Option<BlockInfo>, ratio: Option<real>): (r: (BlockInfo, real))
    requires blockInfo.None? ==> blockId in BLOCKS
    ensures blockInfo.Some? ==> r.0 == blockInfo.value
    ensures blockInfo.None? ==> r.0 == BLOCKS[blockId]
    ensures r.1 == ratio.GetOr(0.2)
  {
    (if blockInfo.Some? then blockInfo.value else BLOCKS[blockId], ratio.GetOr(PRETONE_RATIO))
  }

  /** `generate_delay_sequence`: Gaussian-weighted picks from `DELAY_SET`, shuffled. */
  method GenerateDelaySequence(nTrials: nat, sigma: int, rng: RandomGenerator) returns (delays: seq<int>)
    requires sigma != 0
    modifies rng
    ensures (delays, rng.state) == GaussianDelays(old(rng.state), nTrials)
    ensures |delays| == nTrials && forall d :: d in delays ==> d in DELAY_SET
  {
    var sampled := rng.ChoiceMany(DELAY_SET, nTrials);
    delays := rng.Shuffle(sampled);
    assert forall d :: d in delays ==> d in multiset(sampled);
  }

  /** `assign_trial_types`. */
  method AssignTrialTypes(nTrials: nat, ratio: real, rng: RandomGenerator) returns (types: seq<TrialType>)
    modifies rng
    ensures (types, rng.state) == AssignedTypes(old(rng.state), nTrials, ratio)
    ensures multiset(types)[PreTone] == Max0(PretoneCount(nTrials, ratio))
    ensures multiset(types)[Active] == Max0(nTrials - PretoneCount(nTrials, ratio))
  {
    var nPretone := TruncToInt(nTrials as real * ratio);
    TimesIsProduct(nTrials, ratio);
    var nActive := nTrials - nPretone;
    types := rng.Shuffle(ListTimes(Active, nActive) + ListTimes(PreTone, nPretone));
    AssignedTypeCounts(old(rng.state), nTrials, ratio);
  }

  /** The delay half of `create_block_trials`: the first of the block's delay keys decides the mode. */
  method DrawBlockDelays(info: BlockInfo, rng: RandomGenerator) returns (delays: seq<int>)
    requires WellFormedBlock(info)
    modifies rng
    ensures (delays, rng.state) == BlockDelays(old(rng.state), info)
  {
    var n := info.nTrials;
    if info.fixedDelay.Some? {
      delays := Repeat(info.fixedDelay.value, n);
    } else if info.discreteSet.Some? {
      var discreteSet := info.discreteSet.value;
      delays := [];
      for k := 0 to n
        invariant (delays, rng.state) == Picks(old(rng.state), discreteSet, k)
      {
        var d := rng.Choice(discreteSet);
        delays := delays + [d];
      }
    } else if info.uniformRange.Some? {
      var (minDelay, maxDelay) := info.uniformRange.value;
      delays := [];
      for k := 0 to n
        invariant (delays, rng.state) == Integers(old(rng.state), minDelay, maxDelay + 1, k)
      {
        var d := rng.RandInt(minDelay, maxDelay + 1);
        delays := delays + [d];
      }
    } else {
      delays := GenerateDelaySequence(n, info.sigma.value, rng);
    }
  }

  /** `create_block_trials`. */
  method CreateBlockTrials(blockId: string, rng: RandomGenerator, blockInfo: Option<BlockInfo>, pretoneRatio: Option<real>)
    returns (trials: seq<Trial>)
    requires blockInfo.None? ==> blockId in BLOCKS
    requires WellFormedBlock(ResolveBlockArgs(blockId, blockInfo, pretoneRatio).0)
    modifies rng
    ensures var (info, ratio) := ResolveBlockArgs(blockId, blockInfo, pretoneRatio);
      (trials, rng.state) == BlockTrials(old(rng.state), blockId, info, ratio)
  {
    var info := if blockInfo.Some? then blockInfo.value else BLOCKS[blockId];
    var ratio := if pretoneRatio.Some? then pretoneRatio.value else PRETONE_RATIO;
    var n := info.nTrials;
    var delays := DrawBlockDelays(info, rng);
    var types := AssignTrialTypes(n, ratio, rng);

    trials := [];
    for i := 0 to n
      invariant |trials| == i
      invariant forall k :: 0 <= k < i ==> trials[k] == TrialAt(blockId, info, types, delays, k)
    {
      var trial := Trial(blockId, info.name, i, types[i],
        if types[i] == Active then Some(delays[i]) else None, info.sigma, None);
      trials := trials + [trial];
    }
    assert trials == MakeTrials(blockId, info, types, delays);
  }

  /**
   * One turn of `create_all_trials`' loop: if the records so far followed by
   * the plan of the remaining blocks is the whole plan, then so are the records
   * with the next block appended, numbered on, followed by the rest.
   */
  lemma {:induction false} PlanLoopStep(st0: nat, blocks: map<string, BlockInfo>, order: seq<string>, ratio: real, b: nat,
                     before: seq<Trial>, target: seq<Trial>, block: seq<Trial>, st1: nat)
    requires PlanInputsValid(blocks, order) && b < |order|
    requires PlanInputsValid(blocks, order[b..])
    requires before + PlanFrom(st0, blocks, order[b..], ratio, |before|) == target
    requires (block, st1) == BlockTrials(st0, order[b], blocks[order[b]], ratio)
    ensures PlanInputsValid(blocks, order[b + 1..])
    ensures var now := before + Indexed(block, |before|);
      now + PlanFrom(st1, blocks, order[b + 1..], ratio, |now|) == target
  {
    var remaining := order[b..];
    assert remaining[0] == order[b] && remaining[1..] == order[b + 1..];
    PlanFromStep(st0, blocks, remaining, ratio, |before|, block, st1);
    var head, rest := Indexed(block, |before|), PlanFrom(st1, blocks, order[b + 1..], ratio, |before| + |block|);
    AppendAssoc(before, head, rest);
    calc {
      (before + head) + rest;
      before + (head + rest);
      before + PlanFrom(st0, blocks, remaining, ratio, |before|);
      target;
    }
  }

  lemma {:induction false} AppendAssoc<T>(a: seq<T>, b: seq<T>, c: seq<T>)
    ensures a + (b + c) == (a + b) + c
  {
  }

  /** The inner loop of `create_all_trials`: sets `trial_index_global` on each record of a block, counting up from `g`. */
  method NumberTrials(block: seq<Trial>, g: nat) returns (numbered: seq<Trial>, next: nat)
    ensures numbered == Indexed(block, g) && next == g + |block|
  {
    numbered := block;
    next := g;
    for j := 0 to |block|
      invariant |numbered| == |block| && next == g + j
      invariant forall m :: 0 <= m < j ==> numbered[m] == block[m].(globalIndex := Some(g + m))
      invariant forall m :: j <= m < |block| ==> numbered[m] == block[m]
    {
      numbered := numbered[j := numbered[j].(globalIndex := Some(next))];
      next := next + 1;
    }
  }

  /**
   * The body of `create_all_trials` once the preset is resolved: one generator
   * seeded with `seed` for the whole plan, blocks in order, global indices from 0.
   */
  method CreateTrialsFor(seed: nat, blocks: map<string, BlockInfo>, blockOrder: seq<string>, pretoneRatio: real)
    returns (allTrials: seq<Trial>)
    requires seed < 0x1_0000_0000
    requires PlanInputsValid(blocks, blockOrder)
    ensures allTrials == PlanFrom(seed, blocks, blockOrder, pretoneRatio, 0)
  {
    var rng := new RandomGenerator(seed);
    allTrials := [];
    var globalIndex := 0;
    assert blockOrder[0..] == blockOrder;

    for b := 0 to |blockOrder|
      invariant globalIndex == |allTrials|
      invariant PlanInputsValid(blocks, blockOrder[b..])
      invariant allTrials + PlanFrom(rng.state, blocks, blockOrder[b..], pretoneRatio, |allTrials|)
        == PlanFrom(seed, blocks, blockOrder, pretoneRatio, 0)
    {
      var blockId := blockOrder[b];
      ghost var st0, before := rng.state, allTrials;
      var blockTrials := CreateBlockTrials(blockId, rng, Some(blocks[blockId]), Some(pretoneRatio));
      ghost var st1 := rng.state;
      PlanLoopStep(st0, blocks, blockOrder, pretoneRatio, b, before, PlanFrom(seed, blocks, blockOrder, pretoneRatio, 0), blockTrials, st1);
      var numbered;
      numbered, globalIndex := NumberTrials(blockTrials, globalIndex);
      allTrials := allTrials + numbered;
    }
    assert blockOrder[|blockOrder|..] == [];
  }

  /** `create_all_trials`: the plan for a seed and a preset argument, numbered globally from 0. */
  method CreateAllTrials(seed: nat, preset: Option<string>) returns (allTrials: seq<Trial>)
    requires seed < 0x1_0000_0000
    ensures allTrials == Plan(seed, preset)
    ensures forall k :: 0 <= k < |allTrials| ==> allTrials[k].globalIndex.Some? && allTrials[k].globalIndex.value == k
  {
    var (blocks, blockOrder, pretoneRatio) := ResolvePreset(preset);
    allTrials := CreateTrialsFor(seed, blocks, blockOrder, pretoneRatio);
    PlanIndexing(seed, preset);
  }

  /** Two builds from the same seed and preset give the same plan, record for record. */
  method ReplayIsIdentical(seed: nat, preset: Option<string>) returns (first: seq<Trial>, second: seq<Trial>)
    requires seed < 0x1_0000_0000
    ensures first == second
  {
    first := CreateAllTrials(seed, preset);
    second := CreateAllTrials(seed, preset);
  }
}

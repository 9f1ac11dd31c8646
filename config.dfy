/**
 * The experiment's constant tables (config.py): the named presets, the default
 * block table and block order, the project-wide delay set and centre delay,
 * the default Pre-tone ratio and the screen geometry of the boundary task.
 */
module Config {
  import opened Options

  /**
   * One block of a preset. Python keeps a block as a dict that may or may not
   * hold the keys `fixed_delay`, `discrete_set` and `uniform_range`; each of them
   * is an `Option` here, `None` when the key is absent. `sigma` is `None` both
   * when the key is absent and when it holds `None`, since the builder reads it
   * with `dict.get`.
   */
  datatype BlockInfo = BlockInfo(
    nTrials: nat,
    sigma: Option<int>,
    name: string,
    fixedDelay: Option<int>,
    discreteSet: Option<seq<int>>,
    uniformRange: Option<(int, int)>)

  /** A preset: its block table, the order the blocks run in and its own optional ratio. */
  datatype Preset = Preset(
    name: string,
    blocks: map<string, BlockInfo>,
    blockOrder: seq<string>,
    mu0: int,
    delaySet: seq<int>,
    pretoneRatio: Option<real>)

  /** Python's `list(range(start, stop, step))` for a positive step. */
  function Range(start: int, stop: int, step: nat): seq<int>
    requires step > 0
    decreases stop - start
  {
    if start >= stop then [] else [start] + Range(start + step, stop, step)
  }

  function GaussianBlock(nTrials: nat, sigma: int, name: string): BlockInfo {
    BlockInfo(nTrials, Some(sigma), name, None, None, None)
  }

  function FixedBlock(nTrials: nat, name: string, delay: int): BlockInfo {
    BlockInfo(nTrials, None, name, Some(delay), None, None)
  }

  function DiscreteBlock(nTrials: nat, name: string, delays: seq<int>): BlockInfo {
    BlockInfo(nTrials, None, name, None, Some(delays), None)
  }

  const ORIGINAL: Preset := Preset(
    "オリジナル実験（4ブロック）",
    map[
      "learning" := GaussianBlock(160, 50, "学習ブロック"),
      "stable1" := GaussianBlock(80, 50, "安定ブロック1"),
      "volatile" := GaussianBlock(160, 150, "変動ブロック"),
      "stable2" := GaussianBlock(80, 50, "安定ブロック2")],
    ["learning", "stable1", "volatile", "stable2"],
    200,
    [0, 50, 100, 150, 200, 250, 300, 350, 400],
    None)

  const CONDITION1_STABLE: Preset := Preset(
    "条件1: 遅延0ms固定（Stable）",
    map["stable_0ms" := FixedBlock(20, "遅延0ms固定", 0)],
    ["stable_0ms"],
    0,
    [0],
    None)

  const CONDITION2_VOLATILE: Preset := Preset(
    "条件2: 遅延0-500msランダム（Volatile）",
    map["volatile_random" := DiscreteBlock(20, "遅延ランダム", Range(0, 501, 50))],
    ["volatile_random"],
    250,
    Range(0, 501, 50),
    None)

  const STABLE_VOLATILE_STABLE: Preset := Preset(
    "安定→不安定→安定（条件1→2→1）",
    map[
      "stable_0ms_1" := FixedBlock(20, "安定ブロック1（遅延0ms）", 0),
      "volatile_random" := DiscreteBlock(20, "不安定ブロック（遅延0-500ms）", Range(0, 501, 50)),
      "stable_0ms_2" := FixedBlock(20, "安定ブロック2（遅延0ms）", 0)],
    ["stable_0ms_1", "volatile_random", "stable_0ms_2"],
    0,
    Range(0, 501, 50),
    None)

  const LEARNING_TEST: Preset := Preset(
    "学習→テスト（200ms±150ms → 0ms/400ms）",
    map[
      "learning" := GaussianBlock(160, 150, "学習段階（200ms±50ms）"),
      "test" := DiscreteBlock(20, "テスト段階（0ms/400ms）", [0, 400])],
    ["learning", "test"],
    200,
    [0, 50, 100, 150, 200, 250, 300, 350, 400],
    Some(0.1))

  const EXPERIMENT_PRESETS: map<string, Preset> := map[
    "original" := ORIGINAL,
    "condition1_stable" := CONDITION1_STABLE,
    "condition2_volatile" := CONDITION2_VOLATILE,
    "stable_volatile_stable" := STABLE_VOLATILE_STABLE,
    "learning_test" := LEARNING_TEST]

  const DEFAULT_PRESET: string := "original"

  /** The top-level tables are the 'original' preset's, kept for backward compatibility. */
  const BLOCKS: map<string, BlockInfo> := EXPERIMENT_PRESETS["original"].blocks
  const BLOCK_ORDER: seq<string> := EXPERIMENT_PRESETS["original"].blockOrder

  const MU_0: int := 200
  const DELAY_SET: seq<int> := [0, 50, 100, 150, 200, 250, 300, 350, 400]
  const SIGMA_SMALL: int := 50
  const SIGMA_LARGE: int := 150

  const PRETONE_RATIO: real := 0.2
  const DEFAULT_SEED: nat := 42

  const START_RADIUS: real := 50.0
  const START_POS: (real, real) := (-200.0, 0.0)
  const TARGET_RADIUS: real := 50.0
  const TARGET_POS: (real, real) := (200.0, 0.0)
  const BOUNDARY_X: real := 0.0

  const SOA_SLIDER_MIN: int := 0
  const SOA_SLIDER_MAX: int := 100
  const SOA_SLIDER_DEFAULT: int := 50

  /** Every block id of `order` names a block of `blocks`. */
  predicate OrderResolves(blocks: map<string, BlockInfo>, order: seq<string>) {
    forall k :: 0 <= k < |order| ==> order[k] in blocks
  }

  /** The number of trials a run of `order` has: the sum of its blocks' `n_trials`. */
  function TotalTrials(blocks: map<string, BlockInfo>, order: seq<string>): nat
    requires OrderResolves(blocks, order)
  {
    if order == [] then 0 else blocks[order[0]].nTrials + TotalTrials(blocks, order[1..])
  }

  /**
   * A block that names its delays outright (a fixed delay or a discrete set)
   * records no sigma; a block that names none of the three delay keys is a
   * Gaussian block and records a numeric sigma.
   */
  predicate SigmaMatchesMode(info: BlockInfo) {
    ((info.fixedDelay.Some? || info.discreteSet.Some?) ==> info.sigma.None?) &&
    ((info.fixedDelay.None? && info.discreteSet.None? && info.uniformRange.None?) ==> info.sigma.Some?)
  }

  lemma RangeZeroToFiveHundred()
    ensures Range(0, 501, 50) == [0, 50, 100, 150, 200, 250, 300, 350, 400, 450, 500]
    ensures |Range(0, 501, 50)| == 11
  {
    assert Range(550, 501, 50) == [];
    assert Range(500, 501, 50) == [500];
    assert Range(450, 501, 50) == [450, 500];
    assert Range(400, 501, 50) == [400, 450, 500];
    assert Range(350, 501, 50) == [350, 400, 450, 500];
    assert Range(300, 501, 50) == [300, 350, 400, 450, 500];
    assert Range(250, 501, 50) == [250, 300, 350, 400, 450, 500];
    assert Range(200, 501, 50) == [200, 250, 300, 350, 400, 450, 500];
    assert Range(150, 501, 50) == [150, 200, 250, 300, 350, 400, 450, 500];
    assert Range(100, 501, 50) == [100, 150, 200, 250, 300, 350, 400, 450, 500];
    assert Range(50, 501, 50) == [50, 100, 150, 200, 250, 300, 350, 400, 450, 500];
  }

  /** The five preset names, and the preset each one names. */
  lemma PresetTable()
    ensures EXPERIMENT_PRESETS.Keys ==
      {"original", "condition1_stable", "condition2_volatile", "stable_volatile_stable", "learning_test"}
    ensures EXPERIMENT_PRESETS["original"] == ORIGINAL
    ensures EXPERIMENT_PRESETS["condition1_stable"] == CONDITION1_STABLE
    ensures EXPERIMENT_PRESETS["condition2_volatile"] == CONDITION2_VOLATILE
    ensures EXPERIMENT_PRESETS["stable_volatile_stable"] == STABLE_VOLATILE_STABLE
    ensures EXPERIMENT_PRESETS["learning_test"] == LEARNING_TEST
  {
  }

  /**
   * A preset is consistent when every id of its `block_order` is a key of its
   * `blocks`, and its fixed and discrete blocks carry no sigma while its
   * Gaussian blocks carry one.
   */
  predicate Consistent(p: Preset) {
    OrderResolves(p.blocks, p.blockOrder) &&
    forall b :: b in p.blocks ==> SigmaMatchesMode(p.blocks[b])
  }

  lemma OriginalConsistent() ensures Consistent(ORIGINAL) {}
  lemma Condition1Consistent() ensures Consistent(CONDITION1_STABLE) {}
  lemma Condition2Consistent() ensures Consistent(CONDITION2_VOLATILE) {}
  lemma StableVolatileStableConsistent() ensures Consistent(STABLE_VOLATILE_STABLE) {}
  lemma LearningTestConsistent() ensures Consistent(LEARNING_TEST) {}

  /** Every preset is consistent, and the default order resolves in the default table. */
  lemma PresetsConsistent()
    ensures forall p :: p in EXPERIMENT_PRESETS ==> Consistent(EXPERIMENT_PRESETS[p])
    ensures OrderResolves(BLOCKS, BLOCK_ORDER)
  {
    PresetTable();
    OriginalConsistent();
    Condition1Consistent();
    Condition2Consistent();
    StableVolatileStableConsistent();
    LearningTestConsistent();
  }

  /** The default tables are the four blocks of the 'original' preset, in its order. */
  lemma DefaultTablesAreOriginal()
    ensures BLOCKS.Keys == {"learning", "stable1", "volatile", "stable2"}
    ensures BLOCK_ORDER == ["learning", "stable1", "volatile", "stable2"]
    ensures BLOCKS == ORIGINAL.blocks && BLOCK_ORDER == ORIGINAL.blockOrder
  {
  }

  /** Only 'learning_test' overrides the default ratio 0.2, with 0.1. */
  lemma OnlyLearningTestOverridesRatio()
    ensures forall p :: p in EXPERIMENT_PRESETS ==>
      (EXPERIMENT_PRESETS[p].pretoneRatio.Some? <==> p == "learning_test")
    ensures EXPERIMENT_PRESETS["learning_test"].pretoneRatio == Some(0.1)
    ensures PRETONE_RATIO == 0.2
  {
  }

  /** The 'original' preset runs 160 + 80 + 160 + 80 = 480 trials. */
  lemma OriginalTotal()
    ensures OrderResolves(ORIGINAL.blocks, ORIGINAL.blockOrder)
    ensures TotalTrials(ORIGINAL.blocks, ORIGINAL.blockOrder) == 480
  {
    var b, o := ORIGINAL.blocks, ORIGINAL.blockOrder;
    assert o[1..] == ["stable1", "volatile", "stable2"];
    assert o[1..][1..] == ["volatile", "stable2"];
    assert o[1..][1..][1..] == ["stable2"];
    assert o[1..][1..][1..][1..] == [];
  }
}

/**
 * The continuous-rating variant of the experiment
 * (experiment_continuous_rating.py): the fixed 60-trial, three-step trial
 * sequence of a condition, the cursor clamp on the bar, the rule that a click
 * counts only at the right end of the bar, and the conversion of a VAS cursor
 * position to a rating in [0, 100].
 *
 * Mouse positions and button states are inputs: one `Frame` per screen
 * refresh. The windows, stimuli, tones and the waits inside a trial are not
 * modelled.
 */
module Continuous {
  import opened Options

  const BAR_WIDTH: real := 1000.0
  const BAR_POS_X: real := 0.0
  const VAS_WIDTH: real := 900.0

  /** The bar's edges in `run_trial`, and the click threshold 10 px inside the right edge. */
  const LEFT_EDGE: real := BAR_POS_X - BAR_WIDTH / 2.0
  const RIGHT_EDGE: real := BAR_POS_X + BAR_WIDTH / 2.0
  const CLICK_THRESHOLD: real := RIGHT_EDGE - 10.0

  /** The VAS scale's edges in `_get_immediate_vas_rating`. */
  const VAS_LEFT_EDGE: real := -VAS_WIDTH / 2.0
  const VAS_RIGHT_EDGE: real := VAS_WIDTH / 2.0

  const STEP1: string := "Step1_Baseline"
  const STEP2: string := "Step2_Intervention"
  const STEP3: string := "Step3_Washout"

  /** One entry of `_generate_trial_sequence`. */
  datatype TrialInfo = TrialInfo(trialNum: nat, step: string, taskDelay: int, ansDelay: int)

  /** One screen refresh: the mouse's x position and whether the left button is down. */
  datatype Frame = Frame(mouseX: real, pressed: bool)

  /** The conditions the sequence generator knows. */
  predicate KnownCondition(condition: string) {
    condition == "A" || condition == "B" || condition == "C"
  }

  /** Step 2's `(task_delay, ans_delay)`: A is the control, B delays the task only, C both. */
  function InterventionDelays(condition: string, muDelay: int): (r: (int, int))
    requires KnownCondition(condition)
  {
    if condition == "A" then (0, 0)
    else if condition == "B" then (muDelay, 0)
    else (muDelay, muDelay)
  }

  /** `count` entries of one step, numbered from `first`, all with the same delays. */
  function Phase(first: nat, count: nat, step: string, taskDelay: int, ansDelay: int): (r: seq<TrialInfo>)
    ensures |r| == count
  {
    seq(count, i requires 0 <= i < count => TrialInfo(first + i, step, taskDelay, ansDelay))
  }

  /** The sequence: 20 baseline trials, 20 intervention trials with the condition's delays, 20 washout trials. */
  function TrialSequence(condition: string, muDelay: int): seq<TrialInfo>
    requires KnownCondition(condition)
  {
    var (task, ans) := InterventionDelays(condition, muDelay);
    Phase(1, 20, STEP1, 0, 0) + Phase(21, 20, STEP2, task, ans) + Phase(41, 20, STEP3, 0, 0)
  }

  /**
   * The sequence has 60 entries numbered 1 to 60 in order; entries 1-20 are
   * the baseline, 21-40 the intervention and 41-60 the washout; the baseline
   * and washout have no delay, and the intervention's delays are (0, 0) for A,
   * (mu, 0) for B and (mu, mu) for C.
   */
  lemma {:induction false} TrialSequenceShape(condition: string, muDelay: int)
    requires KnownCondition(condition)
    ensures |TrialSequence(condition, muDelay)| == 60
    ensures forall k :: 0 <= k < 60 ==> TrialSequence(condition, muDelay)[k].trialNum == k + 1
    ensures forall k :: 0 <= k < 60 ==>
      var t := TrialSequence(condition, muDelay)[k];
      (t.trialNum <= 20 ==> t.step == STEP1 && t.taskDelay == 0 && t.ansDelay == 0) &&
      (21 <= t.trialNum <= 40 ==> t.step == STEP2) &&
      (41 <= t.trialNum ==> t.step == STEP3 && t.taskDelay == 0 && t.ansDelay == 0)
    ensures forall k :: 20 <= k < 40 ==>
      var t := TrialSequence(condition, muDelay)[k];
      (condition == "A" ==> t.taskDelay == 0 && t.ansDelay == 0) &&
      (condition == "B" ==> t.taskDelay == muDelay && t.ansDelay == 0) &&
      (condition == "C" ==> t.taskDelay == muDelay && t.ansDelay == muDelay)
  {
    var (task, ans) := InterventionDelays(condition, muDelay);
    var p1, p2, p3 := Phase(1, 20, STEP1, 0, 0), Phase(21, 20, STEP2, task, ans), Phase(41, 20, STEP3, 0, 0);
    var s := TrialSequence(condition, muDelay);
    assert s == p1 + p2 + p3;
    forall k | 0 <= k < 60
      ensures s[k] == if k < 20 then p1[k] else if k < 40 then p2[k - 20] else p3[k - 40]
    {
    }
  }

  /** Python's `max(lo, min(hi, x))`. */
  function Clamp(lo: real, hi: real, x: real): real {
    if x > hi then (if lo > hi then lo else hi) else if lo > x then lo else x
  }

  /** The bar cursor for a mouse position. */
  function CursorX(mouseX: real): real {
    Clamp(LEFT_EDGE, RIGHT_EDGE, mouseX)
  }

  /**
   * The clamped cursor stays on the bar, follows the mouse while it is on
   * the bar, and sits on the nearer edge otherwise.
   */
  lemma {:induction false} CursorOnBar(mouseX: real)
    ensures LEFT_EDGE == -500.0 && RIGHT_EDGE == 500.0
    ensures LEFT_EDGE <= CursorX(mouseX) <= RIGHT_EDGE
    ensures LEFT_EDGE <= mouseX <= RIGHT_EDGE ==> CursorX(mouseX) == mouseX
    ensures mouseX < LEFT_EDGE ==> CursorX(mouseX) == LEFT_EDGE
    ensures mouseX > RIGHT_EDGE ==> CursorX(mouseX) == RIGHT_EDGE
  {
  }

  /** A frame's click counts when the button is down with the cursor at least at the threshold. */
  predicate ClickAccepted(f: Frame) {
    f.pressed && CursorX(f.mouseX) >= CLICK_THRESHOLD
  }

  /**
   * A click counts exactly when the button is down with the mouse at 490 px
   * or further right; a mouse beyond the bar's right edge still counts.
   */
  lemma {:induction false} ClickRule(f: Frame)
    ensures CLICK_THRESHOLD == 490.0
    ensures ClickAccepted(f) <==> f.pressed && f.mouseX >= 490.0
  {
  }

  /** The first frame of `frames` from `from` on whose click counts, if any. */
  function FirstAccepted(frames: seq<Frame>, from: nat): (r: Option<nat>)
    requires from <= |frames|
    ensures r.Some? ==> from <= r.value < |frames|
    decreases |frames| - from
  {
    if from == |frames| then None
    else if ClickAccepted(frames[from]) then Some(from)
    else FirstAccepted(frames, from + 1)
  }

  /** `FirstAccepted` finds the first accepted frame, and `None` means no frame from `from` on is accepted. */
  lemma {:induction false} FirstAcceptedIsFirst(frames: seq<Frame>, from: nat)
    requires from <= |frames|
    ensures var r := FirstAccepted(frames, from);
      (r.Some? ==> ClickAccepted(frames[r.value]) && forall j :: from <= j < r.value ==> !ClickAccepted(frames[j])) &&
      (r.None? ==> forall j :: from <= j < |frames| ==> !ClickAccepted(frames[j]))
    decreases |frames| - from
  {
    if from < |frames| && !ClickAccepted(frames[from]) {
      FirstAcceptedIsFirst(frames, from + 1);
    }
  }

  /**
   * Step 2 of `run_trial`, the `while not clicked` loop over the given
   * frames: the index of the frame whose click ends the loop, or `None` when
   * no frame's click counts.
   */
  method WaitForClick(frames: seq<Frame>) returns (clickFrame: Option<nat>)
    ensures clickFrame == FirstAccepted(frames, 0)
  {
    var i := 0;
    while i < |frames|
      invariant 0 <= i <= |frames|
      invariant FirstAccepted(frames, i) == FirstAccepted(frames, 0)
    {
      var cursorX := frames[i].mouseX;
      cursorX := Clamp(LEFT_EDGE, RIGHT_EDGE, cursorX);
      if frames[i].pressed && cursorX >= CLICK_THRESHOLD {
        return Some(i);
      }
      i := i + 1;
    }
    return None;
  }

  /** The VAS cursor for a mouse position: clamped to the scale. */
  function VasCursorX(mouseX: real): real {
    Clamp(VAS_LEFT_EDGE, VAS_RIGHT_EDGE, mouseX)
  }

  /** The rating of a click at mouse position `mouseX`: the cursor's offset from the left edge in percent of the scale, clamped to [0, 100]. */
  function VasRating(mouseX: real): real {
    Clamp(0.0, 100.0, ((VasCursorX(mouseX) - VAS_LEFT_EDGE) / VAS_WIDTH) * 100.0)
  }

  /**
   * Ratings lie in [0, 100]; the left edge rates 0, the centre 50 and the
   * right edge 100; a position left of the scale rates 0 and right of it 100;
   * on the scale the rating is the position's offset, so the position can be
   * read back from the rating; and a position further right never rates lower.
   */
  lemma {:induction false} VasRatingScale(mouseX: real, other: real)
    ensures 0.0 <= VasRating(mouseX) <= 100.0
    ensures VasRating(VAS_LEFT_EDGE) == 0.0 && VasRating(0.0) == 50.0 && VasRating(VAS_RIGHT_EDGE) == 100.0
    ensures mouseX <= VAS_LEFT_EDGE ==> VasRating(mouseX) == 0.0
    ensures mouseX >= VAS_RIGHT_EDGE ==> VasRating(mouseX) == 100.0
    ensures VAS_LEFT_EDGE <= mouseX <= VAS_RIGHT_EDGE ==>
      VAS_LEFT_EDGE + VasRating(mouseX) * VAS_WIDTH / 100.0 == mouseX
    ensures mouseX <= other ==> VasRating(mouseX) <= VasRating(other)
  {
  }

  /** The first pressed frame of `frames` from `from` on, if any. */
  function FirstPressed(frames: seq<Frame>, from: nat): (r: Option<nat>)
    requires from <= |frames|
    ensures r.Some? ==> from <= r.value < |frames|
    decreases |frames| - from
  {
    if from == |frames| then None
    else if frames[from].pressed then Some(from)
    else FirstPressed(frames, from + 1)
  }

  /** `FirstPressed` finds the first frame with the button down, and `None` means there is none. */
  lemma {:induction false} FirstPressedIsFirst(frames: seq<Frame>, from: nat)
    requires from <= |frames|
    ensures var r := FirstPressed(frames, from);
      (r.Some? ==> frames[r.value].pressed && forall j :: from <= j < r.value ==> !frames[j].pressed) &&
      (r.None? ==> forall j :: from <= j < |frames| ==> !frames[j].pressed)
    decreases |frames| - from
  {
    if from < |frames| && !frames[from].pressed {
      FirstPressedIsFirst(frames, from + 1);
    }
  }

  /** The rating the VAS loop records: the first press's rating, or `None` when no frame presses. */
  function RatingOf(frames: seq<Frame>): (r: Option<real>) {
    match FirstPressed(frames, 0)
    case None => None
    case Some(k) => Some(VasRating(frames[k].mouseX))
  }

  /** Any recorded rating is in [0, 100], and a rating is recorded exactly when some frame presses. */
  lemma {:induction false} RatingOfRange(frames: seq<Frame>)
    ensures RatingOf(frames).Some? ==> 0.0 <= RatingOf(frames).value <= 100.0
    ensures RatingOf(frames).Some? <==> exists j :: 0 <= j < |frames| && frames[j].pressed
  {
    FirstPressedIsFirst(frames, 0);
    var r := FirstPressed(frames, 0);
    if r.Some? {
      VasRatingScale(frames[r.value].mouseX, 0.0);
    }
  }

  /**
   * The `while not rating_obtained` loop of `_get_immediate_vas_rating` over
   * the given frames: the rating at the first press, or `None` when no frame
   * presses.
   */
  method GetImmediateVasRating(frames: seq<Frame>) returns (rating: Option<real>)
    ensures rating == RatingOf(frames)
  {
    var i := 0;
    while i < |frames|
      invariant 0 <= i <= |frames|
      invariant FirstPressed(frames, i) == FirstPressed(frames, 0)
    {
      var vasCursorX := frames[i].mouseX;
      vasCursorX := Clamp(VAS_LEFT_EDGE, VAS_RIGHT_EDGE, vasCursorX);
      if frames[i].pressed {
        var ratingValue := ((vasCursorX - VAS_LEFT_EDGE) / VAS_WIDTH) * 100.0;
        ratingValue := Clamp(0.0, 100.0, ratingValue);
        return Some(ratingValue);
      }
      i := i + 1;
    }
    return None;
  }

  /** One row of the saved data, without subject id, measured times and timestamp. */
  datatype RatingRecord = RatingRecord(
    trialNumber: nat, taskDelay: int, ansDelay: int, soaRating: real,
    step: string, condition: string, muDelay: int)

  /** The rows `run` appends: each sequence entry with its rating, step, condition and delay parameter. */
  function SessionRecords(infos: seq<TrialInfo>, ratings: seq<real>, condition: string, muDelay: int): (r: seq<RatingRecord>)
    requires |ratings| == |infos|
    ensures |r| == |infos|
  {
    seq(|infos|, i requires 0 <= i < |infos| =>
      RatingRecord(infos[i].trialNum, infos[i].taskDelay, infos[i].ansDelay, ratings[i],
        infos[i].step, condition, muDelay))
  }

  /** The experiment object: its condition, its delay parameter and the rows so far. */
  class ContinuousRatingExperiment {
    const condition: string
    const muDelay: int
    var trialData: seq<RatingRecord>

    constructor (condition: string, muDelay: int)
      ensures this.condition == condition && this.muDelay == muDelay && trialData == []
    {
      this.condition := condition;
      this.muDelay := muDelay;
      trialData := [];
    }

    /** `_generate_trial_sequence`: three loops of twenty appends. */
    method GenerateTrialSequence() returns (trialSequence: seq<TrialInfo>)
      requires KnownCondition(condition)
      ensures trialSequence == TrialSequence(condition, muDelay)
    {
      trialSequence := [];
      for i := 1 to 21
        invariant trialSequence == Phase(1, i - 1, STEP1, 0, 0)
      {
        trialSequence := trialSequence + [TrialInfo(i, STEP1, 0, 0)];
      }
      var taskDelay: int, ansDelay: int;
      if condition == "A" {
        taskDelay, ansDelay := 0, 0;
      } else if condition == "B" {
        taskDelay, ansDelay := muDelay, 0;
      } else if condition == "C" {
        taskDelay, ansDelay := muDelay, muDelay;
      }
      ghost var p1 := trialSequence;
      for i := 21 to 41
        invariant trialSequence == p1 + Phase(21, i - 21, STEP2, taskDelay, ansDelay)
      {
        trialSequence := trialSequence + [TrialInfo(i, STEP2, taskDelay, ansDelay)];
      }
      ghost var p2 := trialSequence;
      for i := 41 to 61
        invariant trialSequence == p2 + Phase(41, i - 41, STEP3, 0, 0)
      {
        trialSequence := trialSequence + [TrialInfo(i, STEP3, 0, 0)];
      }
    }

    /**
     * `run`: one row per sequence entry, in order, with the rating each trial
     * gave (`ratings`, one per trial), its step, the condition and `mu_delay`.
     */
    method Run(ratings: seq<real>)
      requires KnownCondition(condition) && |ratings| == 60
      modifies this
      ensures trialData == old(trialData) + SessionRecords(TrialSequence(condition, muDelay), ratings, condition, muDelay)
    {
      var trialSequence := GenerateTrialSequence();
      TrialSequenceShape(condition, muDelay);
      ghost var before := trialData;
      for k := 0 to |trialSequence|
        invariant trialData == before + SessionRecords(trialSequence[..k], ratings[..k], condition, muDelay)
      {
        var info := trialSequence[k];
        var row := RatingRecord(info.trialNum, info.taskDelay, info.ansDelay, ratings[k], info.step, condition, muDelay);
        assert trialSequence[..k + 1] == trialSequence[..k] + [info];
        assert ratings[..k + 1] == ratings[..k] + [ratings[k]];
        trialData := trialData + [row];
      }
      assert trialSequence[..60] == trialSequence && ratings[..60] == ratings;
    }
  }
}

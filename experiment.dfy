/**
 * One trial of the boundary-trigger experiment (experiment.py
 * `BoundaryTriggerExperiment.run_trial`): the trial state moves from
 * waiting for the start click, to moving towards the target, to waiting for
 * the tone. The boundary crossing is registered once; a Pre-tone trial
 * plays its tone at the crossing; the target click counts only after the
 * crossing; an Active trial schedules its tone at the click plus its delay
 * and waits for it for at most two seconds; and the SoA rating is asked
 * except in the practice and learning blocks.
 *
 * The mouse is an input: one `MouseFrame` per screen refresh, carrying the
 * clock readings `core.getTime()` of that refresh. In the `moving` loop the
 * scheduler is polled at the end of the refresh, and on an accepted click
 * only after the screen has been held for 0.2 s, so that poll has a reading
 * of its own. Drawing, the other waits between the phases, the ESC key and
 * the rating slider are not modelled; the slider's answer is a parameter.
 */
module Experiment {
  import opened Options
  import Config
  import Utils
  import opened Audio
  import Logger

  datatype TrialState = NoTrial | WaitingStart | Moving | WaitingSound

  /**
   * One screen refresh: the clock after the flip (the crossing and click
   * times), the mouse position, whether the left button is down, and the
   * clock at the `moving` loop's poll of the scheduler, which on an accepted
   * click follows the hold of `CLICK_HOLD` seconds.
   */
  datatype MouseFrame = MouseFrame(time: real, x: real, y: real, pressed: bool, pollTime: real)

  /** `core.wait(0.2)`: the screen is held this long after an accepted click, before the poll. */
  const CLICK_HOLD: real := 0.2

  /** The experiment's per-trial fields together with its tone scheduler's. */
  datatype Vars = Vars(
    state: TrialState,
    prevMouseX: Option<real>,
    boundaryCrossed: bool,
    clickTime: Option<real>,
    toneTime: Option<real>,
    boundaryCrossTime: Option<real>,
    audio: Schedule)

  /** The reset at the start of `run_trial`. */
  function Reset(v: Vars): Vars {
    Vars(WaitingStart, None, false, None, None, None, Cleared(v.audio))
  }

  /** Python's `sqrt(dx² + dy²) <= radius`, as the squared comparison (the radius is not negative). */
  predicate Within(x: real, y: real, centre: (real, real), radius: real) {
    (x - centre.0) * (x - centre.0) + (y - centre.1) * (y - centre.1) <= radius * radius
  }

  predicate InStart(f: MouseFrame) {
    Within(f.x, f.y, Config.START_POS, Config.START_RADIUS)
  }

  predicate InTarget(f: MouseFrame) {
    Within(f.x, f.y, Config.TARGET_POS, Config.TARGET_RADIUS)
  }

  /** One refresh of the `waiting_start` loop. */
  function StartStep(v: Vars, f: MouseFrame): Vars {
    if f.pressed && InStart(f) then v.(state := Moving, prevMouseX := Some(f.x)) else v
  }

  /** This refresh registers the crossing: not crossed yet, and the mouse went from left of the boundary to on or right of it. */
  predicate Crosses(v: Vars, f: MouseFrame) {
    !v.boundaryCrossed && v.prevMouseX.Some? && v.prevMouseX.value < Config.BOUNDARY_X && f.x >= Config.BOUNDARY_X
  }

  /** A trial's type and, for an Active trial, its delay: what the trial loop reads of `trial_info`. */
  predicate Playable(trialType: Utils.TrialType, delayMs: Option<int>) {
    trialType == Utils.Active ==> delayMs.Some?
  }

  /**
   * One refresh of the `moving` loop: the crossing check (a Pre-tone trial
   * plays at once), the new previous x, the target click (an Active trial
   * schedules its tone), and an Active trial's poll of the scheduler at the
   * refresh's poll reading.
   */
  function MoveStep(v: Vars, f: MouseFrame, trialType: Utils.TrialType, delayMs: Option<int>): Vars
    requires Playable(trialType, delayMs)
  {
    var v1 :=
      if Crosses(v, f) then
        if trialType == Utils.PreTone
        then v.(boundaryCrossed := true, boundaryCrossTime := Some(f.time), audio := PlayedNow(v.audio, f.time), toneTime := Some(f.time))
        else v.(boundaryCrossed := true, boundaryCrossTime := Some(f.time))
      else v;
    var v2 := v1.(prevMouseX := Some(f.x));
    var v3 :=
      if f.pressed && InTarget(f) && v2.boundaryCrossed then
        if trialType == Utils.Active
        then v2.(clickTime := Some(f.time), audio := Scheduled(v2.audio, delayMs.value as real, f.time), state := WaitingSound)
        else v2.(clickTime := Some(f.time), state := WaitingSound)
      else v2;
    if trialType == Utils.Active then
      var (a, played) := Poll(v3.audio, f.pollTime);
      if played then v3.(audio := a, toneTime := a.actual) else v3.(audio := a)
    else v3
  }

  /** One refresh of the tone wait: the poll, and whether the two-second timeout has passed. */
  function WaitStep(v: Vars, f: MouseFrame): (r: (Vars, bool))
    requires v.clickTime.Some?
    ensures r.0.clickTime == v.clickTime
  {
    var (a, played) := Poll(v.audio, f.time);
    var v1 := if played then v.(audio := a, toneTime := a.actual) else v.(audio := a);
    (v1, f.time - v.clickTime.value > 2.0)
  }

  /** The `waiting_start` loop over the given refreshes; still `WaitingStart` when they run out first. */
  function RunStart(v: Vars, frames: seq<MouseFrame>): (r: Vars)
    ensures v.state == WaitingStart ==> r.state == WaitingStart || r.state == Moving
    decreases |frames|
  {
    if frames == [] || v.state != WaitingStart then v else RunStart(StartStep(v, frames[0]), frames[1..])
  }

  /** The `moving` loop; it ends only in `WaitingSound` with a click time, and is still `Moving` when the refreshes run out first. */
  function RunMove(v: Vars, frames: seq<MouseFrame>, trialType: Utils.TrialType, delayMs: Option<int>): (r: Vars)
    requires Playable(trialType, delayMs)
    ensures v.state == Moving ==> r.state == Moving || (r.state == WaitingSound && r.clickTime.Some?)
    decreases |frames|
  {
    if frames == [] || v.state != Moving then v
    else RunMove(MoveStep(v, frames[0], trialType, delayMs), frames[1..], trialType, delayMs)
  }

  /** The tone wait: until the tone has played or the timeout passed; `false` when the refreshes run out first. */
  function RunWait(v: Vars, frames: seq<MouseFrame>): (r: (Vars, bool))
    requires v.clickTime.Some?
    decreases |frames|
  {
    if v.toneTime.Some? then (v, true)
    else if frames == [] then (v, false)
    else
      var (v1, timedOut) := WaitStep(v, frames[0]);
      if timedOut then (v1, true) else RunWait(v1, frames[1..])
  }

  /** The three loops of a trial; `false` when a loop's refreshes run out before it ends. */
  function TrialRun(v: Vars, trialType: Utils.TrialType, delayMs: Option<int>,
                    startFrames: seq<MouseFrame>, moveFrames: seq<MouseFrame>, waitFrames: seq<MouseFrame>): (Vars, bool)
    requires Playable(trialType, delayMs)
  {
    var v1 := RunStart(Reset(v), startFrames);
    if v1.state == WaitingStart then (v1, false)
    else
      var v2 := RunMove(v1, moveFrames, trialType, delayMs);
      if v2.state == Moving then (v2, false)
      else if trialType == Utils.Active && v2.toneTime.None? then RunWait(v2, waitFrames)
      else (v2, true)
  }

  /** The blocks whose trials ask for the SoA rating: all but 'practice' and 'learning'. */
  predicate ShowsRating(blockId: string) {
    blockId !in ["practice", "learning"]
  }

  /** `(t - start) * 1000 if t else None`: Python's truthiness makes a time of exactly 0 count as missing. */
  function MsSince(t: Option<real>, start: real): Logger.Value {
    if t.Some? && t.value != 0.0 then Logger.Num((t.value - start) * 1000.0) else Logger.Null
  }

  function OptionalInt(o: Option<int>): Logger.Value {
    if o.Some? then Logger.Num(o.value as real) else Logger.Null
  }

  function TypeName(t: Utils.TrialType): string {
    if t == Utils.Active then "Active" else "Pre-tone"
  }

  /** The `trial_data` dictionary `run_trial` hands to the logger. */
  function TrialRecord(trial: Utils.Trial, v: Vars, startTime: real, rating: real, endTime: real): Logger.Record {
    map[
      "trial_index_global" := (if trial.globalIndex.Some? then Logger.Num(trial.globalIndex.value as real) else Logger.Null),
      "trial_index_in_block" := Logger.Num(trial.indexInBlock as real),
      "block_id" := Logger.Str(trial.blockId),
      "trial_type" := Logger.Str(TypeName(trial.trialType)),
      "delay_ms" := OptionalInt(trial.delayMs),
      "scheduled_delay_ms" := OptionalInt(trial.delayMs),
      "t_click_ms" := MsSince(v.clickTime, startTime),
      "t_tone_ms" := MsSince(v.toneTime, startTime),
      "boundary_cross_time_ms" := MsSince(v.boundaryCrossTime, startTime),
      "soa_rating" := (if ShowsRating(trial.blockId) then Logger.Num(rating) else Logger.Null),
      "sigma" := OptionalInt(trial.sigma),
      "response_time_ms" := Logger.Num((endTime - startTime) * 1000.0)]
  }

  /** After the reset the trial waits for the start click with nothing recorded, and no poll plays a tone. */
  lemma {:induction false} ResetClears(v: Vars, now: real)
    ensures var w := Reset(v);
      w.state == WaitingStart && w.prevMouseX.None? && !w.boundaryCrossed &&
      w.clickTime.None? && w.toneTime.None? && w.boundaryCrossTime.None? &&
      w.audio.scheduled.None? && w.audio.actual.None? && Poll(w.audio, now) == (w.audio, false)
  {
  }

  /**
   * A refresh moves the trial from `waiting_start` to `moving` exactly when
   * the button is down inside the start circle, and then records the mouse
   * x, which lies at most 50 px from the circle's centre and so left of the
   * boundary; otherwise nothing changes.
   */
  lemma {:induction false} StartClickRule(v: Vars, f: MouseFrame)
    requires v.state == WaitingStart
    ensures StartStep(v, f).state == Moving <==> f.pressed && InStart(f)
    ensures StartStep(v, f).state == Moving ==>
      StartStep(v, f).prevMouseX == Some(f.x) && -250.0 <= f.x <= -150.0 && f.x < Config.BOUNDARY_X
    ensures StartStep(v, f).state != Moving ==> StartStep(v, f) == v
  {
    if f.pressed && InStart(f) {
      var dx := f.x - Config.START_POS.0;
      assert dx * dx <= 2500.0 by {
        assert (f.y - Config.START_POS.1) * (f.y - Config.START_POS.1) >= 0.0;
      }
    }
  }

  /**
   * In the `moving` loop the crossing is registered at most once: it is
   * set exactly when it was set before or this refresh crosses from left of
   * the boundary to on or right of it, its time is the crossing refresh's
   * and never changes afterwards, and the previous x becomes this refresh's x.
   */
  lemma {:induction false} CrossingRule(v: Vars, f: MouseFrame, trialType: Utils.TrialType, delayMs: Option<int>)
    requires v.state == Moving && Playable(trialType, delayMs)
    ensures var w := MoveStep(v, f, trialType, delayMs);
      (w.boundaryCrossed <==> v.boundaryCrossed || Crosses(v, f)) &&
      (v.boundaryCrossed ==> w.boundaryCrossTime == v.boundaryCrossTime) &&
      (Crosses(v, f) ==> w.boundaryCrossTime == Some(f.time)) &&
      (!Crosses(v, f) ==> w.boundaryCrossTime == v.boundaryCrossTime) &&
      w.prevMouseX == Some(f.x)
  {
  }

  /**
   * A Pre-tone trial plays its tone at the crossing refresh and records that
   * time as the tone time; at any other refresh its scheduler is untouched.
   */
  lemma {:induction false} PretonePlaysAtCrossing(v: Vars, f: MouseFrame, delayMs: Option<int>)
    requires v.state == Moving
    ensures var w := MoveStep(v, f, Utils.PreTone, delayMs);
      (Crosses(v, f) ==> w.toneTime == Some(f.time) && w.audio.actual == Some(f.time) && w.audio.plays == v.audio.plays + 1) &&
      (!Crosses(v, f) ==> w.audio == v.audio && w.toneTime == v.toneTime)
  {
  }

  /**
   * A refresh ends the `moving` loop exactly when the button is down inside
   * the target circle and the boundary has been crossed (by this refresh or
   * an earlier one), and then records the click time; a click before the
   * crossing changes neither the state nor the click time.
   */
  lemma {:induction false} ClickNeedsCrossing(v: Vars, f: MouseFrame, trialType: Utils.TrialType, delayMs: Option<int>)
    requires v.state == Moving && Playable(trialType, delayMs)
    ensures var w := MoveStep(v, f, trialType, delayMs);
      (w.state == WaitingSound <==> f.pressed && InTarget(f) && (v.boundaryCrossed || Crosses(v, f))) &&
      (w.state == WaitingSound ==> w.clickTime == Some(f.time)) &&
      (w.state != WaitingSound ==> w.state == Moving && w.clickTime == v.clickTime)
  {
  }

  /**
   * An accepted click in an Active trial schedules the tone at
   * `click + delay / 1000`; the same refresh's poll, after the hold, plays it
   * at the poll reading when that is already due, and otherwise leaves it
   * scheduled. So with the hold of 0.2 s every delay of at most 200 ms plays
   * at the poll, at least 0.2 s after the click, whatever the delay.
   */
  lemma {:induction false} ActiveClickSchedules(v: Vars, f: MouseFrame, d: int)
    requires v.state == Moving && f.pressed && InTarget(f) && (v.boundaryCrossed || Crosses(v, f))
    ensures var w := MoveStep(v, f, Utils.Active, Some(d));
      var s := f.time + d as real / 1000.0;
      w.state == WaitingSound && w.clickTime == Some(f.time) &&
      (f.pollTime >= s ==>
        w.toneTime == Some(f.pollTime) && w.audio.scheduled.None? && w.audio.plays == v.audio.plays + 1) &&
      (f.pollTime < s ==>
        w.audio.scheduled == Some(s) && w.toneTime == v.toneTime && w.audio.plays == v.audio.plays)
    ensures var w := MoveStep(v, f, Utils.Active, Some(d));
      f.pollTime >= f.time + CLICK_HOLD && d <= 200 ==>
        w.toneTime == Some(f.pollTime) && (w.toneTime.value - w.clickTime.value) * 1000.0 >= 200.0
  {
  }

  /**
   * The effect of the hold on the measured latency: when an Active trial's
   * tone plays in the click refresh (every delay of at most 200 ms), the
   * trial ends with that state, and the logged `actual_tone_latency_ms` is
   * at least 200 ms, not the delay.
   */
  lemma {:induction false} HeldClickLatency(trial: Utils.Trial, v: Vars, f: MouseFrame, d: int,
                                             startTime: real, rating: real, endTime: real)
    requires v.state == Moving && f.pressed && InTarget(f) && (v.boundaryCrossed || Crosses(v, f))
    requires f.pollTime >= f.time + CLICK_HOLD && d <= 200 && f.time != 0.0 && f.pollTime != 0.0
    ensures var w := MoveStep(v, f, Utils.Active, Some(d));
      var latency := Logger.WithDerived(TrialRecord(trial, w, startTime, rating, endTime))["actual_tone_latency_ms"];
      w.toneTime.Some? && latency.Num? && latency.x >= 200.0
  {
    var w := MoveStep(v, f, Utils.Active, Some(d));
    ActiveClickSchedules(v, f, d);
    LoggedLatency(trial, w, startTime, rating, endTime);
    assert (w.toneTime.value - w.clickTime.value) * 1000.0 >= 200.0;
  }

  /** The first refresh at which the tone wait ends: the scheduled time `s` is reached, or two seconds after click `c` have passed. */
  function WaitEnd(frames: seq<MouseFrame>, s: real, c: real): (r: Option<nat>)
    ensures r.Some? ==> r.value < |frames|
  {
    if frames == [] then None
    else if frames[0].time >= s || frames[0].time - c > 2.0 then Some(0)
    else match WaitEnd(frames[1..], s, c)
      case None => None
      case Some(k) => Some(k + 1)
  }

  /**
   * With the tone scheduled at `s` after a click at `c`, the wait ends at the
   * first refresh that reaches `s` or is more than two seconds after the
   * click; the tone has then played exactly when that refresh reached `s`,
   * at that refresh's time.
   */
  lemma {:induction false} WaitEnds(v: Vars, frames: seq<MouseFrame>, s: real, c: real)
    requires v.toneTime.None? && v.audio.scheduled == Some(s) && v.clickTime == Some(c)
    ensures var (w, ended) := RunWait(v, frames);
      var k := WaitEnd(frames, s, c);
      (ended <==> k.Some?) &&
      (k.Some? ==> (w.toneTime.Some? <==> frames[k.value].time >= s)) &&
      (k.Some? && w.toneTime.Some? ==> w.toneTime == Some(frames[k.value].time) && w.toneTime.value >= s)
    decreases |frames|
  {
    if frames != [] {
      var (v1, timedOut) := WaitStep(v, frames[0]);
      if !(frames[0].time >= s || frames[0].time - c > 2.0) {
        assert v1 == v;
        WaitEnds(v, frames[1..], s, c);
      }
    }
  }

  /**
   * The rating is asked in every block of the 'original' preset but its
   * learning block, and its record holds the rating exactly then.
   */
  lemma {:induction false} RatingSkipRule(trial: Utils.Trial, v: Vars, startTime: real, rating: real, endTime: real)
    ensures ShowsRating(trial.blockId) <==> trial.blockId != "practice" && trial.blockId != "learning"
    ensures !ShowsRating("learning") && ShowsRating("stable1") && ShowsRating("volatile") && ShowsRating("stable2")
    ensures TrialRecord(trial, v, startTime, rating, endTime)["soa_rating"] ==
      if ShowsRating(trial.blockId) then Logger.Num(rating) else Logger.Null
  {
  }

  /**
   * What the logger derives from a trial's record: the latency is the time
   * from the click to the tone in milliseconds.
   */
  lemma {:induction false} LoggedLatency(trial: Utils.Trial, v: Vars, startTime: real, rating: real, endTime: real)
    ensures Logger.NumericTimes(TrialRecord(trial, v, startTime, rating, endTime))
    ensures v.clickTime.Some? && v.clickTime.value != 0.0 && v.toneTime.Some? && v.toneTime.value != 0.0 ==>
      Logger.WithDerived(TrialRecord(trial, v, startTime, rating, endTime))["actual_tone_latency_ms"] ==
        Logger.Num((v.toneTime.value - v.clickTime.value) * 1000.0)
  {
    var r := TrialRecord(trial, v, startTime, rating, endTime);
    RecordFields(trial, v, startTime, rating, endTime);
    Logger.DerivedFields(r);
  }

  /** ... and an Active trial's epsilon is its delay minus the centre delay, while a Pre-tone trial has none. */
  lemma {:induction false} LoggedEpsilon(trial: Utils.Trial, v: Vars, startTime: real, rating: real, endTime: real)
    requires Logger.NumericTimes(TrialRecord(trial, v, startTime, rating, endTime))
    ensures trial.trialType == Utils.Active && trial.delayMs.Some? ==>
      Logger.WithDerived(TrialRecord(trial, v, startTime, rating, endTime))["epsilon_k"] ==
        Logger.Num(trial.delayMs.value as real - Config.MU_0 as real)
    ensures trial.trialType == Utils.PreTone ==>
      Logger.WithDerived(TrialRecord(trial, v, startTime, rating, endTime))["epsilon_k"] == Logger.Null
  {
    var r := TrialRecord(trial, v, startTime, rating, endTime);
    RecordFields(trial, v, startTime, rating, endTime);
    Logger.DerivedFields(r);
  }

  /** The fields of a trial's record that the logger derives from. */
  lemma {:induction false} RecordFields(trial: Utils.Trial, v: Vars, startTime: real, rating: real, endTime: real)
    ensures var r := TrialRecord(trial, v, startTime, rating, endTime);
      Logger.Get(r, "t_click_ms") == MsSince(v.clickTime, startTime) &&
      Logger.Get(r, "t_tone_ms") == MsSince(v.toneTime, startTime) &&
      Logger.Get(r, "delay_ms") == OptionalInt(trial.delayMs) &&
      Logger.Get(r, "trial_type") == Logger.Str(TypeName(trial.trialType))
  {
  }

  /** The experiment object: its scheduler, its logger and the per-trial fields `run_trial` updates. */
  class BoundaryTriggerExperiment {
    const audio: AudioScheduler
    const logger: Logger.DataLogger
    const trials: seq<Utils.Trial>
    var trialState: TrialState
    var prevMouseX: Option<real>
    var boundaryCrossed: bool
    var clickTime: Option<real>
    var toneTime: Option<real>
    var boundaryCrossTime: Option<real>

    function State(): Vars
      reads this, audio
    {
      Vars(trialState, prevMouseX, boundaryCrossed, clickTime, toneTime, boundaryCrossTime, audio.State())
    }

    /** The plan of `create_all_trials(seed, preset)`, built once. */
    constructor (participantId: string, seed: nat, preset: Option<string>)
      requires seed < 0x1_0000_0000
      ensures State() == Vars(NoTrial, None, false, None, None, None, Idle)
      ensures fresh(audio) && fresh(logger) && logger.data == []
      ensures trials == Utils.Plan(seed, preset)
    {
      audio := new AudioScheduler();
      logger := new Logger.DataLogger(participantId, seed);
      var plan := Utils.CreateAllTrials(seed, preset);
      trials := plan;
      trialState := NoTrial;
      prevMouseX := None;
      boundaryCrossed := false;
      clickTime := None;
      toneTime := None;
      boundaryCrossTime := None;
    }

    method StartTrial()
      modifies this, audio
      ensures State() == Reset(old(State()))
    {
      trialState := WaitingStart;
      prevMouseX := None;
      boundaryCrossed := false;
      clickTime := None;
      toneTime := None;
      boundaryCrossTime := None;
      audio.Reset();
    }

    /** The body of the `waiting_start` loop. */
    method StartFrame(f: MouseFrame)
      modifies this
      ensures State() == StartStep(old(State()), f)
    {
      if f.pressed {
        if InStart(f) {
          trialState := Moving;
          prevMouseX := Some(f.x);
        }
      }
    }

    /** The body of the `moving` loop. */
    method MoveFrame(f: MouseFrame, trialType: Utils.TrialType, delayMs: Option<int>)
      requires Playable(trialType, delayMs)
      modifies this, audio
      ensures State() == MoveStep(old(State()), f, trialType, delayMs)
    {
      var currentX := f.x;
      if !boundaryCrossed && prevMouseX.Some? {
        if prevMouseX.value < Config.BOUNDARY_X && currentX >= Config.BOUNDARY_X {
          boundaryCrossed := true;
          boundaryCrossTime := Some(f.time);
          if trialType == Utils.PreTone {
            audio.PlayImmediately(f.time);
            toneTime := Some(f.time);
          }
        }
      }
      prevMouseX := Some(currentX);
      if f.pressed {
        if InTarget(f) {
          if boundaryCrossed {
            clickTime := Some(f.time);
            if trialType == Utils.Active {
              audio.ScheduleTone(delayMs.value as real, f.time);
            }
            trialState := WaitingSound;
          }
        }
      }
      if trialType == Utils.Active {
        var played := audio.PlayIfReady(f.pollTime);
        if played {
          toneTime := audio.GetActualPlayTime();
        }
      }
    }

    /** The body of the tone wait: `true` once the timeout has passed. */
    method WaitFrame(f: MouseFrame) returns (timedOut: bool)
      requires clickTime.Some?
      modifies this, audio
      ensures (State(), timedOut) == WaitStep(old(State()), f)
    {
      var played := audio.PlayIfReady(f.time);
      if played {
        toneTime := audio.GetActualPlayTime();
      }
      timedOut := f.time - clickTime.value > 2.0;
    }

    /** The `waiting_start` loop, over the given refreshes. */
    method WaitForStart(frames: seq<MouseFrame>)
      modifies this
      ensures State() == RunStart(old(State()), frames)
    {
      var i := 0;
      while i < |frames| && trialState == WaitingStart
        invariant 0 <= i <= |frames|
        invariant RunStart(State(), frames[i..]) == RunStart(old(State()), frames)
      {
        assert frames[i..][1..] == frames[i + 1..];
        StartFrame(frames[i]);
        i := i + 1;
      }
    }

    /** The `moving` loop, over the given refreshes. */
    method MoveToTarget(frames: seq<MouseFrame>, trialType: Utils.TrialType, delayMs: Option<int>)
      requires Playable(trialType, delayMs)
      modifies this, audio
      ensures State() == RunMove(old(State()), frames, trialType, delayMs)
    {
      var i := 0;
      while i < |frames| && trialState == Moving
        invariant 0 <= i <= |frames|
        invariant RunMove(State(), frames[i..], trialType, delayMs) == RunMove(old(State()), frames, trialType, delayMs)
      {
        assert frames[i..][1..] == frames[i + 1..];
        MoveFrame(frames[i], trialType, delayMs);
        i := i + 1;
      }
    }

    /** The tone wait, over the given refreshes; `false` when they run out first. */
    method WaitForTone(frames: seq<MouseFrame>) returns (ended: bool)
      requires clickTime.Some?
      modifies this, audio
      ensures (State(), ended) == RunWait(old(State()), frames)
    {
      var i := 0;
      while toneTime.None?
        invariant 0 <= i <= |frames| && clickTime.Some?
        invariant RunWait(State(), frames[i..]) == RunWait(old(State()), frames)
        decreases |frames| - i
      {
        if i == |frames| {
          return false;
        }
        assert frames[i..][1..] == frames[i + 1..];
        var timedOut := WaitFrame(frames[i]);
        i := i + 1;
        if timedOut {
          return true;
        }
      }
      return true;
    }

    /**
     * `run_trial` for `trial`, with the refreshes each loop sees, the clock at
     * the trial's start and end, and the slider's answer. `false`, with
     * nothing logged, when a loop's refreshes run out before it ends.
     */
    method RunTrial(trial: Utils.Trial, startTime: real, startFrames: seq<MouseFrame>, moveFrames: seq<MouseFrame>,
                    waitFrames: seq<MouseFrame>, rating: real, endTime: real) returns (completed: bool)
      requires Playable(trial.trialType, trial.delayMs)
      modifies this, audio, logger
      ensures (State(), completed) ==
        TrialRun(old(State()), trial.trialType, trial.delayMs, startFrames, moveFrames, waitFrames)
      ensures logger.data == old(logger.data) +
        (if completed then [Logger.WithDerived(TrialRecord(trial, State(), startTime, rating, endTime))] else [])
    {
      StartTrial();
      WaitForStart(startFrames);
      if trialState == WaitingStart {
        return false;
      }
      MoveToTarget(moveFrames, trial.trialType, trial.delayMs);
      if trialState == Moving {
        return false;
      }
      if trial.trialType == Utils.Active && toneTime.None? {
        completed := WaitForTone(waitFrames);
        if !completed {
          return false;
        }
      }
      var trialData := TrialRecord(trial, State(), startTime, rating, endTime);
      LoggedLatency(trial, State(), startTime, rating, endTime);
      logger.AddTrial(trialData);
      return true;
    }
  }
}

/**
 * The non-blocking tone scheduler (audio.py `AudioScheduler`).
 *
 * Times are seconds as reals; the clock `core.getTime()` that the scheduler
 * reads is the parameter `now`. Playing the tone (`ToneGenerator.play`) is an
 * effect the model records only as a count of plays.
 */
module Audio {
  import opened Options

  /** The scheduler's fields as a value: the pending tone time, the last play time, and how often it played. */
  datatype Schedule = Schedule(scheduled: Option<real>, actual: Option<real>, plays: nat)

  const Idle: Schedule := Schedule(None, None, 0)

  /** `schedule_tone(delay_ms, reference_time)`. */
  function Scheduled(s: Schedule, delayMs: real, referenceTime: real): Schedule {
    s.(scheduled := Some(referenceTime + delayMs / 1000.0))
  }

  /** `play_if_ready(now)`: the new fields and whether it played. */
  function Poll(s: Schedule, now: real): (r: (Schedule, bool))
    ensures r.1 <==> s.scheduled.Some? && now >= s.scheduled.value
  {
    if s.scheduled.None? then (s, false)
    else if now >= s.scheduled.value then (Schedule(None, Some(now), s.plays + 1), true)
    else (s, false)
  }

  /** `play_immediately(now)`: plays, and leaves the pending tone alone. */
  function PlayedNow(s: Schedule, now: real): Schedule {
    Schedule(s.scheduled, Some(now), s.plays + 1)
  }

  /** `reset()`. */
  function Cleared(s: Schedule): Schedule {
    s.(scheduled := None, actual := None)
  }

  /**
   * Scheduling sets the pending time to `reference + delay / 1000` and plays
   * nothing; scheduling again overwrites it without complaint.
   */
  lemma {:induction false} ScheduleOverwrites(s: Schedule, d1: real, ref1: real, d2: real, ref2: real)
    ensures Scheduled(s, d1, ref1).scheduled == Some(ref1 + d1 / 1000.0)
    ensures Scheduled(s, d1, ref1).actual == s.actual && Scheduled(s, d1, ref1).plays == s.plays
    ensures Scheduled(Scheduled(s, d1, ref1), d2, ref2) == Scheduled(s, d2, ref2)
  {
  }

  /** With nothing scheduled, or before the scheduled time, a poll plays nothing and changes nothing. */
  lemma {:induction false} PollWaits(s: Schedule, now: real)
    requires s.scheduled.None? || now < s.scheduled.value
    ensures Poll(s, now) == (s, false)
  {
  }

  /**
   * At or after the scheduled time a poll plays once, records `now` as the
   * play time and clears the schedule, so every later poll returns false until
   * the tone is scheduled again.
   */
  lemma {:induction false} PollPlaysOnce(s: Schedule, now: real, later: real)
    requires s.scheduled.Some? && now >= s.scheduled.value
    ensures var (s1, played) := Poll(s, now);
      played && s1.actual == Some(now) && s1.scheduled.None? && s1.plays == s.plays + 1 &&
      Poll(s1, later) == (s1, false)
  {
  }

  /**
   * A tone scheduled `delayMs` after `click` (a non-negative delay) plays at
   * the first poll at or after `click + delayMs / 1000`, and not before.
   */
  lemma {:induction false} ScheduledToneTiming(s: Schedule, delayMs: real, click: real, now: real)
    ensures Poll(Scheduled(s, delayMs, click), now).1 <==> now >= click + delayMs / 1000.0
    ensures delayMs >= 0.0 && now < click ==> !Poll(Scheduled(s, delayMs, click), now).1
  {
  }

  /** Playing immediately records `now` and keeps the pending time; reset clears both times. */
  lemma {:induction false} ImmediateAndCleared(s: Schedule, now: real)
    ensures PlayedNow(s, now).actual == Some(now) && PlayedNow(s, now).scheduled == s.scheduled
    ensures PlayedNow(s, now).plays == s.plays + 1
    ensures Cleared(s).scheduled.None? && Cleared(s).actual.None? && Cleared(s).plays == s.plays
    ensures Poll(Cleared(s), now) == (Cleared(s), false)
  {
  }

  /** The scheduler object whose methods update its two time fields in place. */
  class AudioScheduler {
    var scheduledTime: Option<real>
    var actualPlayTime: Option<real>
    /** How often `ToneGenerator.play` was called. */
    var plays: nat

    function State(): Schedule
      reads this
    {
      Schedule(scheduledTime, actualPlayTime, plays)
    }

    constructor ()
      ensures State() == Idle
    {
      scheduledTime := None;
      actualPlayTime := None;
      plays := 0;
    }

    method ScheduleTone(delayMs: real, referenceTime: real)
      modifies this
      ensures State() == Scheduled(old(State()), delayMs, referenceTime)
    {
      scheduledTime := Some(referenceTime + delayMs / 1000.0);
    }

    method PlayIfReady(now: real) returns (played: bool)
      modifies this
      ensures (State(), played) == Poll(old(State()), now)
    {
      if scheduledTime.None? {
        return false;
      }
      if now >= scheduledTime.value {
        plays := plays + 1;
        actualPlayTime := Some(now);
        scheduledTime := None;
        return true;
      }
      return false;
    }

    method PlayImmediately(now: real)
      modifies this
      ensures State() == PlayedNow(old(State()), now)
    {
      plays := plays + 1;
      actualPlayTime := Some(now);
    }

    method Reset()
      modifies this
      ensures State() == Cleared(old(State()))
    {
      scheduledTime := None;
      actualPlayTime := None;
    }

    method GetActualPlayTime() returns (t: Option<real>)
      ensures t == State().actual
    {
      t := actualPlayTime;
    }
  }

  /**
   * An Active trial's tone on one scheduler: scheduled at a click, polled
   * before its time, at its time and once more; it plays exactly once, at the
   * first poll that reaches its time.
   */
  method ActiveToneScenario(click: real, delayMs: real) returns (first: bool, second: bool, third: bool, playedAt: Option<real>)
    requires delayMs > 0.0
    ensures !first && second && !third
    ensures playedAt == Some(click + delayMs / 1000.0)
  {
    var scheduler := new AudioScheduler();
    scheduler.ScheduleTone(delayMs, click);
    first := scheduler.PlayIfReady(click);
    second := scheduler.PlayIfReady(click + delayMs / 1000.0);
    third := scheduler.PlayIfReady(click + delayMs / 1000.0 + 1.0);
    playedAt := scheduler.GetActualPlayTime();
  }
}

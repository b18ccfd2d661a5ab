/**
 * The countdown of a motion-sensor step. Each UI tick polls the step, which
 * re-reads the recorder's clock and recomputes the seconds remaining against
 * the step's fixed duration.
 */
module Countdown {
  import opened Wrappers

  /** What a poll reports: the clock reading and whether the countdown has just reached zero. */
  datatype Tick = Tick(currentTime: real, isFinished: bool)

  /** One poll: its report (none when the poll is skipped) and the countdown afterwards. */
  datatype Poll = Poll(tick: Option<Tick>, countdown: real)

  function Max(a: real, b: real): real
  {
    if a >= b then a else b
  }

  /** `updateCountdown()` with the paused flag, the current countdown and the clock reading `time`. */
  function UpdateCountdownStep(isPaused: bool, countdown: real, duration: real, time: real): (r: Poll)
    ensures isPaused || countdown <= 0.0 ==> r == Poll(None, countdown)
    ensures !isPaused && 0.0 < countdown ==>
      && r.tick == Some(Tick(time, r.countdown == 0.0))
      && 0.0 <= r.countdown
      && (r.countdown == 0.0 <==> duration <= time)
      && (0.0 < r.countdown ==> r.countdown + time == duration)
    ensures 0.0 <= time && 0.0 <= countdown <= duration ==> 0.0 <= r.countdown <= duration
  {
    if isPaused || countdown <= 0.0 then
      Poll(None, countdown)
    else
      var c := Max(0.0, duration - time);
      Poll(Some(Tick(time, c == 0.0)), c)
  }

  /** A poll as the environment issues it: paused or not, and the clock reading at that moment. */
  datatype Reading = Reading(isPaused: bool, time: real)

  /** The countdown after each of a series of polls, starting from `countdown`. */
  function CountdownTrace(countdown: real, duration: real, rs: seq<Reading>): (cs: seq<real>)
    ensures |cs| == |rs|
    decreases |rs|
  {
    if rs == [] then []
    else
      var c := UpdateCountdownStep(rs[0].isPaused, countdown, duration, rs[0].time).countdown;
      [c] + CountdownTrace(c, duration, rs[1..])
  }

  /** The countdown in force just before poll `i`. */
  function Before(countdown: real, cs: seq<real>, i: nat): real
    requires i <= |cs|
  {
    if i == 0 then countdown else cs[i - 1]
  }

  ghost predicate ClockNonDecreasing(rs: seq<Reading>)
  {
    forall i, j :: 0 <= i < j < |rs| ==> rs[i].time <= rs[j].time
  }

  /**
   * While the clock does not run backwards, polling never raises the
   * countdown, a paused poll leaves it as it was, and it stays in
   * [0, duration]. The starting countdown must be no less than the first
   * reading implies, as it is right after a reset (countdown == duration).
   */
  lemma {:induction false} CountdownNeverIncreases(countdown: real, duration: real, rs: seq<Reading>)
    requires ClockNonDecreasing(rs)
    requires rs != [] ==> Max(0.0, duration - rs[0].time) <= countdown
    ensures var cs := CountdownTrace(countdown, duration, rs);
      && (forall i :: 0 <= i < |cs| ==> cs[i] <= Before(countdown, cs, i))
      && (forall i :: 0 <= i < |cs| && rs[i].isPaused ==> cs[i] == Before(countdown, cs, i))
    ensures (forall i :: 0 <= i < |rs| ==> 0.0 <= rs[i].time) && 0.0 <= countdown <= duration ==>
      var cs := CountdownTrace(countdown, duration, rs);
      forall i :: 0 <= i < |cs| ==> 0.0 <= cs[i] <= duration
    decreases |rs|
  {
    if rs != [] {
      var c := UpdateCountdownStep(rs[0].isPaused, countdown, duration, rs[0].time).countdown;
      var tail := rs[1..];
      assert ClockNonDecreasing(tail) by {
        forall i, j | 0 <= i < j < |tail| ensures tail[i].time <= tail[j].time {
          assert tail[i] == rs[i + 1] && tail[j] == rs[j + 1];
        }
      }
      if tail != [] {
        assert rs[0].time <= tail[0].time by { assert tail[0] == rs[1]; }
      }
      CountdownNeverIncreases(c, duration, tail);
      var cs := CountdownTrace(countdown, duration, rs);
      var rest := CountdownTrace(c, duration, tail);
      assert cs == [c] + rest;
      forall i | 0 < i < |cs| ensures cs[i] == rest[i - 1] && Before(countdown, cs, i) == Before(c, rest, i - 1) && rs[i] == tail[i - 1] {
      }
    }
  }
}

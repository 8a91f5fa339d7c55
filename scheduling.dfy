/**
 * The wake-time decision of the morning job.
 *
 * Instants and durations are integers counted in nanoseconds since the Unix
 * epoch.  The job aims at sunrise minus thirty minutes, measures the signed
 * wait from "now" to that target, truncates it toward zero to whole seconds,
 * and sleeps for that many seconds only when the count is strictly positive.
 * chrono subtracts two date-times as instants and ignores their UTC offsets,
 * so converting sunrise to local time (even across an overnight change of
 * offset) does not change the wait, and time zones play no part here.
 */
module Scheduling {

  const NanosPerSecond: int := 1_000_000_000

  /** How long before sunrise the lights go off: thirty minutes. */
  const LeadSeconds: int := 30 * 60

  /** Sunrise minus thirty minutes. */
  function TargetTime(sunrise: int): (target: int)
    ensures sunrise - target == 1_800_000_000_000
  {
    sunrise - LeadSeconds * NanosPerSecond
  }

  /**
   * The whole number of seconds in a signed duration given in nanoseconds,
   * truncated toward zero as chrono's `num_seconds` does (Dafny's own `/`
   * rounds toward negative infinity, so negative durations are mirrored).
   */
  function WholeSeconds(d: int): (s: int)
    ensures d >= 0 ==> 0 <= s * NanosPerSecond <= d < (s + 1) * NanosPerSecond
    ensures d < 0 ==> (s - 1) * NanosPerSecond < d <= s * NanosPerSecond <= 0
  {
    if d >= 0 then d / NanosPerSecond else -((-d) / NanosPerSecond)
  }

  /** What the job does before turning the lights off. */
  datatype Decision = SleepFor(seconds: nat) | ActNow

  /**
   * Sleep for the truncated whole-second wait when it is strictly positive,
   * otherwise act at once.  A sleep length is never zero, which is what makes
   * the unsigned cast before sleeping harmless.
   */
  function Decide(sunrise: int, now: int): (d: Decision)
    ensures d.SleepFor? ==> d.seconds > 0
  {
    var wait := WholeSeconds(TargetTime(sunrise) - now);
    if wait > 0 then SleepFor(wait) else ActNow
  }

  /**
   * The job sleeps exactly when sunrise is at least thirty minutes and one
   * second away; a sub-second remainder alone never causes a sleep.
   */
  lemma SleepsIffAtLeastOneSecondAhead(sunrise: int, now: int)
    ensures Decide(sunrise, now).SleepFor?
        <==> sunrise - now >= (LeadSeconds + 1) * NanosPerSecond
  {
    var d := TargetTime(sunrise) - now;
    var w := WholeSeconds(d);
    if d >= NanosPerSecond {
      assert w >= 1 by {
        assert d < (w + 1) * NanosPerSecond;
      }
    } else if d >= 0 {
      assert w == 0 by {
        assert 0 <= w * NanosPerSecond < NanosPerSecond;
      }
    }
  }

  /**
   * The requested sleep length `n` is the whole seconds from now to the
   * target: `now + n` seconds is no later than the target and less than one
   * second before it. This bounds the request only: the scheduling insert
   * runs between the clock reading and the sleep, and a timer may fire late.
   */
  lemma SleepEndsWithinASecondOfTarget(sunrise: int, now: int)
    requires Decide(sunrise, now).SleepFor?
    ensures var n := Decide(sunrise, now).seconds;
      now + n * NanosPerSecond <= sunrise - LeadSeconds * NanosPerSecond < now + (n + 1) * NanosPerSecond
  {
  }

  /**
   * When the job acts at once, the target is less than a second away or
   * already past.
   */
  lemma ActNowWhenTargetNotASecondAhead(sunrise: int, now: int)
    requires Decide(sunrise, now).ActNow?
    ensures sunrise - LeadSeconds * NanosPerSecond - now < NanosPerSecond
  {
    SleepsIffAtLeastOneSecondAhead(sunrise, now);
  }

  /**
   * The decision depends only on the distance between sunrise and now. The
   * subtraction works on instants and ignores each side's UTC offset, so a
   * sunrise and a clock reading taken under different offsets (a daylight
   * saving change overnight) give the same wait as their UTC forms.
   */
  lemma DecisionDependsOnlyOnDistance(sunrise: int, now: int, shift: int)
    ensures Decide(sunrise + shift, now + shift) == Decide(sunrise, now)
  {
  }

  /** Sunrise at 05:30:00Z, now at 04:00:00Z on 2024-06-01: sleep one hour. */
  lemma OneHourAheadExample()
    ensures Decide(1_717_219_800 * NanosPerSecond, 1_717_214_400 * NanosPerSecond) == SleepFor(3600)
  {
  }

  /** Half a second before the target, and half a second after it: act at once. */
  lemma SubSecondExamples()
    ensures Decide(2000 * NanosPerSecond, 200 * NanosPerSecond - 500_000_000) == ActNow
    ensures Decide(2000 * NanosPerSecond, 200 * NanosPerSecond + 500_000_000) == ActNow
  {
  }
}

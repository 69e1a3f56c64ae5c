/**
 * The A/B-test timer panel: how a number of seconds is printed, and when the time left reads
 * "Timeout". The backend sends whole seconds, so the durations here are integers.
 */
module TestTimer {
  import opened Wrappers
  import opened Externals
  import opened Strings
  import opened State
  import opened WorkflowsApi

  /** JavaScript's `%`: the remainder takes the sign of the dividend. */
  function JsRem(a: int, b: int): (r: int)
    requires b > 0
    ensures a >= 0 ==> r == a % b
    ensures a < 0 ==> -b < r <= 0
  {
    if a >= 0 then a % b else -((-a) % b)
  }

  /** The three numbers `formatDuration` prints. `Math.floor(x / b)` of an integer is Dafny's `x / b` for `b > 0`. */
  datatype DurationParts = DurationParts(hours: int, minutes: int, secs: int)

  function Parts(seconds: int): (p: DurationParts)
    ensures seconds >= 0 ==>
      && p.hours * 3600 + p.minutes * 60 + p.secs == seconds
      && p.hours >= 0 && 0 <= p.minutes < 60 && 0 <= p.secs < 60
    ensures seconds < 0 ==> p.hours < 0 && p.minutes <= 0 && p.secs <= 0
  {
    var p := DurationParts(seconds / 3600, JsRem(seconds, 3600) / 60, JsRem(seconds, 60));
    if seconds >= 0 then
      PartsAddUp(seconds);
      p
    else p
  }

  /** Hours, minutes and seconds of a non-negative count add back up to it. */
  lemma PartsAddUp(s: nat)
    ensures (s / 3600) * 3600 + (s % 3600 / 60) * 60 + s % 60 == s
    ensures 0 <= s % 3600 / 60 < 60
  {
    var h := s / 3600;
    var r := s % 3600;
    var m := r / 60;
    assert s == h * 3600 + r;
    assert r == m * 60 + r % 60;
    assert s == (h * 60 + m) * 60 + r % 60;
    assert s % 60 == r % 60;
  }

  /** `formatDuration`: hours only when there are any, minutes when there are hours or minutes. */
  function FormatDuration(seconds: int): (r: string)
    ensures seconds >= 3600 ==>
      r == IntToString(seconds / 3600) + "h " + IntToString(seconds % 3600 / 60) + "m " + IntToString(seconds % 60) + "s"
    ensures 60 <= seconds < 3600 ==> r == IntToString(seconds / 60) + "m " + IntToString(seconds % 60) + "s"
    ensures seconds < 60 ==> r == IntToString(JsRem(seconds, 60)) + "s"
    ensures r != [] && r[|r| - 1] == 's'
  {
    var p := Parts(seconds);
    if p.hours > 0 then IntToString(p.hours) + "h " + IntToString(p.minutes) + "m " + IntToString(p.secs) + "s"
    else if p.minutes > 0 then IntToString(p.minutes) + "m " + IntToString(p.secs) + "s"
    else IntToString(p.secs) + "s"
  }

  /** `isTimeout` */
  predicate IsTimeout(remaining: int) {
    remaining <= 0
  }

  /** The text in the "Remaining" row. */
  function RemainingText(remaining: int): (r: string)
    ensures r == "Timeout" <==> IsTimeout(remaining)
    ensures !IsTimeout(remaining) ==> r == FormatDuration(remaining)
  {
    if IsTimeout(remaining) then "Timeout"
    else
      var d := FormatDuration(remaining);
      assert d[|d| - 1] != "Timeout"[6];
      d
  }

  /**
   * Fed by the status endpoint, the panel reads "Timeout" exactly when less than one second of
   * the 72 hours is left.
   */
  lemma TimerShowsTimeoutAtDeadline(workflowId: string, a: ABTestState, now: real)
    ensures var st := AbStatus(workflowId, Some(a), now).value;
      RemainingText(st.estimatedTimeRemaining) == "Timeout" <==> now - a.startedAt > (MaxDurationSeconds - 1) as real
  {
    var elapsed := now - a.startedAt;
    if elapsed < MaxDurationSeconds as real {
      TruncTowardZero(MaxDurationSeconds as real - elapsed);
    }
  }
}

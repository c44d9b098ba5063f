/**
 * Properties of the engine's abstract view: the due-check's arithmetic, repeated
 * launches, and the launch / remind scenarios of the rating policy.
 */
module DynamicRatingProperties {
  import opened JavaInt
  import opened Optional
  import Rating
  import opened DynamicRating

  /** With a non-negative interval, a timestamp in the future is never due. */
  lemma FutureTimestampNeverDue(now: Int64, millis: Int64, threshold: Int32)
    requires now < millis && 0 <= threshold <= MaxExactDays && MinLong <= now - millis
    ensures !IsDueDate(now, millis, threshold)
  {
  }

  /**
   * Beyond MaxExactDays the `int` product wraps: an interval of Integer.MAX_VALUE days
   * becomes -1 day, so every past timestamp is due although far fewer days have passed.
   */
  lemma MaxIntIntervalWraps(now: Int64, millis: Int64)
    requires 0 <= now - millis <= MaxLong
    ensures IsDueDate(now, millis, MaxInt)
    ensures now - millis < MaxInt * DayMillis ==> !DueByDate(now, millis, MaxInt)
  {
    assert WrapInt(MaxInt * 24) == -24;
    assert WrapInt(WrapInt(WrapInt(MaxInt * 24) * 60) * 60) == -86400;
  }

  /** The record after one launch at each time of `nows`, in order. */
  function Launches(st: Record, nows: seq<Int64>): Record
    decreases |nows|
  {
    if nows == [] then st else Launches(Launch(st, nows[0]), nows[1..])
  }

  /**
   * Repeated launches never move a recorded first launch, never change the request
   * flag, and count exactly one per launch while requesting and none otherwise.
   */
  lemma {:induction false} RepeatedLaunches(st: Record, nows: seq<Int64>)
    ensures RequestOf(Launches(st, nows)) == RequestOf(st)
    ensures Launches(st, nows).lastReminder == st.lastReminder
    ensures FirstLaunchOf(st) != Rating.ValueFirstLaunch ==>
              FirstLaunchOf(Launches(st, nows)) == FirstLaunchOf(st)
    ensures FirstLaunchOf(st) == Rating.ValueFirstLaunch && nows != [] && nows[0] != Rating.ValueFirstLaunch ==>
              FirstLaunchOf(Launches(st, nows)) == nows[0]
    ensures RequestOf(st) && LaunchCountOf(st) + |nows| <= MaxInt ==>
              LaunchCountOf(Launches(st, nows)) == LaunchCountOf(st) + |nows|
    ensures !RequestOf(st) ==> LaunchCountOf(Launches(st, nows)) == LaunchCountOf(st)
    decreases |nows|
  {
    if nows != [] {
      RepeatedLaunches(Launch(st, nows[0]), nows[1..]);
    }
  }

  /**
   * A fresh base key with the default thresholds: four launches are not enough. After
   * the fifth the rating is due once two days have passed since the first launch and
   * since the last-reminder default was fixed. The query that fixes that default
   * measures no time against it, so it is never due: the rating comes at the earliest
   * from a later query, two days on, in the same process.
   */
  lemma FifthLaunchMakesDue(t0: Int64, now: Int64, fixedAt: Int64)
    requires 0 < t0 && 0 <= fixedAt
    requires now >= t0 + 2 * DayMillis && now >= fixedAt + 2 * DayMillis
    ensures LaunchCountOf(Launches(Fresh, [t0, t0, t0, t0])) == 4
    ensures !ShouldRateAt(Launches(Fresh, [t0, t0, t0, t0]), DefaultThresholds, now, Some(fixedAt)).0
    ensures LaunchCountOf(Launches(Fresh, [t0, t0, t0, t0, t0])) == 5
    ensures FirstLaunchOf(Launches(Fresh, [t0, t0, t0, t0, t0])) == t0
    ensures ShouldRateAt(Launches(Fresh, [t0, t0, t0, t0, t0]), DefaultThresholds, now, Some(fixedAt)).0
    ensures ShouldRateAt(Launches(Fresh, [t0, t0, t0, t0, t0]), DefaultThresholds, now, None) == (false, Some(now))
  {
    RepeatedLaunches(Fresh, [t0, t0, t0, t0]);
    RepeatedLaunches(Fresh, [t0, t0, t0, t0, t0]);
  }

  /**
   * The other direction: after five launches, a query less than the remind interval
   * after the last-reminder default was fixed is not due, however long ago the first
   * launch was.
   */
  lemma FifthLaunchWaitsForDefault(t0: Int64, now: Int64, fixedAt: Int64)
    requires 0 < t0 && 0 <= fixedAt <= now < fixedAt + 2 * DayMillis
    ensures !ShouldRateAt(Launches(Fresh, [t0, t0, t0, t0, t0]), DefaultThresholds, now, Some(fixedAt)).0
  {
    RepeatedLaunches(Fresh, [t0, t0, t0, t0, t0]);
  }

  /**
   * After "remind me later" the engine is still requesting with a count of zero, and
   * it is not due again until both the launch count and the reminder interval are
   * met anew, whatever it was before.
   */
  lemma {:induction false} RemindDefers(st: Record, cfg: Thresholds, now: Int64, nows: seq<Int64>, later: Int64, lastReminderDefault: Int64)
    ensures RequestOf(Launches(Respond(st, true, now), nows))
    ensures |nows| <= MaxInt ==> LaunchCountOf(Launches(Respond(st, true, now), nows)) == |nows|
    ensures |nows| < cfg.rateCount ==> !Eligible(Launches(Respond(st, true, now), nows), cfg, later, lastReminderDefault)
    ensures 0 < cfg.remindInterval <= MaxExactDays && now <= later < now + cfg.remindInterval * DayMillis ==>
              !Eligible(Launches(Respond(st, true, now), nows), cfg, later, lastReminderDefault)
  {
    var r := Respond(st, true, now);
    RepeatedLaunches(r, nows);
    assert LastReminderOf(Launches(r, nows), lastReminderDefault) == now;
  }
}

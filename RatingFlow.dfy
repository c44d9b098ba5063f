/**
 * The engine as an application drives it: `initialize` at every launch, and a prompt
 * shown only when ShouldRateDialog holds, whose answer the listener forwards to
 * SetReminder. Along such runs opting out is terminal.
 */
module RatingFlow {
  import opened JavaInt
  import opened Optional
  import Rating
  import opened DynamicPreferences
  import opened DynamicRating
  import opened DynamicRatingListener
  import opened DynamicRatingProperties

  /**
   * What can happen to a base key: a launch, or a query of ShouldRateDialog at `now`
   * whose dialog, when shown, gets `answer`.
   */
  datatype Event =
    | AppLaunched(now: Int64)
    | PromptAnswered(now: Int64, answer: Answer)

  /** A base key's record, and the process's last-reminder default (None until first read). */
  datatype Session = Session(record: Record, reminderDefault: Option<Int64>)

  /** One event: the dialog is shown, and so answered, only while the rating is due. */
  function Step(s: Session, cfg: Thresholds, e: Event): Session {
    match e
    case AppLaunched(now) => s.(record := Launch(s.record, now))
    case PromptAnswered(now, answer) =>
      var (due, fixed) := ShouldRateAt(s.record, cfg, now, s.reminderDefault);
      Session(if due then Respond(s.record, ReminderFor(answer), now) else s.record, fixed)
  }

  function Run(s: Session, cfg: Thresholds, events: seq<Event>): Session
    decreases |events|
  {
    if events == [] then s
    else Run(Step(s, cfg, events[0]), cfg, events[1..])
  }

  /**
   * Once the engine has stopped requesting, no run of launches and prompts makes it
   * request again, the launch count never changes, and the rating is never due,
   * whatever the last-reminder default is.
   */
  lemma {:induction false} OptedOutStaysOut(s: Session, cfg: Thresholds, events: seq<Event>)
    requires !RequestOf(s.record)
    ensures !RequestOf(Run(s, cfg, events).record)
    ensures LaunchCountOf(Run(s, cfg, events).record) == LaunchCountOf(s.record)
    ensures forall now: Int64, d: Int64 :: !Eligible(Run(s, cfg, events).record, cfg, now, d)
    decreases |events|
  {
    if events != [] {
      var next := Step(s, cfg, events[0]);
      assert !RequestOf(next.record) && LaunchCountOf(next.record) == LaunchCountOf(s.record);
      OptedOutStaysOut(next, cfg, events[1..]);
    }
  }

  /**
   * Rating, giving feedback or choosing "never" at a due prompt stops the engine for
   * good: whatever launches and prompts follow, it is never due again. A prompt that
   * is not due is not shown; at most it fixes the last-reminder default.
   */
  lemma AnsweredForGood(s: Session, cfg: Thresholds, now: Int64, answer: Answer, events: seq<Event>)
    requires !ReminderFor(answer)
    ensures ShouldRateAt(s.record, cfg, now, s.reminderDefault).0 ==>
              && !RequestOf(Run(s, cfg, [PromptAnswered(now, answer)] + events).record)
              && LaunchCountOf(Run(s, cfg, [PromptAnswered(now, answer)] + events).record) == 0
              && forall later: Int64, d: Int64 ::
                   !Eligible(Run(s, cfg, [PromptAnswered(now, answer)] + events).record, cfg, later, d)
    ensures !ShouldRateAt(s.record, cfg, now, s.reminderDefault).0 ==>
              Run(s, cfg, [PromptAnswered(now, answer)] + events)
              == Run(s.(reminderDefault := ShouldRateAt(s.record, cfg, now, s.reminderDefault).1), cfg, events)
  {
    assert ([PromptAnswered(now, answer)] + events)[1..] == events;
    var (due, fixed) := ShouldRateAt(s.record, cfg, now, s.reminderDefault);
    if due {
      OptedOutStaysOut(Session(Respond(s.record, false, now), fixed), cfg, events);
    }
  }

  /**
   * The first query of a process for a base key never reminded is never due (with a
   * remind interval of at least one day): it fixes the default to its own time.
   */
  lemma FirstQueryOfProcessNotShown(s: Session, cfg: Thresholds, now: Int64, answer: Answer)
    requires s.reminderDefault.None? && s.record.lastReminder.None?
    requires 0 < cfg.remindInterval <= MaxExactDays
    ensures Step(s, cfg, PromptAnswered(now, answer)).record == s.record
    ensures Step(s, cfg, PromptAnswered(now, answer)).reminderDefault.Some? ==>
              Step(s, cfg, PromptAnswered(now, answer)).reminderDefault == Some(now)
  {
  }

  /**
   * The last-reminder default is one per process, not one per base key. Take two base
   * keys, each launched five times at `t0` and never reminded. A query under the first
   * at `t` reaches the reminder read and fixes the default; two days later a query
   * under the second is due, where its own first query at that time would not be.
   */
  lemma SharedDefaultCouplesBaseKeys(t0: Int64, t: Int64)
    requires 0 < t0 && t >= t0 + 2 * DayMillis && t + 2 * DayMillis <= MaxLong
    ensures var st := Launches(Fresh, [t0, t0, t0, t0, t0]);
            var d := ShouldRateAt(st, DefaultThresholds, t, None).1;
            ShouldRateAt(st, DefaultThresholds, t + 2 * DayMillis, d).0
            && !ShouldRateAt(st, DefaultThresholds, t + 2 * DayMillis, None).0
  {
    RepeatedLaunches(Fresh, [t0, t0, t0, t0, t0]);
  }

  /**
   * A direct SetReminder(true) restarts requesting even after an opt-out: only the
   * guarded runs above keep the opt-out terminal.
   */
  lemma DirectRemindReactivates(st: Record, now: Int64, later: Int64)
    ensures !RequestOf(Respond(st, false, now))
    ensures RequestOf(Respond(Respond(st, false, now), true, later))
  {
  }

  /**
   * Two engines with different base keys over one store: launching and answering with
   * one leaves the other's entries as they were.
   */
  method IndependentBaseKeys(now: Int64, remind: bool)
  {
    var prefs := new DynamicPreferences();
    var lastReminderDefault := new Rating.LastReminderValue();
    var a := new DynamicRating(prefs, lastReminderDefault);
    a.SetBaseKey(Some("a_"));
    var b := new DynamicRating(prefs, lastReminderDefault);
    b.SetBaseKey(Some("b_"));
    b.Initialize(now);
    var before := b.ShouldRate(now);
    ghost var state := b.State();
    a.Initialize(now);
    a.SetReminder(remind, now);
    assert b.State() == state;
    var after := b.ShouldRate(now);
    assert after == before;
  }
}

/**
 * The rating engine: eligibility queries over the persisted counters and timestamps
 * of one base key, and the two mutators that update them at each launch and after
 * the user answers a prompt.
 *
 * The persisted entries of one base key are also given an abstract view, Record,
 * with the transitions Launch and Respond and the eligibility predicate Eligible;
 * the class DynamicRating is proved to read and write its store exactly as these say.
 */
module DynamicRating {
  import opened JavaInt
  import opened Optional
  import Rating
  import opened DynamicPreferences

  /** Milliseconds in a day. */
  const DayMillis: int := 24 * 60 * 60 * 1000

  /** Largest number of days whose seconds the source computes without `int` overflow. */
  const MaxExactDays: int := 24855

  /** The intended due-check: at least `days` whole days have passed from `since` to `now`. */
  predicate DueByDate(now: int, since: int, days: int) {
    now - since >= days * DayMillis
  }

  /**
   * The due-check as the source computes it: `threshold * 24 * 60 * 60` is evaluated in
   * `int`, one multiplication at a time, then widened and multiplied by `1000L`; the
   * elapsed time `now - millis` is a `long` subtraction.
   */
  function IsDueDate(now: Int64, millis: Int64, threshold: Int32): (r: bool)
    ensures -MaxExactDays <= threshold <= MaxExactDays && MinLong <= now - millis <= MaxLong ==>
              (r <==> DueByDate(now, millis, threshold))
  {
    var seconds := WrapInt(WrapInt(WrapInt(threshold * 24) * 60) * 60);
    WrapLong(now - millis) >= WrapLong(seconds * 1000)
  }

  /** The store key of `suffix` under `base`. */
  function KeyOf(base: string, suffix: string): (k: string)
    ensures |k| == |base| + |suffix| && k[..|base|] == base && k[|base|..] == suffix
  {
    base + suffix
  }

  /** Every key the engine can touch while its base key is `base`. */
  function KeysUnder(base: string): set<string> {
    set s | s in Rating.KeySuffixes :: KeyOf(base, s)
  }

  /** A key built from `base` and one suffix ends with no other suffix. */
  lemma KeyEndsOnlyWithItsSuffix(base: string, s: string, t: string)
    requires s in Rating.KeySuffixes && t in Rating.KeySuffixes
    requires Rating.EndsWith(KeyOf(base, s), t)
    ensures s == t
  {
    var k := KeyOf(base, s);
    assert Rating.EndsWith(k, s);
    var (shorter, longer) := if |s| <= |t| then (s, t) else (t, s);
    Rating.EndsWithBoth(k, shorter, longer);
    Rating.KeySuffixesSuffixFree();
  }

  /** Distinct base keys or distinct suffixes never give the same store key. */
  lemma KeyInjective(b1: string, s1: string, b2: string, s2: string)
    requires s1 in Rating.KeySuffixes && s2 in Rating.KeySuffixes
    ensures KeyOf(b1, s1) == KeyOf(b2, s2) <==> b1 == b2 && s1 == s2
  {
    var k := KeyOf(b2, s2);
    if KeyOf(b1, s1) == k {
      assert k[|k| - |s1|..] == s1;
      KeyEndsOnlyWithItsSuffix(b2, s2, s1);
      assert b1 == k[..|b1|] == b2;
    }
  }

  /** The kind of value the source stores under each suffix. */
  predicate Fits(suffix: string, v: StoredValue) {
    if suffix == Rating.KeyLaunchCount then v.IntValue?
    else if suffix == Rating.KeyIsRequest then v.BoolValue?
    else v.LongValue?
  }

  /** Every entry whose key ends with one of the five suffixes holds that suffix's kind. */
  ghost predicate WellTyped(p: Partition) {
    forall k, s | k in p && s in Rating.KeySuffixes && Rating.EndsWith(k, s) :: Fits(s, p[k])
  }

  lemma SaveKeepsWellTyped(p: Partition, base: string, s: string, v: StoredValue)
    requires WellTyped(p) && s in Rating.KeySuffixes && Fits(s, v)
    ensures WellTyped(p[KeyOf(base, s) := v])
  {
    var q := p[KeyOf(base, s) := v];
    forall k, t | k in q && t in Rating.KeySuffixes && Rating.EndsWith(k, t)
      ensures Fits(t, q[k])
    {
      if k == KeyOf(base, s) {
        KeyEndsOnlyWithItsSuffix(base, s, t);
      }
    }
  }

  /** Writing an entry inside `touched` leaves the entries outside it as they were. */
  lemma UpdateInside(p: Partition, k: string, v: StoredValue, touched: set<string>)
    requires k in touched
    ensures p[k := v] - touched == p - touched
  {
  }

  /**
   * Deleting the entry of one suffix makes that field of the record absent, keeps the
   * other fields and the entries outside `touched`, and cannot break WellTyped.
   */
  lemma DeleteEntry(p: Partition, base: string, s: string, touched: set<string>)
    requires s in Rating.KeySuffixes && KeyOf(base, s) in touched
    ensures (p - {KeyOf(base, s)}) - touched == p - touched
    ensures WellTyped(p) ==> WellTyped(p - {KeyOf(base, s)})
    ensures s == Rating.KeyLaunchCount ==>
              StateOf(p - {KeyOf(base, s)}, base) == StateOf(p, base).(launchCount := None)
    ensures s == Rating.KeyLastReminder ==>
              StateOf(p - {KeyOf(base, s)}, base) == StateOf(p, base).(lastReminder := None)
  {
    Rating.KeySuffixesDistinct();
    forall t | t in Rating.KeySuffixes && t != s
      ensures KeyOf(base, t) != KeyOf(base, s)
    {
      KeyInjective(base, t, base, s);
    }
  }

  /**
   * The persisted entries of one base key; None where the entry is absent (or holds a
   * value of another kind, which WellTyped rules out).
   */
  datatype Record = Record(
    firstLaunch: Option<Int64>,
    lastReminder: Option<Int64>,
    launchCount: Option<Int32>,
    isRequest: Option<bool>)

  /** A base key that has never been written. */
  const Fresh: Record := Record(None, None, None, None)

  /** The thresholds: days since first launch, launches, days since the last reminder. */
  datatype Thresholds = Thresholds(rateInterval: Int32, rateCount: Int32, remindInterval: Int32)

  const DefaultThresholds: Thresholds :=
    Thresholds(Rating.DefaultRateInterval, Rating.DefaultRateCount, Rating.DefaultRemindInterval)

  /** What the engine reads for each entry: the stored value, or the entry's default. */
  function FirstLaunchOf(st: Record): Int64 {
    st.firstLaunch.GetOr(Rating.ValueFirstLaunch)
  }

  function LastReminderOf(st: Record, lastReminderDefault: Int64): Int64 {
    st.lastReminder.GetOr(lastReminderDefault)
  }

  function LaunchCountOf(st: Record): Int32 {
    st.launchCount.GetOr(Rating.ValueLaunchCount)
  }

  function RequestOf(st: Record): bool {
    st.isRequest.GetOr(Rating.ValueIsRequest)
  }

  /** The record of base key `base` in partition `p`. */
  function StateOf(p: Partition, base: string): Record {
    Record(
      GetLong(p, KeyOf(base, Rating.KeyFirstLaunch)),
      GetLong(p, KeyOf(base, Rating.KeyLastReminder)),
      GetInt(p, KeyOf(base, Rating.KeyLaunchCount)),
      GetBool(p, KeyOf(base, Rating.KeyIsRequest)))
  }

  /** A record depends only on the entries under its own base key. */
  lemma {:induction false} StateOfOtherBase(p1: Partition, p2: Partition, touched: set<string>, b1: string, b2: string)
    requires touched <= KeysUnder(b1) && b1 != b2
    requires p1 - touched == p2 - touched
    ensures StateOf(p1, b2) == StateOf(p2, b2)
  {
    forall s | s in Rating.KeySuffixes
      ensures KeyOf(b2, s) !in touched
    {
      if KeyOf(b2, s) in touched {
        var t :| t in Rating.KeySuffixes && KeyOf(b1, t) == KeyOf(b2, s);
        KeyInjective(b1, t, b2, s);
      }
    }
    forall s | s in Rating.KeySuffixes
      ensures (KeyOf(b2, s) in p1 <==> KeyOf(b2, s) in p2)
      ensures KeyOf(b2, s) in p1 ==> p1[KeyOf(b2, s)] == p2[KeyOf(b2, s)]
    {
      var k := KeyOf(b2, s);
      assert k in p1 <==> k in p1 - touched;
      assert k in p2 <==> k in p2 - touched;
      if k in p1 {
        assert p1[k] == (p1 - touched)[k];
      }
    }
  }

  /** The first step of a launch: record the first launch while it reads as unset. */
  function RecordFirstLaunchOf(st: Record, now: Int64): Record {
    if FirstLaunchOf(st) == Rating.ValueFirstLaunch then st.(firstLaunch := Some(now)) else st
  }

  /** The second step of a launch: count it while requesting, in `int` arithmetic. */
  function CountLaunchOf(st: Record): Record {
    if RequestOf(st) then st.(launchCount := Some(WrapInt(LaunchCountOf(st) + 1))) else st
  }

  /** Launch: record the first launch if unset, count the launch while requesting. */
  function Launch(st: Record, now: Int64): (r: Record)
    ensures RequestOf(r) == RequestOf(st) && r.isRequest == st.isRequest
    ensures r.lastReminder == st.lastReminder
    ensures FirstLaunchOf(st) == Rating.ValueFirstLaunch ==> FirstLaunchOf(r) == now
    ensures FirstLaunchOf(st) != Rating.ValueFirstLaunch ==> r.firstLaunch == st.firstLaunch
    ensures RequestOf(st) ==> LaunchCountOf(r) == WrapInt(LaunchCountOf(st) + 1)
    ensures RequestOf(st) && LaunchCountOf(st) < MaxInt ==> LaunchCountOf(r) == LaunchCountOf(st) + 1
    ensures !RequestOf(st) ==> r.launchCount == st.launchCount
  {
    CountLaunchOf(RecordFirstLaunchOf(st, now))
  }

  /** Respond: the user answered or dismissed a prompt; `remind` keeps the engine requesting. */
  function Respond(st: Record, remind: bool, now: Int64): (r: Record)
    ensures RequestOf(r) == remind
    ensures r.launchCount == None && LaunchCountOf(r) == 0
    ensures remind ==> r.lastReminder == Some(now)
    ensures !remind ==> r.lastReminder == None
    ensures r.firstLaunch == st.firstLaunch
  {
    var saved := st.(isRequest := Some(remind), lastReminder := Some(now));
    var counted := saved.(launchCount := None);
    if remind then counted else counted.(lastReminder := None)
  }

  /** The first three conjuncts of the rating rule; the last reminder is read only after them. */
  predicate ReachesReminder(st: Record, cfg: Thresholds, now: Int64) {
    && RequestOf(st)
    && IsDueDate(now, FirstLaunchOf(st), cfg.rateInterval)
    && LaunchCountOf(st) >= cfg.rateCount
  }

  /** The conjunction the source evaluates, with its fixed-width arithmetic. */
  predicate Eligible(st: Record, cfg: Thresholds, now: Int64, lastReminderDefault: Int64) {
    && ReachesReminder(st, cfg, now)
    && IsDueDate(now, LastReminderOf(st, lastReminderDefault), cfg.remindInterval)
  }

  /** The intended rule, in exact arithmetic: requesting, and every threshold met. */
  predicate DueExactly(st: Record, cfg: Thresholds, now: Int64, lastReminderDefault: Int64) {
    && RequestOf(st)
    && DueByDate(now, FirstLaunchOf(st), cfg.rateInterval)
    && LaunchCountOf(st) >= cfg.rateCount
    && DueByDate(now, LastReminderOf(st, lastReminderDefault), cfg.remindInterval)
  }

  /** The intervals and elapsed times are small enough that no Java arithmetic overflows. */
  predicate NoOverflow(st: Record, cfg: Thresholds, now: Int64, lastReminderDefault: Int64) {
    && -MaxExactDays <= cfg.rateInterval <= MaxExactDays
    && -MaxExactDays <= cfg.remindInterval <= MaxExactDays
    && MinLong <= now - FirstLaunchOf(st) <= MaxLong
    && MinLong <= now - LastReminderOf(st, lastReminderDefault) <= MaxLong
  }

  /**
   * The rating decision at `now` and the last-reminder default after it, given the
   * default before it (None while it has never been read). The default is read, and
   * so fixed, only when the first three conjuncts hold.
   */
  function ShouldRateAt(st: Record, cfg: Thresholds, now: Int64, fixed: Option<Int64>): (result: (bool, Option<Int64>))
    ensures result.0 <==> result.1.Some? && Eligible(st, cfg, now, result.1.value)
    ensures result.1.Some? <==> fixed.Some? || ReachesReminder(st, cfg, now)
    ensures fixed.Some? ==> result == (Eligible(st, cfg, now, fixed.value), fixed)
    ensures fixed.None? && result.1.Some? ==> result.1 == Some(now)
    ensures fixed.None? && st.lastReminder.None? && 0 < cfg.remindInterval <= MaxExactDays ==> !result.0
    ensures result.0 ==> RequestOf(st)
  {
    if ReachesReminder(st, cfg, now) then
      var d := fixed.GetOr(now);
      (IsDueDate(now, LastReminderOf(st, d), cfg.remindInterval), Some(d))
    else
      (false, fixed)
  }

  class DynamicRating {
    /** The store; every entry of the engine lives in its partition Rating.Prefs. */
    const prefs: DynamicPreferences

    /** Default of the last-reminder entry, fixed at its first read and shared by every engine. */
    const lastReminderDefault: Rating.LastReminderValue

    var baseKey: Option<string>
    var rateInterval: Int32
    var rateCount: Int32
    var remindInterval: Int32

    constructor (prefs: DynamicPreferences, lastReminderDefault: Rating.LastReminderValue)
      ensures this.prefs == prefs && this.lastReminderDefault == lastReminderDefault
      ensures baseKey == None && BaseKey() == Rating.KeyBase
      ensures Config() == DefaultThresholds
    {
      this.prefs := prefs;
      this.lastReminderDefault := lastReminderDefault;
      baseKey := None;
      rateInterval := Rating.DefaultRateInterval;
      rateCount := Rating.DefaultRateCount;
      remindInterval := Rating.DefaultRemindInterval;
    }

    function Config(): Thresholds
      reads this
    {
      Thresholds(rateInterval, rateCount, remindInterval)
    }

    function BaseKey(): (r: string)
      reads this
      ensures baseKey == None ==> r == Rating.KeyBase
      ensures baseKey != None ==> r == baseKey.value
    {
      if baseKey.Some? then baseKey.value else Rating.KeyBase
    }

    method SetBaseKey(baseKey: Option<string>)
      modifies this
      ensures this.baseKey == baseKey && Config() == old(Config())
    {
      this.baseKey := baseKey;
    }

    method SetRateInterval(interval: Int32)
      modifies this
      ensures Config() == old(Config()).(rateInterval := interval) && baseKey == old(baseKey)
    {
      rateInterval := interval;
    }

    method SetRateCount(count: Int32)
      modifies this
      ensures Config() == old(Config()).(rateCount := count) && baseKey == old(baseKey)
    {
      rateCount := count;
    }

    method SetRemindInterval(interval: Int32)
      modifies this
      ensures Config() == old(Config()).(remindInterval := interval) && baseKey == old(baseKey)
    {
      remindInterval := interval;
    }

    /** The store key of `key` under the current base key. */
    function Key(key: string): (r: string)
      reads this
      ensures |r| == |BaseKey()| + |key| && r[..|BaseKey()|] == BaseKey() && r[|BaseKey()|..] == key
      ensures key in Rating.KeySuffixes ==> r in KeysUnder(BaseKey())
    {
      KeyOf(BaseKey(), key)
    }

    /** The engine's partition of the store. */
    ghost function Entries(): Partition
      reads this, prefs
    {
      prefs.File(Rating.Prefs)
    }

    /** The entries of the current base key. */
    ghost function State(): Record
      reads this, prefs
    {
      StateOf(Entries(), BaseKey())
    }

    function FirstLaunch(): (r: Int64)
      reads this, prefs
      ensures r == FirstLaunchOf(State())
    {
      prefs.LoadLong(Rating.Prefs, Key(Rating.KeyFirstLaunch), Rating.ValueFirstLaunch)
    }

    /** Reads the last reminder; the default is read, and so fixed, even when an entry exists. */
    method LastReminder(now: Int64) returns (r: Int64)
      modifies lastReminderDefault
      ensures lastReminderDefault.fixed == Some(old(lastReminderDefault.fixed).GetOr(now))
      ensures r == LastReminderOf(State(), lastReminderDefault.fixed.value)
    {
      var d := lastReminderDefault.Read(now);
      r := prefs.LoadLong(Rating.Prefs, Key(Rating.KeyLastReminder), d);
    }

    function LaunchCount(): (r: Int32)
      reads this, prefs
      ensures r == LaunchCountOf(State())
    {
      prefs.LoadInt(Rating.Prefs, Key(Rating.KeyLaunchCount), Rating.ValueLaunchCount)
    }

    function IsRequest(): (r: bool)
      reads this, prefs
      ensures r == RequestOf(State())
    {
      prefs.LoadBool(Rating.Prefs, Key(Rating.KeyIsRequest), Rating.ValueIsRequest)
    }

    method SetFirstLaunch(millis: Int64)
      modifies prefs
      ensures State() == old(State()).(firstLaunch := Some(millis))
      ensures Entries() == old(Entries())[Key(Rating.KeyFirstLaunch) := LongValue(millis)]
      ensures prefs.files - {Rating.Prefs} == old(prefs.files) - {Rating.Prefs}
      ensures old(WellTyped(Entries())) ==> WellTyped(Entries())
    {
      ghost var p := Entries();
      prefs.Save(Rating.Prefs, Key(Rating.KeyFirstLaunch), LongValue(millis));
      Rating.KeySuffixesDistinct();
      if WellTyped(p) {
        SaveKeepsWellTyped(p, BaseKey(), Rating.KeyFirstLaunch, LongValue(millis));
      }
    }

    method SetLastReminder(millis: Int64)
      modifies prefs
      ensures State() == old(State()).(lastReminder := Some(millis))
      ensures Entries() == old(Entries())[Key(Rating.KeyLastReminder) := LongValue(millis)]
      ensures prefs.files - {Rating.Prefs} == old(prefs.files) - {Rating.Prefs}
      ensures old(WellTyped(Entries())) ==> WellTyped(Entries())
    {
      ghost var p := Entries();
      prefs.Save(Rating.Prefs, Key(Rating.KeyLastReminder), LongValue(millis));
      Rating.KeySuffixesDistinct();
      if WellTyped(p) {
        SaveKeepsWellTyped(p, BaseKey(), Rating.KeyLastReminder, LongValue(millis));
      }
    }

    method SetLaunchCount(count: Int32)
      modifies prefs
      ensures State() == old(State()).(launchCount := Some(count))
      ensures Entries() == old(Entries())[Key(Rating.KeyLaunchCount) := IntValue(count)]
      ensures prefs.files - {Rating.Prefs} == old(prefs.files) - {Rating.Prefs}
      ensures old(WellTyped(Entries())) ==> WellTyped(Entries())
    {
      ghost var p := Entries();
      prefs.Save(Rating.Prefs, Key(Rating.KeyLaunchCount), IntValue(count));
      Rating.KeySuffixesDistinct();
      if WellTyped(p) {
        SaveKeepsWellTyped(p, BaseKey(), Rating.KeyLaunchCount, IntValue(count));
      }
    }

    method SetRequest(request: bool)
      modifies prefs
      ensures State() == old(State()).(isRequest := Some(request))
      ensures Entries() == old(Entries())[Key(Rating.KeyIsRequest) := BoolValue(request)]
      ensures prefs.files - {Rating.Prefs} == old(prefs.files) - {Rating.Prefs}
      ensures old(WellTyped(Entries())) ==> WellTyped(Entries())
    {
      ghost var p := Entries();
      prefs.Save(Rating.Prefs, Key(Rating.KeyIsRequest), BoolValue(request));
      Rating.KeySuffixesDistinct();
      if WellTyped(p) {
        SaveKeepsWellTyped(p, BaseKey(), Rating.KeyIsRequest, BoolValue(request));
      }
    }

    /** True while the first-launch entry still reads as the "unset" sentinel. */
    function IsFirstLaunch(): (r: bool)
      reads this, prefs
      ensures r <==> FirstLaunchOf(State()) == Rating.ValueFirstLaunch
      ensures State().firstLaunch == None ==> r
    {
      FirstLaunch() == Rating.ValueFirstLaunch
    }

    function IsDueRating(now: Int64): (r: bool)
      reads this, prefs
      ensures r == IsDueDate(now, FirstLaunchOf(State()), rateInterval)
      ensures -MaxExactDays <= rateInterval <= MaxExactDays && MinLong <= now - FirstLaunchOf(State()) <= MaxLong ==>
                (r <==> now - FirstLaunchOf(State()) >= rateInterval * DayMillis)
    {
      IsDueDate(now, FirstLaunch(), rateInterval)
    }

    function IsDueCount(): (r: bool)
      reads this, prefs
      ensures r <==> LaunchCountOf(State()) >= rateCount
    {
      LaunchCount() >= rateCount
    }

    /** The due-check of the last reminder; it fixes the last-reminder default if unread. */
    method IsDueReminder(now: Int64) returns (r: bool)
      modifies lastReminderDefault
      ensures lastReminderDefault.fixed == Some(old(lastReminderDefault.fixed).GetOr(now))
      ensures r == IsDueDate(now, LastReminderOf(State(), lastReminderDefault.fixed.value), remindInterval)
      ensures -MaxExactDays <= remindInterval <= MaxExactDays
              && MinLong <= now - LastReminderOf(State(), lastReminderDefault.fixed.value) <= MaxLong ==>
                (r <==> now - LastReminderOf(State(), lastReminderDefault.fixed.value) >= remindInterval * DayMillis)
    {
      var last := LastReminder(now);
      r := IsDueDate(now, last, remindInterval);
    }

    /**
     * Whether to ask for a rating now. It never writes the store; the conjunction
     * short-circuits, so the last-reminder default is read only when the first three
     * conjuncts hold.
     */
    method ShouldRate(now: Int64) returns (r: bool)
      modifies lastReminderDefault
      ensures (r, lastReminderDefault.fixed) == ShouldRateAt(State(), Config(), now, old(lastReminderDefault.fixed))
      ensures lastReminderDefault.fixed.Some? && NoOverflow(State(), Config(), now, lastReminderDefault.fixed.value) ==>
                (r <==> DueExactly(State(), Config(), now, lastReminderDefault.fixed.value))
      ensures r ==> RequestOf(State())
    {
      r := IsRequest() && IsDueRating(now) && IsDueCount();
      if r {
        r := IsDueReminder(now);
      }
    }

    /**
     * The guard of showing the dialog: a listener and an activity are present and the
     * rating is due. Showing the dialog itself is not modelled.
     */
    method ShouldRateDialog(hasListener: bool, hasActivity: bool, now: Int64) returns (shown: bool)
      modifies lastReminderDefault
      ensures hasListener && hasActivity ==>
                (shown, lastReminderDefault.fixed) == ShouldRateAt(State(), Config(), now, old(lastReminderDefault.fixed))
      ensures !(hasListener && hasActivity) ==> !shown && lastReminderDefault.fixed == old(lastReminderDefault.fixed)
      ensures !RequestOf(State()) ==> !shown
    {
      if !hasListener || !hasActivity {
        shown := false;
      } else {
        shown := ShouldRate(now);
      }
    }

    /** The two entries a launch may write. */
    function LaunchKeys(): set<string>
      reads this
    {
      {Key(Rating.KeyFirstLaunch), Key(Rating.KeyLaunchCount)}
    }

    /** The first step of a launch: record the first launch while it reads as unset. */
    method RecordFirstLaunch(now: Int64)
      modifies prefs
      ensures State() == RecordFirstLaunchOf(old(State()), now)
      ensures Entries() - LaunchKeys() == old(Entries()) - LaunchKeys()
      ensures prefs.files - {Rating.Prefs} == old(prefs.files) - {Rating.Prefs}
      ensures old(WellTyped(Entries())) ==> WellTyped(Entries())
    {
      if IsFirstLaunch() {
        ghost var p := Entries();
        SetFirstLaunch(now);
        UpdateInside(p, Key(Rating.KeyFirstLaunch), LongValue(now), LaunchKeys());
      }
    }

    /** The second step of a launch: count it while requesting, in `int` arithmetic. */
    method CountLaunch()
      modifies prefs
      ensures State() == CountLaunchOf(old(State()))
      ensures Entries() - LaunchKeys() == old(Entries()) - LaunchKeys()
      ensures prefs.files - {Rating.Prefs} == old(prefs.files) - {Rating.Prefs}
      ensures old(WellTyped(Entries())) ==> WellTyped(Entries())
    {
      if IsRequest() {
        ghost var p, st := Entries(), State();
        var count := LaunchCount();
        var next := WrapInt(count as int + 1);
        SetLaunchCount(next);
        assert State() == st.(launchCount := Some(next));
        UpdateInside(p, Key(Rating.KeyLaunchCount), IntValue(next), LaunchKeys());
      }
    }

    /** Called at each launch: records the first launch and counts the launch while requesting. */
    method Initialize(now: Int64)
      modifies prefs
      ensures State() == Launch(old(State()), now)
      ensures Entries() - {Key(Rating.KeyFirstLaunch), Key(Rating.KeyLaunchCount)}
           == old(Entries()) - {Key(Rating.KeyFirstLaunch), Key(Rating.KeyLaunchCount)}
      ensures prefs.files - {Rating.Prefs} == old(prefs.files) - {Rating.Prefs}
      ensures old(WellTyped(Entries())) ==> WellTyped(Entries())
      ensures forall b | b != BaseKey() :: StateOf(Entries(), b) == StateOf(old(Entries()), b)
    {
      RecordFirstLaunch(now);
      CountLaunch();
      assert LaunchKeys() <= KeysUnder(BaseKey());
      forall b | b != BaseKey()
        ensures StateOf(Entries(), b) == StateOf(old(Entries()), b)
      {
        StateOfOtherBase(old(Entries()), Entries(), LaunchKeys(), BaseKey(), b);
      }
    }

    /**
     * Records the answer to a prompt: `remind` keeps the engine requesting and restarts
     * the reminder interval; otherwise the engine stops requesting. The launch count is
     * reset either way.
     */
    method SetReminder(remind: bool, now: Int64)
      modifies prefs
      ensures State() == Respond(old(State()), remind, now)
      ensures Entries() - {Key(Rating.KeyIsRequest), Key(Rating.KeyLastReminder), Key(Rating.KeyLaunchCount)}
           == old(Entries()) - {Key(Rating.KeyIsRequest), Key(Rating.KeyLastReminder), Key(Rating.KeyLaunchCount)}
      ensures prefs.files - {Rating.Prefs} == old(prefs.files) - {Rating.Prefs}
      ensures old(WellTyped(Entries())) ==> WellTyped(Entries())
      ensures forall b | b != BaseKey() :: StateOf(Entries(), b) == StateOf(old(Entries()), b)
    {
      ghost var touched := {Key(Rating.KeyIsRequest), Key(Rating.KeyLastReminder), Key(Rating.KeyLaunchCount)};
      ghost var p0 := Entries();
      SetRequest(remind);
      ghost var p1 := Entries();
      UpdateInside(p0, Key(Rating.KeyIsRequest), BoolValue(remind), touched);
      SetLastReminder(now);
      ghost var p2 := Entries();
      UpdateInside(p1, Key(Rating.KeyLastReminder), LongValue(now), touched);
      prefs.Delete(Rating.Prefs, Key(Rating.KeyLaunchCount));
      DeleteEntry(p2, BaseKey(), Rating.KeyLaunchCount, touched);
      if !remind {
        ghost var p3 := Entries();
        prefs.Delete(Rating.Prefs, Key(Rating.KeyLastReminder));
        DeleteEntry(p3, BaseKey(), Rating.KeyLastReminder, touched);
      }
      assert old(Entries()) - touched == Entries() - touched;
      assert touched <= KeysUnder(BaseKey());
      forall b | b != BaseKey()
        ensures StateOf(Entries(), b) == StateOf(old(Entries()), b)
      {
        StateOfOtherBase(old(Entries()), Entries(), touched, BaseKey(), b);
      }
    }
  }
}

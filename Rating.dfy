/**
 * The constants of the rating engine: the preferences partition, the key prefix and
 * the five key suffixes, the stored defaults and "unset" sentinels, and the default
 * thresholds. The default of the last-reminder entry is not a constant: it is the
 * clock reading at its first read (LastReminderValue).
 */
module Rating {
  import opened JavaInt
  import opened Optional

  /** Name of the preferences partition that holds every entry of the engine. */
  const Prefs: string := "dynamic_rating"

  /** Key prefix used when no base key has been set. */
  const KeyBase: string := "adr_key_"

  const KeyFirstLaunch: string := "first_launch"
  const KeyLastLaunch: string := "last_launch"
  const KeyLastReminder: string := "last_reminder"
  const KeyLaunchCount: string := "launch_count"
  const KeyIsRequest: string := "is_request"

  /** The five key suffixes, each appended to the base key. */
  const KeySuffixes: seq<string> :=
    [KeyFirstLaunch, KeyLastLaunch, KeyLastReminder, KeyLaunchCount, KeyIsRequest]

  /** Rating reported while nothing has been selected. */
  const ValueUnknown: real := -1.0

  /** Smallest rating that counts as positive. */
  const ValuePositive: real := 4.0

  /** Default of the first-launch entry; also the "never initialised" sentinel. */
  const ValueFirstLaunch: Int64 := 0
  const ValueLastLaunch: Int64 := 0
  const ValueLaunchCount: Int32 := 0
  const ValueIsRequest: bool := true

  const DefaultRateInterval: Int32 := 2
  const DefaultRateCount: Int32 := 5
  const DefaultRemindInterval: Int32 := 2

  predicate EndsWith(s: string, suffix: string) {
    |suffix| <= |s| && s[|s| - |suffix|..] == suffix
  }

  /** Of two suffixes of one string, the shorter is a suffix of the longer. */
  lemma EndsWithBoth(s: string, shorter: string, longer: string)
    requires EndsWith(s, shorter) && EndsWith(s, longer) && |shorter| <= |longer|
    ensures EndsWith(longer, shorter)
  {
    assert longer[|longer| - |shorter|..] == s[|s| - |shorter|..];
  }

  /** The five suffixes are pairwise distinct. */
  lemma KeySuffixesDistinct()
    ensures forall i, j | 0 <= i < j < |KeySuffixes| :: KeySuffixes[i] != KeySuffixes[j]
  {
  }

  /**
   * No suffix ends with another one. Together with KeySuffixesDistinct this is what
   * keeps the entries of different base keys apart (DynamicRating.KeyInjective).
   */
  lemma KeySuffixesSuffixFree()
    ensures forall s, t | s in KeySuffixes && t in KeySuffixes && s != t :: !EndsWith(s, t)
  {
  }

  /**
   * The last-reminder default. It is the only default that is not a compile-time
   * constant, so it gets its value when it is first read: the clock reading at that
   * moment, kept for the rest of the process and shared by every engine. `fixed` is
   * None until that first read.
   */
  class LastReminderValue {
    var fixed: Option<Int64>

    constructor ()
      ensures fixed == None
    {
      fixed := None;
    }

    /** Reads the default; the first read fixes it to `now`. */
    method Read(now: Int64) returns (r: Int64)
      modifies this
      ensures r == old(fixed).GetOr(now) && fixed == Some(r)
    {
      if fixed.None? {
        fixed := Some(now);
      }
      r := fixed.value;
    }
  }
}

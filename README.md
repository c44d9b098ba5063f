# dynamic-rating: the rating-prompt engine in Dafny

This project models the engine of the `dynamic-rating` Android library. The engine
decides, across app launches, whether to ask the user for an app-store rating, and
records how the user answered.

The engine keeps four entries per base key in the preferences partition
`dynamic_rating`:

- the first-launch time (`0` means "never initialised");
- the last-reminder time;
- the launch count;
- the request flag.

Three thresholds drive the decision: the rate interval in days, the rate count, and
the remind interval in days. Their defaults are 2, 5 and 2.

Modules:

- `JavaInt` holds Java's 32- and 64-bit two's-complement arithmetic. The source's
  `int` and `long` expressions are modelled with it wherever they can overflow.
- `Rating` holds the constants: the partition name, the key prefix `adr_key_`, the
  five key suffixes, the stored defaults and the default thresholds. It also holds
  `LastReminderValue`, the one default that is not a constant (see below).
- `DynamicPreferences` models the external store. It has named partitions of typed
  entries, with load-with-default, save and delete.
- `DynamicRating` holds the engine:
  - `IsDueDate`, the due-check in Java arithmetic;
  - `Record`, an abstract view of one base key's entries, with the transitions
    `Launch` and `Respond`;
  - `Eligible`, the decision as the source computes it for a given last-reminder
    default, and `DueExactly`, the same rule in exact arithmetic;
  - `ShouldRateAt`, the decision together with its effect on the last-reminder
    default;
  - the class `DynamicRating`. It holds the base key and the thresholds, and reads
    and writes the store through `Key`. Its methods are proved to change the store
    exactly as `Launch` and `Respond` say, and to touch no other base key.
- `DynamicRatingProperties` proves lemmas about repeated launches, the
  launch-then-prompt scenario, the remind-later scenario and the due-check's
  overflow.
- `DynamicRatingListener` models the default response handling. It classifies a
  rating, picks the confirm label, and forwards each answer to `SetReminder`.
- `RatingFlow` models runs of launches and `shouldRateDialog` queries as the app
  drives them. A dialog is shown, and so answered, only when the query returns true.
  It proves that opting out is terminal along such runs, and shows two base keys
  sharing one store without interfering through the store. The last-reminder default
  is shared by all base keys, so one base key's query can change when another becomes
  due (`SharedDefaultCouplesBaseKeys`).

The clock is a parameter. Every operation that reads the time takes `now`.

The last-reminder default `Rating.Value.LAST_REMINDER` is `new Date().getTime()`. It
is the only field of `Rating.Value` that is not a compile-time constant, so Java gives
it its value when it is first read, and it keeps that value for the rest of the
process. The only read is in `getLastReminder`. `shouldRate` reaches that read only
when the request flag, the rate interval and the rate count all hold, because `&&`
short-circuits. The model keeps this: `LastReminderValue.fixed` is None until the first
read, which fixes it to that read's `now`, and one such object is shared by every
engine. So for a base key that has never been reminded, the query that fixes the
default measures no time against it. With a remind interval of at least one day, that
query is never due (`ShouldRateAt`, `FirstQueryOfProcessNotShown`). The rating can come
at the earliest from a later query in the same process, a full remind interval after
the first one (`FifthLaunchMakesDue`, `FifthLaunchWaitsForDefault`).

Two facts about the code shape what the model promises:

- Opting out is not terminal for a direct caller: `setReminder(true)` sets the
  request flag again (`DirectRemindReactivates`). Opt-out is terminal along runs where
  a dialog is shown only because `shouldRateDialog` returned true
  (`OptedOutStaysOut`, `AnsweredForGood`). A not-requesting engine is never due, so
  `shouldRateDialog` never shows the dialog. `showRateDialog` is public and shows the
  dialog without checking the rule, and its "later" button calls
  `onRatingSkipped(true)`, so a dialog shown that way can turn requesting back on.
- `setLastLaunch` is never called, so no code path writes the last-launch entry.

## Model

| member | source | states |
|---|---|---|
| JavaInt.WrapInt | dynamic-rating/src/main/java/com/pranavpandey/android/dynamic/rating/DynamicRating.java:129 | the `int` result of an exact value: congruent to it modulo 2^32, and equal to it when it fits |
| JavaInt.WrapLong | dynamic-rating/src/main/java/com/pranavpandey/android/dynamic/rating/DynamicRating.java:129 | the `long` result of an exact value: congruent to it modulo 2^64, and equal to it when it fits |
| Rating.KeySuffixesDistinct | dynamic-rating/src/main/java/com/pranavpandey/android/dynamic/rating/Rating.java:48-68 | the five key suffixes are pairwise distinct |
| Rating.KeySuffixesSuffixFree | dynamic-rating/src/main/java/com/pranavpandey/android/dynamic/rating/Rating.java:48-68 | no key suffix ends with another one |
| Rating.LastReminderValue.constructor | dynamic-rating/src/main/java/com/pranavpandey/android/dynamic/rating/Rating.java:100 | the last-reminder default starts unset |
| Rating.LastReminderValue.Read | dynamic-rating/src/main/java/com/pranavpandey/android/dynamic/rating/Rating.java:100 | the first read fixes the default to the time of that read; every later read returns that same value |
| DynamicRating.IsDueDate | dynamic-rating/src/main/java/com/pranavpandey/android/dynamic/rating/DynamicRating.java:128-130 | for intervals of at most 24855 days and an elapsed time that fits in a `long`: due iff `now - millis >= threshold * 86400000` |
| DynamicRating.KeyOf | dynamic-rating/src/main/java/com/pranavpandey/android/dynamic/rating/DynamicRating.java:279-281 | a store key is the base key followed by the suffix |
| DynamicRating.KeyEndsOnlyWithItsSuffix | dynamic-rating/src/main/java/com/pranavpandey/android/dynamic/rating/DynamicRating.java:279-281 | a key built from a base key and one suffix ends with no other suffix |
| DynamicRating.KeyInjective | dynamic-rating/src/main/java/com/pranavpandey/android/dynamic/rating/DynamicRating.java:279-281 | two (base key, suffix) pairs give the same store key iff both parts are equal, so distinct base keys never share an entry |
| DynamicRating.SaveKeepsWellTyped | dynamic-rating/src/main/java/com/pranavpandey/android/dynamic/rating/DynamicRating.java:315-398 | saving a value of a suffix's kind under that suffix keeps every entry of the partition of its suffix's kind |
| DynamicRating.DeleteEntry | dynamic-rating/src/main/java/com/pranavpandey/android/dynamic/rating/DynamicRating.java:291-297 | deleting the launch-count or last-reminder entry makes only that field of the record absent and keeps the partition well typed |
| DynamicRating.StateOfOtherBase | dynamic-rating/src/main/java/com/pranavpandey/android/dynamic/rating/DynamicRating.java:305-398 | changing entries under one base key leaves the record of every other base key unchanged |
| DynamicRating.Launch | dynamic-rating/src/main/java/com/pranavpandey/android/dynamic/rating/DynamicRating.java:108-118 | the first launch becomes `now` only when it reads as the sentinel 0, and otherwise stays; while requesting the count becomes the `int` sum of the count and 1, which is one more below `Integer.MAX_VALUE` and wraps to `Integer.MIN_VALUE` at it; not requesting, the count is untouched; the request flag and the last reminder are untouched |
| DynamicRating.Respond | dynamic-rating/src/main/java/com/pranavpandey/android/dynamic/rating/DynamicRating.java:288-298 | the request flag reads back as `remind`; the launch-count entry is absent, so it reads 0; the last reminder is `now` when reminding and absent otherwise; the first launch is untouched |
| DynamicRating.ShouldRateAt | dynamic-rating/src/main/java/com/pranavpandey/android/dynamic/rating/DynamicRating.java:234-236 | the decision and the last-reminder default after it: the default becomes set exactly when it was set or the first three conjuncts hold, and then to `now` if it was unset; with a set default the decision is `Eligible` and the default is kept; never due while not requesting; for a base key never reminded and a remind interval of 1 to 24855 days, the query that fixes the default is not due |
| DynamicRating.DynamicRating.constructor | dynamic-rating/src/main/java/com/pranavpandey/android/dynamic/rating/DynamicRating.java:75-81 | installs the default thresholds 2, 5 and 2, no base key, and the process's shared last-reminder default |
| DynamicRating.DynamicRating.BaseKey | dynamic-rating/src/main/java/com/pranavpandey/android/dynamic/rating/DynamicRating.java:137-139 | `adr_key_` when no base key is set, the set one otherwise |
| DynamicRating.DynamicRating.SetBaseKey | dynamic-rating/src/main/java/com/pranavpandey/android/dynamic/rating/DynamicRating.java:148-152 | sets the base key, possibly to none, and keeps the thresholds |
| DynamicRating.DynamicRating.SetRateInterval | dynamic-rating/src/main/java/com/pranavpandey/android/dynamic/rating/DynamicRating.java:161-165 | changes only the rate interval |
| DynamicRating.DynamicRating.SetRateCount | dynamic-rating/src/main/java/com/pranavpandey/android/dynamic/rating/DynamicRating.java:174-178 | changes only the rate count |
| DynamicRating.DynamicRating.SetRemindInterval | dynamic-rating/src/main/java/com/pranavpandey/android/dynamic/rating/DynamicRating.java:187-191 | changes only the remind interval |
| DynamicRating.DynamicRating.Key | dynamic-rating/src/main/java/com/pranavpandey/android/dynamic/rating/DynamicRating.java:279-281 | the base key followed by `key`; for the five suffixes, one of the keys under the current base key |
| DynamicRating.DynamicRating.FirstLaunch | dynamic-rating/src/main/java/com/pranavpandey/android/dynamic/rating/DynamicRating.java:305-308 | the stored first launch of the current base key, or 0 when absent |
| DynamicRating.DynamicRating.LastReminder | dynamic-rating/src/main/java/com/pranavpandey/android/dynamic/rating/DynamicRating.java:345-348 | the stored last reminder, or the last-reminder default when absent; the read fixes that default to `now` if it was unset, even when an entry exists, and otherwise keeps it |
| DynamicRating.DynamicRating.LaunchCount | dynamic-rating/src/main/java/com/pranavpandey/android/dynamic/rating/DynamicRating.java:365-368 | the stored launch count, or 0 when absent |
| DynamicRating.DynamicRating.IsRequest | dynamic-rating/src/main/java/com/pranavpandey/android/dynamic/rating/DynamicRating.java:385-388 | the stored request flag, or true when absent |
| DynamicRating.DynamicRating.RecordFirstLaunch | dynamic-rating/src/main/java/com/pranavpandey/android/dynamic/rating/DynamicRating.java:109-111 | the record becomes `RecordFirstLaunchOf(old record, now)`; only the two launch entries may change, other partitions and well-typedness are kept |
| DynamicRating.DynamicRating.CountLaunch | dynamic-rating/src/main/java/com/pranavpandey/android/dynamic/rating/DynamicRating.java:113-115 | the record becomes `CountLaunchOf(old record)`; only the two launch entries may change, other partitions and well-typedness are kept |
| DynamicRating.DynamicRating.SetFirstLaunch | dynamic-rating/src/main/java/com/pranavpandey/android/dynamic/rating/DynamicRating.java:315-318 | saves the first launch under the current base key; only that entry of the partition changes |
| DynamicRating.DynamicRating.SetLastReminder | dynamic-rating/src/main/java/com/pranavpandey/android/dynamic/rating/DynamicRating.java:355-358 | saves the last reminder; only that entry changes |
| DynamicRating.DynamicRating.SetLaunchCount | dynamic-rating/src/main/java/com/pranavpandey/android/dynamic/rating/DynamicRating.java:375-378 | saves the launch count; only that entry changes |
| DynamicRating.DynamicRating.SetRequest | dynamic-rating/src/main/java/com/pranavpandey/android/dynamic/rating/DynamicRating.java:395-398 | saves the request flag; only that entry changes |
| DynamicRating.DynamicRating.IsFirstLaunch | dynamic-rating/src/main/java/com/pranavpandey/android/dynamic/rating/DynamicRating.java:198-200 | true iff the first launch reads as the sentinel 0, in particular when it was never saved |
| DynamicRating.DynamicRating.IsDueRating | dynamic-rating/src/main/java/com/pranavpandey/android/dynamic/rating/DynamicRating.java:207-209 | the due-check of the first launch against the rate interval; when that interval is within ±24855 days and `now - firstLaunch` fits in a `long`, `now - firstLaunch >= rateInterval` days |
| DynamicRating.DynamicRating.IsDueCount | dynamic-rating/src/main/java/com/pranavpandey/android/dynamic/rating/DynamicRating.java:216-218 | the launch count has reached the rate count |
| DynamicRating.DynamicRating.IsDueReminder | dynamic-rating/src/main/java/com/pranavpandey/android/dynamic/rating/DynamicRating.java:225-227 | fixes the last-reminder default as `LastReminder` does, then the due-check of the last reminder against the remind interval; when that interval is within ±24855 days and `now - lastReminder` fits in a `long`, `now - lastReminder >= remindInterval` days |
| DynamicRating.DynamicRating.ShouldRate | dynamic-rating/src/main/java/com/pranavpandey/android/dynamic/rating/DynamicRating.java:234-236 | the result and the new last-reminder default are `ShouldRateAt` of the current record and the old default: the default is read only after the first three conjuncts hold; with the default fixed and no overflow, agrees with the exact rule `DueExactly`; never true while not requesting; never writes the store |
| DynamicRating.DynamicRating.ShouldRateDialog | dynamic-rating/src/main/java/com/pranavpandey/android/dynamic/rating/DynamicRating.java:246-254 | with a listener and an activity, the result and the new default are `ShouldRateAt`; without either, false and the default untouched; false whenever the engine is not requesting |
| DynamicRating.DynamicRating.Initialize | dynamic-rating/src/main/java/com/pranavpandey/android/dynamic/rating/DynamicRating.java:108-118 | the record becomes `Launch(old record, now)`; only the first-launch and launch-count entries may change; every other base key's record, every other partition and the well-typedness of the partition are kept |
| DynamicRating.DynamicRating.SetReminder | dynamic-rating/src/main/java/com/pranavpandey/android/dynamic/rating/DynamicRating.java:288-298 | the record becomes `Respond(old record, remind, now)`; only the request, last-reminder and launch-count entries may change; other base keys, other partitions and well-typedness are kept |
| DynamicRatingProperties.FutureTimestampNeverDue | dynamic-rating/src/main/java/com/pranavpandey/android/dynamic/rating/DynamicRating.java:128-130 | with an interval from 0 to 24855 days, a timestamp later than `now` is never due |
| DynamicRatingProperties.MaxIntIntervalWraps | dynamic-rating/src/main/java/com/pranavpandey/android/dynamic/rating/DynamicRating.java:128-130 | an interval of `Integer.MAX_VALUE` days wraps to -1 day: every past timestamp is due, although fewer days have passed |
| DynamicRatingProperties.RepeatedLaunches | dynamic-rating/src/main/java/com/pranavpandey/android/dynamic/rating/DynamicRating.java:108-118 | over any number of launches a recorded first launch never moves, and an unset one becomes the first launch's time (unless that time is itself 0); the count grows by exactly the number of launches while requesting and not at all otherwise; the request flag and the last reminder never change |
| DynamicRatingProperties.FifthLaunchMakesDue | dynamic-rating/src/main/java/com/pranavpandey/android/dynamic/rating/DynamicRating.java:207-236 | from a fresh base key with the default thresholds, four launches are not due; after the fifth, a query is due once two days have passed since the first launch and since the last-reminder default was fixed, while the query that fixes the default is not due |
| DynamicRatingProperties.FifthLaunchWaitsForDefault | dynamic-rating/src/main/java/com/pranavpandey/android/dynamic/rating/DynamicRating.java:225-236 | after five launches, a query less than two days after the last-reminder default was fixed is not due, however old the first launch is |
| DynamicRatingProperties.RemindDefers | dynamic-rating/src/main/java/com/pranavpandey/android/dynamic/rating/DynamicRating.java:288-298 | after "remind later" the engine still requests and counts launches from 0; it is not due before the rate count is reached again, nor within the remind interval |
| DynamicRatingListener.IsRatingUnknown | dynamic-rating/src/main/java/com/pranavpandey/android/dynamic/rating/listener/DynamicRatingListener.java:135-137 | a rating is unknown iff it is at most 0 |
| DynamicRatingListener.IsRatingNegative | dynamic-rating/src/main/java/com/pranavpandey/android/dynamic/rating/listener/DynamicRatingListener.java:140-142 | a rating is negative iff it is below the positive threshold 4 |
| DynamicRatingListener.UnknownIsNegative | dynamic-rating/src/main/java/com/pranavpandey/android/dynamic/rating/listener/DynamicRatingListener.java:135-142 | every unknown rating (`<= 0`) is negative (`< 4`); the UNKNOWN constant -1 is unknown, the POSITIVE constant 4 is not |
| DynamicRatingListener.ActionRate | dynamic-rating/src/main/java/com/pranavpandey/android/dynamic/rating/listener/DynamicRatingListener.java:116-123 | the "feedback" label exactly when `0 < rating < 4`, the "rate" label otherwise, in particular for an unknown rating |
| DynamicRatingListener.DynamicRatingListener.constructor | dynamic-rating/src/main/java/com/pranavpandey/android/dynamic/rating/listener/DynamicRatingListener.java:51-54 | keeps the engine it is given |
| DynamicRatingListener.DynamicRatingListener.OnRatingSelected | dynamic-rating/src/main/java/com/pranavpandey/android/dynamic/rating/listener/DynamicRatingListener.java:148-158 | hands the rating to feedback iff it is negative, and to rate otherwise; then, with an engine, records `Respond(old, false, now)`, so the engine stops requesting whatever the rating; only the request, last-reminder and launch-count entries of the current base key may change; every other base key, every other partition and well-typedness are kept; without an engine it modifies nothing |
| DynamicRatingListener.DynamicRatingListener.OnRatingSkipped | dynamic-rating/src/main/java/com/pranavpandey/android/dynamic/rating/listener/DynamicRatingListener.java:160-165 | with an engine, records `Respond(old, remind, now)` with `remind` unchanged, under the same frame as `OnRatingSelected`; without one it modifies nothing |
| RatingFlow.OptedOutStaysOut | dynamic-rating/src/main/java/com/pranavpandey/android/dynamic/rating/DynamicRating.java:234-236 | once not requesting, no run of launches and `shouldRateDialog` queries requests again, changes the count, or is ever due, for any last-reminder default |
| RatingFlow.AnsweredForGood | dynamic-rating/src/main/java/com/pranavpandey/android/dynamic/rating/listener/DynamicRatingListener.java:148-165 | rating, feedback or "never" in a dialog that `shouldRateDialog` showed leaves the engine not requesting with count 0, and never due after any later run; a query that returns false shows nothing, and at most fixes the last-reminder default |
| RatingFlow.FirstQueryOfProcessNotShown | dynamic-rating/src/main/java/com/pranavpandey/android/dynamic/rating/DynamicRating.java:225-254 | the first `shouldRateDialog` query of a process, for a base key never reminded and a remind interval of 1 to 24855 days, shows nothing and leaves the record as it was; if it fixes the default, it fixes it to its own time |
| RatingFlow.SharedDefaultCouplesBaseKeys | dynamic-rating/src/main/java/com/pranavpandey/android/dynamic/rating/DynamicRating.java:345-348 | one shared last-reminder default couples base keys: after a query under one base key fixes it, a query two days later under another base key, never reminded, is due, while that key's own first query at the same time is not |
| RatingFlow.DirectRemindReactivates | dynamic-rating/src/main/java/com/pranavpandey/android/dynamic/rating/DynamicRating.java:288-290 | a direct `setReminder(true)` after an opt-out makes the engine request again |

## Left out

- The singleton accessor `getInstance`, its `synchronized` lock and its `Context` check are not modelled. One engine object is constructed with the store passed in.
- Concurrency is not modelled. The source assumes one caller per base key.
- Showing the dialog (`showRateDialog`, `DynamicRatingDialog`) is UI. `ShouldRateDialog` models only its guard, and the listener and activity are reduced to "present or not".
- The label texts, the title, message, later and skip getters, `onRatingChanged`, and the bodies of `onRate` and `onFeedback` are application code. `ActionRate` models only which label is chosen, and `OnRatingSelected` returns which callback is called.
- `getLastLaunch` and `setLastLaunch` are never called, so `Record` has no last-launch field. The frame conditions still cover that entry: `Initialize` and `SetReminder` leave it unchanged.
- `System.currentTimeMillis()` and `new Date()` are replaced by the parameter `now`. The few milliseconds between the first read of `Rating.Value.LAST_REMINDER` and the clock read inside `isDueDate` are not modelled: both are the same `now`.
- RatingFlow.Step: an answer is recorded with the time of the query that showed the dialog. In the source `setReminder` reads the clock when the user answers, which can be later. Only a "remind later" answer stores that time.
- The rating is a `real`. Java `float` rounding and NaN are not modelled; the rating bar never reports NaN.
- The store is a map. Android's preferences throw on a value of the wrong kind; the model reads such an entry as absent. `WellTyped` and the mutators' contracts show that the engine never writes a wrong kind under any suffix.
- DynamicRating.IsDueDate: the "iff elapsed >= threshold days" promise is proved only for intervals of at most 24855 days and an elapsed time that fits in a `long`. Beyond that the model keeps Java's overflow, as `MaxIntIntervalWraps` shows.
- DynamicRating.DynamicRating.IsDueRating: agrees with the exact rule only when the rate interval and the elapsed time meet the bounds of `IsDueDate`.
- DynamicRating.DynamicRating.IsDueReminder: agrees with the exact rule only when the remind interval and the elapsed time meet the bounds of `IsDueDate`.
- DynamicRating.DynamicRating.ShouldRate: agrees with `DueExactly` only under the same bounds as `IsDueDate`.

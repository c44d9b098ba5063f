/**
 * The default response handling: how a rating value is classified, which label the
 * confirm action shows, and how each answer is forwarded to the engine's
 * SetReminder. The label texts and the bodies of the rate and feedback callbacks
 * belong to the application and are not modelled.
 */
module DynamicRatingListener {
  import opened JavaInt
  import Rating
  import opened DynamicRating

  /** No rating has been selected yet. */
  predicate IsRatingUnknown(rating: real) {
    rating <= 0.0
  }

  /** The rating is below the positive threshold. */
  predicate IsRatingNegative(rating: real) {
    rating < Rating.ValuePositive
  }

  /** Every unknown rating is also negative, and the "unknown" constant is unknown. */
  lemma UnknownIsNegative(rating: real)
    ensures IsRatingUnknown(rating) ==> IsRatingNegative(rating)
    ensures IsRatingUnknown(Rating.ValueUnknown) && !IsRatingUnknown(Rating.ValuePositive)
  {
  }

  /** The two texts the confirm action can show. */
  datatype ActionLabel = RateLabel | FeedbackLabel

  /** The confirm action's label: "feedback" exactly for a known rating below the positive threshold. */
  function ActionRate(rating: real): (action: ActionLabel)
    ensures action == FeedbackLabel <==> 0.0 < rating < Rating.ValuePositive
    ensures IsRatingUnknown(rating) ==> action == RateLabel
  {
    if IsRatingUnknown(rating) || !IsRatingNegative(rating) then RateLabel else FeedbackLabel
  }

  /** The application callback that a selected rating is handed to. */
  datatype Callback = OnRate | OnFeedback

  /** The answers the dialog reports: a selected rating, or a skip with or without a reminder. */
  datatype Answer = Selected(rating: real) | Skipped(remind: bool)

  /** The argument each answer passes to SetReminder. */
  function ReminderFor(answer: Answer): bool {
    match answer
    case Selected(_) => false
    case Skipped(remind) => remind
  }

  class DynamicRatingListener {
    /** The engine to update; the source checks it for null before every use. */
    const dynamicRating: DynamicRating?

    constructor (dynamicRating: DynamicRating?)
      ensures this.dynamicRating == dynamicRating
    {
      this.dynamicRating := dynamicRating;
    }

    /**
     * A rating was confirmed: a negative one goes to feedback, any other to rating;
     * then the engine stops requesting, whatever the rating was.
     */
    method OnRatingSelected(rating: real, now: Int64) returns (callback: Callback)
      modifies if dynamicRating != null then {dynamicRating.prefs} else {}
      ensures callback == OnFeedback <==> IsRatingNegative(rating)
      ensures dynamicRating != null ==>
                dynamicRating.State() == Respond(old(dynamicRating.State()), false, now)
      ensures dynamicRating != null ==> !RequestOf(dynamicRating.State())
      ensures dynamicRating != null ==>
                dynamicRating.Entries() - {dynamicRating.Key(Rating.KeyIsRequest), dynamicRating.Key(Rating.KeyLastReminder),
                                           dynamicRating.Key(Rating.KeyLaunchCount)}
                == old(dynamicRating.Entries()) - {dynamicRating.Key(Rating.KeyIsRequest), dynamicRating.Key(Rating.KeyLastReminder),
                                                   dynamicRating.Key(Rating.KeyLaunchCount)}
      ensures dynamicRating != null ==>
                dynamicRating.prefs.files - {Rating.Prefs} == old(dynamicRating.prefs.files) - {Rating.Prefs}
      ensures dynamicRating != null && old(WellTyped(dynamicRating.Entries())) ==> WellTyped(dynamicRating.Entries())
      ensures dynamicRating != null ==>
                forall b | b != dynamicRating.BaseKey() ::
                  StateOf(dynamicRating.Entries(), b) == StateOf(old(dynamicRating.Entries()), b)
    {
      if IsRatingNegative(rating) {
        callback := OnFeedback;
      } else {
        callback := OnRate;
      }
      if dynamicRating != null {
        dynamicRating.SetReminder(false, now);
      }
    }

    /** The prompt was skipped; `remind` is forwarded to the engine unchanged. */
    method OnRatingSkipped(remind: bool, now: Int64)
      modifies if dynamicRating != null then {dynamicRating.prefs} else {}
      ensures dynamicRating != null ==>
                dynamicRating.State() == Respond(old(dynamicRating.State()), remind, now)
      ensures dynamicRating != null ==> RequestOf(dynamicRating.State()) == remind
      ensures dynamicRating != null ==>
                dynamicRating.Entries() - {dynamicRating.Key(Rating.KeyIsRequest), dynamicRating.Key(Rating.KeyLastReminder),
                                           dynamicRating.Key(Rating.KeyLaunchCount)}
                == old(dynamicRating.Entries()) - {dynamicRating.Key(Rating.KeyIsRequest), dynamicRating.Key(Rating.KeyLastReminder),
                                                   dynamicRating.Key(Rating.KeyLaunchCount)}
      ensures dynamicRating != null ==>
                dynamicRating.prefs.files - {Rating.Prefs} == old(dynamicRating.prefs.files) - {Rating.Prefs}
      ensures dynamicRating != null && old(WellTyped(dynamicRating.Entries())) ==> WellTyped(dynamicRating.Entries())
      ensures dynamicRating != null ==>
                forall b | b != dynamicRating.BaseKey() ::
                  StateOf(dynamicRating.Entries(), b) == StateOf(old(dynamicRating.Entries()), b)
    {
      if dynamicRating != null {
        dynamicRating.SetReminder(remind, now);
      }
    }
  }
}

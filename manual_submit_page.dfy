/**
 * The form that starts a review of a pasted diff: its two ordered guards,
 * the payload it sends, and the `submitting` / `error` state around the
 * call. Submitting and the settling of the call are two steps.
 */
module ManualSubmitPage {
  import opened Wrappers
  import opened Text
  import opened FrontendTypes
  import opened Client

  const MissingDiff := "Please provide a diff to review"
  const MissingApiKey := "API key not configured. Please set your API key in Settings."

  /** The guards of `handleSubmit`: the message of the first that fails, or the payload to send. */
  function SubmitGuards(diff: string, apiKey: Option<string>): Result<CreateReviewPayload, string> {
    if Trim(JavaScript, diff) == [] then Err(MissingDiff)
    else if !Truthy(apiKey) then Err(MissingApiKey)
    else Ok(CreateReviewPayload(Manual, Some(Trim(JavaScript, diff)), None, None))
  }

  /**
   * A blank diff is refused first, whatever the key; then a missing key.
   * Past both, the payload is a manual review of the trimmed, non-empty diff.
   */
  lemma SubmitGuardsOrder(diff: string, apiKey: Option<string>)
    ensures var r := SubmitGuards(diff, apiKey);
      && (IsBlank(JavaScript, diff) ==> r == Err(MissingDiff))
      && (!IsBlank(JavaScript, diff) && !Truthy(apiKey) ==> r == Err(MissingApiKey))
      && (r.Ok? <==> !IsBlank(JavaScript, diff) && Truthy(apiKey))
      && (r.Ok? ==> r.value == CreateReviewPayload(Manual, Some(Trim(JavaScript, diff)), None, None))
      && (r.Ok? ==> r.value.diff.value != [])
  {
    TrimEmptyIffBlank(JavaScript, diff);
  }

  /** The submit button's `disabled`. */
  predicate SubmitDisabled(submitting: bool, diff: string) {
    submitting || Trim(JavaScript, diff) == []
  }

  /** The button is enabled exactly when nothing is in flight and the diff is not blank. */
  lemma EnabledPassesDiffGuard(submitting: bool, diff: string, apiKey: Option<string>)
    ensures !SubmitDisabled(submitting, diff) <==> !submitting && !IsBlank(JavaScript, diff)
    ensures !SubmitDisabled(submitting, diff) ==> SubmitGuards(diff, apiKey) != Err(MissingDiff)
  {
    SubmitGuardsOrder(diff, apiKey);
  }

  /** The diff sent is already trimmed: resubmitting it would send the same text. */
  lemma SentDiffIsTrimmed(diff: string, apiKey: Option<string>)
    requires SubmitGuards(diff, apiKey).Ok?
    ensures var sent := SubmitGuards(diff, apiKey).value.diff.value;
      SubmitGuards(sent, apiKey) == SubmitGuards(diff, apiKey)
  {
    var sent := Trim(JavaScript, diff);
    assert SubmitGuards(diff, apiKey).value.diff.value == sent;
    TrimIdempotent(JavaScript, diff);
    assert Trim(JavaScript, sent) == sent;
  }

  class ManualSubmitForm {
    var diff: string
    var submitting: bool
    var error: Option<string>
    /** The payloads sent to `createReview`, in order. */
    var requests: seq<CreateReviewPayload>
    /** Where the page navigated, if it did. */
    var location: Option<string>

    constructor ()
      ensures diff == "" && !submitting && error.None? && requests == [] && location.None?
    {
      diff := "";
      submitting := false;
      error := None;
      requests := [];
      location := None;
    }

    /**
     * `handleSubmit` up to the awaited call: a failing guard sets its
     * message and calls nothing; otherwise `submitting` is set, the error
     * cleared, and the payload sent once.
     */
    method HandleSubmit(client: ApiClient)
      modifies this
      ensures var g := SubmitGuards(old(diff), client.apiKey);
        && (g.Err? ==> error == Some(g.error) && submitting == old(submitting) && requests == old(requests))
        && (g.Ok? ==> error.None? && submitting && requests == old(requests) + [g.value])
      ensures diff == old(diff) && location == old(location)
    {
      var key := client.apiKey;
      match SubmitGuards(diff, key) {
        case Err(message) =>
          error := Some(message);
        case Ok(payload) =>
          submitting := true;
          error := None;
          requests := requests + [payload];
      }
    }

    /**
     * The awaited call settles: success navigates to the new review,
     * failure shows the error's message; either way `submitting` ends false.
     */
    method Settle(outcome: Outcome<ReviewRequest>)
      modifies this
      ensures !submitting
      ensures outcome.Returned? ==> location == Some(ReviewPath(outcome.value.id)) && error == old(error)
      ensures !outcome.Returned? ==> error == Some(FailureMessage(outcome)) && location == old(location)
      ensures diff == old(diff) && requests == old(requests)
    {
      match outcome {
        case Returned(review) =>
          location := Some(ReviewPath(review.id));
        case _ =>
          error := Some(FailureMessage(outcome));
      }
      submitting := false;
    }
  }
}

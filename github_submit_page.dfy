/**
 * The form that starts a review of a GitHub pull request: its ordered
 * guards, the payload it sends, and the `submitting` / `error` state
 * around the call. Submitting and the settling of the call are two steps.
 */
module GitHubSubmitPage {
  import opened Wrappers
  import opened Text
  import opened FrontendTypes
  import opened Client

  const MissingFields := "Please provide both repository name and PR number"
  const MissingApiKey := "API key not configured. Please set your API key in Settings."
  const InvalidPrNumber := "Invalid PR number"

  /** The guards of `handleSubmit`: the message of the first that fails, or the payload to send. */
  function SubmitGuards(repo: string, pr: string, apiKey: Option<string>): Result<CreateReviewPayload, string> {
    if Trim(JavaScript, repo) == [] || Trim(JavaScript, pr) == [] then Err(MissingFields)
    else if !Truthy(apiKey) then Err(MissingApiKey)
    else
      var prNum := ParseInt(pr);
      if prNum.None? || prNum.value <= 0 then Err(InvalidPrNumber)
      else Ok(CreateReviewPayload(GitHub, None, Some(Trim(JavaScript, repo)), prNum))
  }

  /**
   * The guards run in their order: both fields filled in, an API key held,
   * a positive PR number; the first that fails gives its message. Past
   * them all, the payload names the trimmed repository and the number read.
   */
  lemma SubmitGuardsOrder(repo: string, pr: string, apiKey: Option<string>)
    ensures var r := SubmitGuards(repo, pr, apiKey);
      && (IsBlank(JavaScript, repo) || IsBlank(JavaScript, pr) ==> r == Err(MissingFields))
      && (!IsBlank(JavaScript, repo) && !IsBlank(JavaScript, pr) && !Truthy(apiKey) ==> r == Err(MissingApiKey))
      && ((!IsBlank(JavaScript, repo) && !IsBlank(JavaScript, pr) && Truthy(apiKey)
           && (ParseInt(pr).None? || ParseInt(pr).value <= 0)) ==> r == Err(InvalidPrNumber))
      && (r.Ok? <==> (!IsBlank(JavaScript, repo) && !IsBlank(JavaScript, pr) && Truthy(apiKey)
                      && ParseInt(pr).Some? && ParseInt(pr).value > 0))
      && (r.Ok? ==> r.value == CreateReviewPayload(GitHub, None, Some(Trim(JavaScript, repo)), ParseInt(pr)))
  {
    TrimEmptyIffBlank(JavaScript, repo);
    TrimEmptyIffBlank(JavaScript, pr);
  }

  /** The submit button's `disabled`. */
  predicate SubmitDisabled(submitting: bool, repo: string, pr: string) {
    submitting || Trim(JavaScript, repo) == [] || Trim(JavaScript, pr) == []
  }

  /**
   * The button is enabled exactly when nothing is in flight and both fields
   * have a non-space character, so a click on it never meets the first guard.
   */
  lemma EnabledPassesFieldGuard(submitting: bool, repo: string, pr: string, apiKey: Option<string>)
    ensures !SubmitDisabled(submitting, repo, pr) <==>
      !submitting && !IsBlank(JavaScript, repo) && !IsBlank(JavaScript, pr)
    ensures !SubmitDisabled(submitting, repo, pr) ==> SubmitGuards(repo, pr, apiKey) != Err(MissingFields)
  {
    SubmitGuardsOrder(repo, pr, apiKey);
  }

  /** A PR number written in decimal, with any surrounding text after it, is accepted as that number. */
  lemma WrittenNumberAccepted(repo: string, n: nat, rest: string, apiKey: Option<string>)
    requires !IsBlank(JavaScript, repo) && Truthy(apiKey) && n > 0
    requires rest == [] || !IsDigit(rest[0])
    ensures SubmitGuards(repo, NatToString(n) + rest, apiKey)
      == Ok(CreateReviewPayload(GitHub, None, Some(Trim(JavaScript, repo)), Some(n)))
  {
    var pr := NatToString(n) + rest;
    PrNumberRead(n, rest);
    TrimEmptyIffBlank(JavaScript, repo);
    TrimEmptyIffBlank(JavaScript, pr);
  }

  /** The PR-number field holding a rendered number is not blank and reads back as that number. */
  lemma PrNumberRead(n: nat, rest: string)
    requires rest == [] || !IsDigit(rest[0])
    ensures ParseInt(NatToString(n) + rest) == Some(n)
    ensures !IsBlank(JavaScript, NatToString(n) + rest)
  {
    PrNumberParses(n, rest);
    PrNumberNotBlank(NatToString(n) + rest, NatToString(n));
  }

  lemma PrNumberParses(n: nat, rest: string)
    requires rest == [] || !IsDigit(rest[0])
    ensures ParseInt(NatToString(n) + rest) == Some(n)
  {
    assert "" + NatToString(n) + rest == NatToString(n) + rest;
    ParseIntOfNatToString("", n, rest);
  }

  lemma PrNumberNotBlank(pr: string, digits: string)
    requires digits != [] && AllDigits(digits) && StartsWith(pr, digits)
    ensures !IsBlank(JavaScript, pr)
  {
    assert pr[0] == digits[0];
  }

  class GitHubSubmitForm {
    var repoFullName: string
    var prNumber: string
    var submitting: bool
    var error: Option<string>
    /** The payloads sent to `createReview`, in order. */
    var requests: seq<CreateReviewPayload>
    /** Where the page navigated, if it did. */
    var location: Option<string>

    constructor ()
      ensures repoFullName == "" && prNumber == "" && !submitting && error.None?
      ensures requests == [] && location.None?
    {
      repoFullName := "";
      prNumber := "";
      submitting := false;
      error := None;
      requests := [];
      location := None;
    }

    /**
     * `handleSubmit` up to the awaited call: a failing guard sets its
     * message and calls nothing; otherwise `submitting` is set, the error
     * cleared, and the payload sent once.
     */
    method HandleSubmit(client: ApiClient)
      modifies this
      ensures var g := SubmitGuards(old(repoFullName), old(prNumber), client.apiKey);
        && (g.Err? ==> error == Some(g.error) && submitting == old(submitting) && requests == old(requests))
        && (g.Ok? ==> error.None? && submitting && requests == old(requests) + [g.value])
      ensures repoFullName == old(repoFullName) && prNumber == old(prNumber) && location == old(location)
    {
      var key := client.apiKey;
      match SubmitGuards(repoFullName, prNumber, key) {
        case Err(message) =>
          error := Some(message);
        case Ok(payload) =>
          submitting := true;
          error := None;
          requests := requests + [payload];
      }
    }

    /**
     * The awaited call settles: success navigates to the new review,
     * failure shows the error's message; either way `submitting` ends false.
     */
    method Settle(outcome: Outcome<ReviewRequest>)
      modifies this
      ensures !submitting
      ensures outcome.Returned? ==> location == Some(ReviewPath(outcome.value.id)) && error == old(error)
      ensures !outcome.Returned? ==> error == Some(FailureMessage(outcome)) && location == old(location)
      ensures repoFullName == old(repoFullName) && prNumber == old(prNumber) && requests == old(requests)
    {
      match outcome {
        case Returned(review) =>
          location := Some(ReviewPath(review.id));
        case _ =>
          error := Some(FailureMessage(outcome));
      }
      submitting := false;
    }
  }
}

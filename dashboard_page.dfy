/**
 * The dashboard: the conjunctive status / source / search filter over the
 * loaded reviews, and the status counters shown above the list.
 */
module DashboardPage {
  import opened Wrappers
  import opened Text
  import opened Collections
  import opened FrontendTypes

  /** The three filter controls; "all" places no restriction, an empty search neither. */
  datatype Filters = Filters(status: string, source: string, search: string)

  const NoFilters := Filters("all", "all", "")

  predicate StatusMatches(r: ReviewRequest, status: string) {
    r.status.Name() == status
  }

  predicate SourceMatches(r: ReviewRequest, source: string) {
    r.source.Name() == source
  }

  /** Case-insensitive search in the id, or in the repository name when the review has one. */
  predicate SearchMatches(r: ReviewRequest, query: string) {
    Contains(Lower(r.id), Lower(query))
      || (r.repoFullName.Some? && Contains(Lower(r.repoFullName.value), Lower(query)))
  }

  /** Whether a review is listed under the filters. */
  predicate Listed(r: ReviewRequest, f: Filters) {
    && (f.status == "all" || StatusMatches(r, f.status))
    && (f.source == "all" || SourceMatches(r, f.source))
    && (f.search == "" || SearchMatches(r, f.search))
  }

  function ByStatus(status: string): ReviewRequest -> bool {
    r => StatusMatches(r, status)
  }

  function BySource(source: string): ReviewRequest -> bool {
    r => SourceMatches(r, source)
  }

  function BySearch(query: string): ReviewRequest -> bool {
    r => SearchMatches(r, query)
  }

  /**
   * `filterReviews`: narrows the list one control at a time, skipping the
   * controls that place no restriction. The result is exactly the reviews
   * the filters list, in their order.
   */
  method FilterReviews(reviews: seq<ReviewRequest>, f: Filters) returns (filtered: seq<ReviewRequest>)
    ensures filtered == Where(reviews, r => Listed(r, f))
  {
    filtered := reviews;
    if f.status != "all" {
      filtered := Where(filtered, ByStatus(f.status));
    }
    if f.source != "all" {
      filtered := Where(filtered, BySource(f.source));
    }
    if f.search != "" {
      filtered := Where(filtered, BySearch(f.search));
    }
    StagesCompose(reviews, f);
  }

  /** One narrowing step, applied only when its control is set. */
  function Stage(xs: seq<ReviewRequest>, on: bool, p: ReviewRequest -> bool): seq<ReviewRequest> {
    if on then Where(xs, p) else xs
  }

  function Gate(on: bool, p: ReviewRequest -> bool): ReviewRequest -> bool {
    r => !on || p(r)
  }

  lemma StageIsWhere(xs: seq<ReviewRequest>, on: bool, p: ReviewRequest -> bool)
    ensures Stage(xs, on, p) == Where(xs, Gate(on, p))
  {
    if on {
      WhereSame(xs, p, Gate(on, p));
    } else {
      WhereAll(xs, Gate(on, p));
    }
  }

  /** The three narrowing steps together are the one conjunctive filter. */
  lemma StagesCompose(reviews: seq<ReviewRequest>, f: Filters)
    ensures Stage(Stage(Stage(reviews, f.status != "all", ByStatus(f.status)),
                        f.source != "all", BySource(f.source)),
                  f.search != "", BySearch(f.search))
      == Where(reviews, r => Listed(r, f))
  {
    var g1 := Gate(f.status != "all", ByStatus(f.status));
    var g2 := Gate(f.source != "all", BySource(f.source));
    var g3 := Gate(f.search != "", BySearch(f.search));
    var s1 := Stage(reviews, f.status != "all", ByStatus(f.status));
    var s2 := Stage(s1, f.source != "all", BySource(f.source));
    StageIsWhere(reviews, f.status != "all", ByStatus(f.status));
    StageIsWhere(s1, f.source != "all", BySource(f.source));
    StageIsWhere(s2, f.search != "", BySearch(f.search));
    var g12 := x => g1(x) && g2(x);
    var all := r => Listed(r, f);
    WhereWhere(reviews, g1, g2, g12);
    GatesAreListed(f, g12, g3, all);
    WhereWhere(reviews, g12, g3, all);
  }

  lemma GatesAreListed(f: Filters, g12: ReviewRequest -> bool, g3: ReviewRequest -> bool, all: ReviewRequest -> bool)
    requires forall x :: g12(x) == (Gate(f.status != "all", ByStatus(f.status))(x) && Gate(f.source != "all", BySource(f.source))(x))
    requires forall x :: g3(x) == Gate(f.search != "", BySearch(f.search))(x)
    requires forall x :: all(x) == Listed(x, f)
    ensures forall x :: all(x) == (g12(x) && g3(x))
  {
  }

  /** With no status, source or search restriction every review is listed, in order. */
  lemma UnfilteredListsAll(reviews: seq<ReviewRequest>)
    ensures Where(reviews, r => Listed(r, NoFilters)) == reviews
  {
    WhereAll(reviews, r => Listed(r, NoFilters));
  }

  /**
   * A review is listed exactly when it is one of the loaded reviews, has
   * the chosen status and source (unless "all"), and, for a non-empty
   * search, has the query in its id or in its repository name, ignoring
   * case; a review without a repository can only match through its id.
   */
  lemma ListedReviews(reviews: seq<ReviewRequest>, f: Filters, r: ReviewRequest)
    ensures r in Where(reviews, x => Listed(x, f)) <==>
      && r in reviews
      && (f.status == "all" || r.status.Name() == f.status)
      && (f.source == "all" || r.source.Name() == f.source)
      && (f.search == "" || Contains(Lower(r.id), Lower(f.search))
           || (r.repoFullName.Some? && Contains(Lower(r.repoFullName.value), Lower(f.search))))
    ensures r.repoFullName.None? && f.search != "" && !Contains(Lower(r.id), Lower(f.search)) ==>
      r !in Where(reviews, x => Listed(x, f))
  {
  }

  /** The filtered list keeps the loaded order and filtering it again changes nothing. */
  lemma FilterStable(reviews: seq<ReviewRequest>, f: Filters)
    ensures IsSubsequence(Where(reviews, r => Listed(r, f)), reviews)
    ensures Where(Where(reviews, r => Listed(r, f)), r => Listed(r, f)) == Where(reviews, r => Listed(r, f))
  {
    WhereSubsequence(reviews, r => Listed(r, f));
    WhereIdempotent(reviews, r => Listed(r, f));
  }

  // ---------------------------------------------------------------------
  // Stats
  // ---------------------------------------------------------------------

  /** `reviews.filter(r => r.status === status).length`. */
  function StatusCount(reviews: seq<ReviewRequest>, status: ReviewStatus): nat {
    |Where(reviews, (r: ReviewRequest) => r.status == status)|
  }

  /** The four counters: Total, Running, Completed, Failed. */
  datatype Stats = Stats(total: nat, running: nat, completed: nat, failed: nat)

  function StatsOf(reviews: seq<ReviewRequest>): Stats {
    Stats(|reviews|, StatusCount(reviews, Running), StatusCount(reviews, Completed), StatusCount(reviews, Failed))
  }

  /**
   * The counters are counts of the loaded reviews (not of the filtered
   * list), and the three status counters miss exactly the pending reviews.
   */
  lemma StatsCount(reviews: seq<ReviewRequest>)
    ensures var s := StatsOf(reviews);
      && s.total == |reviews|
      && s.running == multiset(StatusesOf(reviews))[Running]
      && s.completed == multiset(StatusesOf(reviews))[Completed]
      && s.failed == multiset(StatusesOf(reviews))[Failed]
      && s.running + s.completed + s.failed + StatusCount(reviews, Pending) == s.total
  {
    StatusCountMultiplicity(reviews, Running);
    StatusCountMultiplicity(reviews, Completed);
    StatusCountMultiplicity(reviews, Failed);
    StatusCountsSum(reviews);
  }

  lemma {:induction false} StatusCountMultiplicity(reviews: seq<ReviewRequest>, status: ReviewStatus)
    ensures StatusCount(reviews, status) == multiset(StatusesOf(reviews))[status]
    decreases |reviews|
  {
    if reviews != [] {
      StatusCountMultiplicity(reviews[1..], status);
      assert StatusesOf(reviews) == [reviews[0].status] + StatusesOf(reviews[1..]);
    }
  }

  lemma {:induction false} StatusCountsSum(reviews: seq<ReviewRequest>)
    ensures StatusCount(reviews, Pending) + StatusCount(reviews, Running)
      + StatusCount(reviews, Completed) + StatusCount(reviews, Failed) == |reviews|
    decreases |reviews|
  {
    if reviews != [] {
      StatusCountsSum(reviews[1..]);
    }
  }

  function StatusesOf(reviews: seq<ReviewRequest>): (ss: seq<ReviewStatus>)
  {
    seq(|reviews|, i requires 0 <= i < |reviews| => reviews[i].status)
  }
}

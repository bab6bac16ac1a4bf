/**
 * The review detail page: the file list and the four-way comment filter it
 * shows, the per-file groups, and the load / poll cycle that keeps an
 * unfinished review fresh. The 3-second interval and the promise
 * continuations are discrete events.
 */
module ReviewDetailPage {
  import opened Wrappers
  import opened Collections
  import opened FrontendTypes

  // ---------------------------------------------------------------------
  // Files and filters
  // ---------------------------------------------------------------------

  function Paths(comments: seq<Comment>): (ps: seq<string>)
  {
    seq(|comments|, i requires 0 <= i < |comments| => comments[i].filePath)
  }

  /** `files`: the distinct comment paths. */
  function Files(comments: seq<Comment>): seq<string> {
    Dedup(Paths(comments))
  }

  /** `files` holds each commented path once, in the order the paths first occur. */
  lemma FilesSpec(comments: seq<Comment>)
    ensures Distinct(Files(comments))
    ensures forall p :: p in Files(comments) <==> exists i :: 0 <= i < |comments| && comments[i].filePath == p
    ensures forall p :: p in Files(comments) <==> p in Paths(comments)
    ensures forall i, j :: 0 <= i < j < |Files(comments)| ==>
      FirstIndex(Paths(comments), Files(comments)[i]) < FirstIndex(Paths(comments), Files(comments)[j])
  {
    var paths := Paths(comments);
    assert |paths| == |comments| && forall i :: 0 <= i < |comments| ==> paths[i] == comments[i].filePath;
    DedupSpec(paths);
    forall p | p in Paths(comments)
      ensures exists i :: 0 <= i < |comments| && comments[i].filePath == p
    {
      var i :| 0 <= i < |comments| && Paths(comments)[i] == p;
    }
  }

  /** The four selectors; "all" places no restriction. */
  datatype Selection = Selection(file: string, severity: string, category: string, agent: string)

  const SelectAll := Selection("all", "all", "all", "all")

  predicate Selected(c: Comment, s: Selection) {
    && (s.file == "all" || c.filePath == s.file)
    && (s.severity == "all" || c.severity == s.severity)
    && (s.category == "all" || c.category == s.category)
    && (s.agent == "all" || c.agent == s.agent)
  }

  /** `filteredComments`. */
  function FilteredComments(comments: seq<Comment>, s: Selection): seq<Comment> {
    Where(comments, c => Selected(c, s))
  }

  /**
   * The filtered comments are, in their order, exactly the comments that
   * pass every selector; with every selector at "all" they are all the
   * comments.
   */
  lemma FilteredCommentsSpec(comments: seq<Comment>, s: Selection)
    ensures forall c :: c in FilteredComments(comments, s) <==>
      && c in comments
      && (s.file == "all" || c.filePath == s.file)
      && (s.severity == "all" || c.severity == s.severity)
      && (s.category == "all" || c.category == s.category)
      && (s.agent == "all" || c.agent == s.agent)
    ensures IsSubsequence(FilteredComments(comments, s), comments)
    ensures s == SelectAll ==> FilteredComments(comments, s) == comments
  {
    WhereSubsequence(comments, c => Selected(c, s));
    if s == SelectAll {
      WhereAll(comments, c => Selected(c, s));
    }
  }

  // ---------------------------------------------------------------------
  // Grouped view
  // ---------------------------------------------------------------------

  /** `fileComments`: the filtered comments of one file. */
  function FileGroup(filtered: seq<Comment>, file: string): seq<Comment> {
    Where(filtered, (c: Comment) => c.filePath == file)
  }

  /** A file's group is hidden only when it is empty and no file is selected. */
  predicate GroupShown(filtered: seq<Comment>, file: string, selectedFile: string) {
    !(|FileGroup(filtered, file)| == 0 && selectedFile == "all")
  }

  /** The count on a group's badge. */
  function Badge(filtered: seq<Comment>, file: string): nat {
    |FileGroup(filtered, file)|
  }

  lemma {:induction false} GroupCount(filtered: seq<Comment>, file: string)
    ensures |FileGroup(filtered, file)| == multiset(Paths(filtered))[file]
    decreases |filtered|
  {
    if filtered != [] {
      GroupCount(filtered[1..], file);
      assert Paths(filtered) == [filtered[0].filePath] + Paths(filtered[1..]);
    }
  }

  /**
   * With no file selected, a group is shown exactly when some filtered
   * comment is on that file. With a file selected, every group is shown,
   * and every other file's badge is 0. A badge counts the filtered
   * comments on its file.
   */
  lemma GroupVisibility(comments: seq<Comment>, s: Selection, file: string)
    ensures var filtered := FilteredComments(comments, s);
      && (s.file == "all" ==>
            (GroupShown(filtered, file, s.file) <==> exists c :: c in filtered && c.filePath == file))
      && (s.file != "all" ==> GroupShown(filtered, file, s.file))
      && Badge(filtered, file) == multiset(Paths(filtered))[file]
      && (s.file != "all" && file != s.file ==> Badge(filtered, file) == 0)
  {
    var filtered := FilteredComments(comments, s);
    GroupCount(filtered, file);
    if FileGroup(filtered, file) != [] {
      assert FileGroup(filtered, file)[0] in FileGroup(filtered, file);
    }
  }

  // ---------------------------------------------------------------------
  // Loading and polling
  // ---------------------------------------------------------------------

  const MockFix := "Use parameterized queries or an ORM to prevent SQL injection:\n\nconst result = await db.query(\n  'SELECT * FROM users WHERE email = $1',\n  [email]\n);"

  const MockComments := [
    Comment(10, 12, "src/auth/login.ts",
      "Potential SQL injection vulnerability detected. User input is not properly sanitized before database query.",
      "critical", "security", "security-agent", Some(MockFix)),
    Comment(25, 25, "src/auth/login.ts", "Consider adding error handling for this async operation.",
      "warning", "best_practice", "best-practice-agent", None)
  ]

  /** The demonstration review shown when loading fails. */
  const MockReview := ReviewRequest("rev_demo123", Manual, Completed, None, None, None, MockComments,
    ReviewMetadata(2, ["security-agent", "best-practice-agent"]))

  function StatusOf(review: Option<ReviewRequest>): Option<ReviewStatus> {
    if review.Some? then Some(review.value.status) else None
  }

  /** The interval callback's test: `review?.status` is "pending" or "running". */
  predicate InFlight(status: Option<ReviewStatus>) {
    status == Some(Pending) || status == Some(Running)
  }

  /**
   * The page's state:
   *  - `review` and `loading` are the component state;
   *  - `interval` is the live interval, holding the status its callback
   *    sees (the one of the render that installed it);
   *  - `deps` is the status the effect last ran with, `None` before it first ran;
   *  - `fetched` lists the ids requested from the API, in order.
   */
  datatype Page = Page(
    review: Option<ReviewRequest>,
    loading: bool,
    interval: Option<Option<ReviewStatus>>,
    deps: Option<Option<ReviewStatus>>,
    fetched: seq<string>)

  const InitialPage := Page(None, true, None, None, [])

  /** The effect's dependency `review?.status` differs from the one it last ran with. */
  predicate EffectDue(p: Page) {
    p.deps != Some(StatusOf(p.review))
  }

  /** The review a settled fetch leaves: the fetched one, or the mock when it threw. */
  function Loaded(outcome: Outcome<ReviewRequest>): ReviewRequest {
    if outcome.Returned? then outcome.value else MockReview
  }

  /** JavaScript truthiness of the route's `id`: present and not empty. */
  predicate HasId(id: Option<string>) {
    id.Some? && id.value != ""
  }

  /** `loadReview(silent)` once its fetch has settled with `outcome`. */
  function Load(id: Option<string>, p: Page, silent: bool, outcome: Outcome<ReviewRequest>): (q: Page)
    ensures q.loading == (if silent then p.loading else false)
    ensures q.interval == p.interval && q.deps == p.deps
    ensures !HasId(id) ==> q.review == p.review && q.fetched == p.fetched
    ensures HasId(id) ==> q.review == Some(Loaded(outcome)) && q.fetched == p.fetched + [id.value]
  {
    var loading := if silent then p.loading else false;
    if !HasId(id) then p.(loading := loading)
    else p.(review := Some(Loaded(outcome)), loading := loading, fetched := p.fetched + [id.value])
  }

  datatype Event =
    | Effect(outcome: Outcome<ReviewRequest>)  // the effect runs; its load settles with `outcome`
    | Tick(outcome: Outcome<ReviewRequest>)    // the interval fires; a load it starts settles with `outcome`
    | Unmount

  /**
   * One event. The effect clears the previous interval; with an id it
   * installs a new one that sees the current status and loads the review
   * (not silently). A tick loads silently, and only while the status its
   * callback sees is in flight. Unmounting clears the interval.
   */
  function Step(id: Option<string>, p: Page, e: Event): Page {
    match e
    case Effect(outcome) =>
      var ran := p.(deps := Some(StatusOf(p.review)), interval := None);
      if !HasId(id) then ran
      else Load(id, ran.(interval := Some(StatusOf(p.review))), false, outcome)
    case Tick(outcome) =>
      if p.interval.Some? && InFlight(p.interval.value) then Load(id, p, true, outcome) else p
    case Unmount => p.(interval := None)
  }

  function Run(id: Option<string>, p: Page, events: seq<Event>): Page
    decreases |events|
  {
    if events == [] then p else Run(id, Step(id, p, events[0]), events[1..])
  }

  /** A tick fetches exactly when the interval is live and sees a pending or running review. */
  lemma TickFetches(id: Option<string>, p: Page, outcome: Outcome<ReviewRequest>)
    requires HasId(id)
    ensures Step(id, p, Tick(outcome)).fetched ==
      p.fetched + (if p.interval.Some? && InFlight(p.interval.value) then [id.value] else [])
    ensures Step(id, p, Tick(outcome)).loading == p.loading
  {
  }

  /** The interval of a completed or failed review, or no interval at all, never fetches: ticks change nothing. */
  lemma {:induction false} QuietOnceSettled(id: Option<string>, p: Page, events: seq<Event>)
    requires p.interval.None? || !InFlight(p.interval.value)
    requires forall k :: 0 <= k < |events| ==> events[k].Tick?
    ensures Run(id, p, events) == p
    decreases |events|
  {
    if events != [] {
      QuietOnceSettled(id, p, events[1..]);
    }
  }

  /**
   * Failing fetches end the polling: the first replaces the review with the
   * completed mock, so the effect is due again; when its re-run's fetch
   * fails too, the new interval sees a completed review and the effect is
   * no longer due, so only a new mount would fetch again.
   */
  lemma FailuresStopPolling(id: Option<string>, p: Page, o1: Outcome<ReviewRequest>, o2: Outcome<ReviewRequest>)
    requires HasId(id) && !o1.Returned? && !o2.Returned?
    ensures var q := Step(id, p, Effect(o1));
      && q.review == Some(MockReview)
      && (InFlight(StatusOf(p.review)) || p.review.None? ==> EffectDue(q))
    ensures var r := Run(id, p, [Effect(o1), Effect(o2)]);
      && r.review == Some(MockReview)
      && r.interval == Some(Some(Completed))
      && !r.loading
      && !EffectDue(r)
      && r.fetched == p.fetched + [id.value, id.value]
  {
    var q := Step(id, p, Effect(o1));
    var r := Step(id, q, Effect(o2));
    assert [Effect(o1), Effect(o2)][1..] == [Effect(o2)];
    assert Run(id, q, [Effect(o2)]) == Run(id, r, []);
    assert Run(id, p, [Effect(o1), Effect(o2)]) == r;
  }

  /**
   * A running review that completes: the second tick fetches the completed
   * review, which changes the effect's dependency; the re-run effect loads
   * it a third time (not silently), after which the effect is settled and
   * its interval sees a completed review.
   */
  lemma CompletionRefetches(id: Option<string>, p: Page, r1: ReviewRequest, r2: ReviewRequest)
    requires HasId(id) && r1.status == Running && r2.status == Completed
    requires StatusOf(p.review) == Some(Running) && p.interval == Some(Some(Running)) && p.deps == Some(Some(Running))
    ensures var q := Run(id, p, [Tick(Returned(r1)), Tick(Returned(r2))]);
      && q.review == Some(r2)
      && q.fetched == p.fetched + [id.value, id.value]
      && EffectDue(q)
    ensures var r := Run(id, p, [Tick(Returned(r1)), Tick(Returned(r2)), Effect(Returned(r2))]);
      && r.review == Some(r2)
      && r.fetched == p.fetched + [id.value, id.value, id.value]
      && r.interval == Some(Some(Completed))
      && !EffectDue(r)
  {
    var q1 := Step(id, p, Tick(Returned(r1)));
    var q2 := Step(id, q1, Tick(Returned(r2)));
    var q3 := Step(id, q2, Effect(Returned(r2)));
    assert q1.fetched == p.fetched + [id.value] && q1.interval == p.interval;
    assert q2.fetched == p.fetched + [id.value, id.value];
    assert q3.fetched == p.fetched + [id.value, id.value, id.value];
    RunSteps(id, p, Tick(Returned(r1)), [Tick(Returned(r2))]);
    RunSteps(id, q1, Tick(Returned(r2)), []);
    RunSteps(id, p, Tick(Returned(r1)), [Tick(Returned(r2)), Effect(Returned(r2))]);
    RunSteps(id, q1, Tick(Returned(r2)), [Effect(Returned(r2))]);
    RunSteps(id, q2, Effect(Returned(r2)), []);
  }

  lemma RunSteps(id: Option<string>, p: Page, e: Event, rest: seq<Event>)
    ensures Run(id, p, [e] + rest) == Run(id, Step(id, p, e), rest)
  {
    assert ([e] + rest)[1..] == rest;
  }

  /** The page as a component instance, its state changed by the events above. */
  class ReviewDetail {
    const id: Option<string>
    var review: Option<ReviewRequest>
    var loading: bool
    var interval: Option<Option<ReviewStatus>>
    var deps: Option<Option<ReviewStatus>>
    var fetched: seq<string>

    function State(): Page
      reads this
    {
      Page(review, loading, interval, deps, fetched)
    }

    constructor (id: Option<string>)
      ensures this.id == id && State() == InitialPage
    {
      this.id := id;
      review := None;
      loading := true;
      interval := None;
      deps := None;
      fetched := [];
    }

    /** `loadReview(silent)`, its fetch settling with `outcome`. */
    method LoadReview(silent: bool, outcome: Outcome<ReviewRequest>)
      modifies this
      ensures State() == Load(id, old(State()), silent, outcome)
    {
      if !silent {
        loading := true;
      }
      if HasId(id) {
        fetched := fetched + [id.value];
        match outcome {
          case Returned(data) => review := Some(data);
          case _ => review := Some(MockReview);
        }
      }
      if !silent {
        loading := false;
      }
    }

    /** The effect on `[id, review?.status]`: tear down the old interval, then load and poll. */
    method RunEffect(outcome: Outcome<ReviewRequest>)
      modifies this
      ensures State() == Step(id, old(State()), Effect(outcome))
    {
      interval := None;
      var status := if review.Some? then Some(review.value.status) else None;
      deps := Some(status);
      if HasId(id) {
        interval := Some(status);
        LoadReview(false, outcome);
      }
    }

    /** The 3-second interval fires. */
    method OnTick(outcome: Outcome<ReviewRequest>)
      modifies this
      ensures State() == Step(id, old(State()), Tick(outcome))
    {
      if interval.Some? && (interval.value == Some(Pending) || interval.value == Some(Running)) {
        LoadReview(true, outcome);
      }
    }

    method OnUnmount()
      modifies this
      ensures State() == Step(id, old(State()), Unmount)
    {
      interval := None;
    }
  }
}

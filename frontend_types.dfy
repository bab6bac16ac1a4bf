/**
 * The records the web frontend exchanges with the backend: reviews with
 * their comments, the review-creation payload, the pipeline configuration
 * and the metrics snapshot, plus the outcomes of the calls that fetch them.
 */
module FrontendTypes {
  import opened Wrappers

  datatype ReviewSource = Manual | GitHub {
    function Name(): string {
      match this
      case Manual => "manual"
      case GitHub => "github"
    }
  }

  datatype ReviewStatus = Pending | Running | Completed | Failed {
    function Name(): string {
      match this
      case Pending => "pending"
      case Running => "running"
      case Completed => "completed"
      case Failed => "failed"
    }
  }

  /** A review comment as the frontend receives it; severity, category and agent are the wire strings. */
  datatype Comment = Comment(
    lineStart: int,
    lineEnd: int,
    filePath: string,
    text: string,
    severity: string,
    category: string,
    agent: string,
    suggestedFix: Option<string>)

  datatype ReviewMetadata = ReviewMetadata(totalComments: int, agentsUsed: seq<string>)

  datatype ReviewRequest = ReviewRequest(
    id: string,
    source: ReviewSource,
    status: ReviewStatus,
    repoFullName: Option<string>,
    pullRequestNumber: Option<int>,
    diff: Option<string>,
    comments: seq<Comment>,
    metadata: ReviewMetadata)

  datatype CreateReviewPayload = CreateReviewPayload(
    source: ReviewSource,
    diff: Option<string>,
    repoFullName: Option<string>,
    pullRequestNumber: Option<int>)

  datatype PipelineConfig = PipelineConfig(
    pipelineMode: string,
    llmProvider: string,
    llmModel: string,
    llmDeterministic: bool,
    githubCommentSyncEnabled: bool,
    maxDiffSizeBytes: int,
    enablePrometheusMetrics: bool)

  /**
   * A metric value. The frontend reads numbers with `parseFloat`; the model
   * keeps the text that was read instead of its floating-point value.
   */
  datatype Number = Zero | Parsed(lexeme: string)

  datatype StatusCounts = StatusCounts(pending: Number, running: Number, completed: Number, failed: Number)

  datatype MetricsData = MetricsData(
    llmRequestsTotal: Number,
    llmErrorsTotal: Number,
    llmLatencyP95: Number,
    llmTokensTotal: Number,
    reviewsTotal: Number,
    reviewsByStatus: StatusCounts)

  /**
   * How an awaited API call ended: with a value, by throwing an `Error`
   * (which has a message), or by throwing something else.
   */
  datatype Outcome<+T> = Returned(value: T) | ThrewError(message: string) | ThrewOther

  /** `err instanceof Error ? err.message : 'Failed to create review'`. */
  function FailureMessage<T>(outcome: Outcome<T>): string
    requires !outcome.Returned?
  {
    if outcome.ThrewError? then outcome.message else "Failed to create review"
  }

  /** The route of a review's detail page. */
  function ReviewPath(id: string): string {
    "/review/" + id
  }
}

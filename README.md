# Code-review service core, modelled in Dafny

This project models the core of a code-review service. The service reviews a
unified diff with four rule-based agents. It can mirror the result onto a
GitHub pull request, and a web dashboard lets users submit reviews and
inspect them. The model covers these parts:

- **The multi-agent pipeline** (`MultiAgentPipeline`). It parses a unified diff into files with numbered
  added and deleted lines. The complexity, debug-artifact, security and testing agents then run in a fixed
  order. The pipeline tallies severities and categories and builds the one-paragraph summary.
- **The GitHub comment sync planner** (`GitHubCommentService`). It builds the index of new-side line numbers
  from the stored diff. It splits the comments into inline review comments (bounded by the inline limit)
  and a remainder, builds the Markdown summary body line by line, and decides which GitHub requests to
  make. The first request is a pull-request review; if it is refused, an issue comment follows.
- **The request guards** (`Dependencies`). They check the service API key and enforce the diff size limit.
  The rate limiter keeps a fixed-window counter in a store that may fail.
- **The web frontend's logic**:
  - the API client with its stored key, headers, error handling and fallbacks (`Client`);
  - the dashboard filter and counters (`DashboardPage`);
  - the review page's comment filters, grouping and status polling (`ReviewDetailPage`);
  - the two submit forms (`GitHubSubmitPage`, `ManualSubmitPage`);
  - the API-key settings (`SettingsPage`).

Code that works by updating state is modelled imperatively: the parse loop, the agents' sweeps, the
inline partition, the body builder, the counter store, the client and the page components. Each method
is proved against a specification function. The properties the code promises are then proved about those
functions as lemmas.

The review page polls while the review is pending or running (ReviewDetailPage.tsx:34-39). Its effect
depends on `[id, review?.status]` (ReviewDetailPage.tsx:31-42), so a change of status re-runs the
effect, and the re-run effect issues one more non-silent load, whatever the new status is.
`ReviewDetailPage.CompletionRefetches` shows this third request for a running review that completes,
and `ReviewDetailPage.FailuresStopPolling` the same for the mock review.
After it, ticks fetch nothing (`ReviewDetailPage.QuietOnceSettled`).

Shared pieces live in their own modules: `Wrappers` (Option and Result), `Text` (the Python and
JavaScript whitespace sets, trimming, line splitting, decimal digits), `Collections` (filtering, first
occurrence, tallies, sorted sets), `ReviewSchemas` (the backend review comment) and `FrontendTypes` (the
frontend's records).

## Model

| member | source | states |
|---|---|---|
| GitHubCommentService.MatchHunk | app/services/github_comment_service.py:14-16 | a match needs the `@@ -` prefix; the captured number is the new-side start |
| GitHubCommentService.HunkHeaderRoundTrip | app/services/github_comment_service.py:14-16 | every well-formed hunk header, with or without counts, yields its new-side start |
| GitHubCommentService.NewSideRoundTrip | app/services/github_comment_service.py:14-16 | the `+start[,count] @@` part of a header is read back as its start |
| GitHubCommentService.MalformedHunk | app/services/github_comment_service.py:14-16 | a line starting `@@` without `@@ -` does not match |
| GitHubCommentService.BuildDiffIndex | app/services/github_comment_service.py:118-157 | the loop computes the fold of the line step over the diff, and no file is indexed with an empty line set |
| GitHubCommentService.IndexStepResets | app/services/github_comment_service.py:128-139 | a `diff --git` line forgets the current file and hunk; an unparsable `@@` line stops numbering |
| GitHubCommentService.BodyLineStep | app/services/github_comment_service.py:144-155 | inside a hunk, a `+` or context line indexes the current number and advances it; a `-` or `\` line changes nothing |
| GitHubCommentService.HunkBodyIndexed | app/services/github_comment_service.py:144-155 | a hunk body indexes exactly the consecutive new-side numbers from its header's start |
| GitHubCommentService.AddRangeLines | app/services/github_comment_service.py:146-155 | adding a range touches only its file and adds exactly the numbers in the range |
| GitHubCommentService.FileSectionIndexed | app/services/github_comment_service.py:132-155 | a `+++ b/` line, a hunk header and a body index the trimmed path with the body's new-side lines |
| GitHubCommentService.HunkIndexed | app/services/github_comment_service.py:135-155 | a further hunk in the same file continues indexing that file from its own start |
| GitHubCommentService.FileHeaderStep | app/services/github_comment_service.py:132-134 | a `+++ b/` line makes the trimmed path the current file |
| GitHubCommentService.HunkHeaderStep | app/services/github_comment_service.py:135-141 | a matching hunk header sets the next line number to its new-side start |
| GitHubCommentService.RunIndexNoEmptyEntries | app/services/github_comment_service.py:118-157 | indexing never creates a file entry with no lines |
| GitHubCommentService.UnindexedWithoutFileHeader | app/services/github_comment_service.py:142-143 | without a `+++ b/` line nothing is indexed |
| GitHubCommentService.UnindexedWithoutHunkHeader | app/services/github_comment_service.py:135-143 | without a matching hunk header nothing is indexed |
| GitHubCommentService.FormatLineRange | app/services/github_comment_service.py:21-28 | empty exactly when both bounds are non-positive; a range has a dash exactly when both bounds are positive and differ |
| GitHubCommentService.CommentLineNumber | app/services/github_comment_service.py:160-164 | the end line when positive, else the start line when positive, else none |
| GitHubCommentService.CanMapInline | app/services/github_comment_service.py:167-176 | true exactly when the comment has a path and a line number that the diff index holds for that path |
| GitHubCommentService.ToInlinePayload | app/services/github_comment_service.py:192-207 | the payload is on the RIGHT side at the comment's line; it has a start line exactly when both bounds are non-zero and the end exceeds the start |
| GitHubCommentService.Partition | app/services/github_comment_service.py:210-229 | at most `budget` inline comments; inline and remainder together are as many as the input |
| GitHubCommentService.BuildInlineReviewComments | app/services/github_comment_service.py:210-229 | the result is the partition of the comments by the diff index, with a negative limit treated as zero |
| GitHubCommentService.PartitionComments | app/services/github_comment_service.py:221-227 | the loop computes exactly the specification's split |
| GitHubCommentService.PartitionInterleaves | app/services/github_comment_service.py:221-227 | the input is an interleaving of the inline sources and the remainder, so both keep input order |
| GitHubCommentService.PartitionIsExactSplit | app/services/github_comment_service.py:221-227 | every comment goes to exactly one side (multiset equality) |
| GitHubCommentService.InterleavesMultiset | app/services/github_comment_service.py:221-227 | an interleaving is a split of the multiset |
| GitHubCommentService.PartitionInlineMappable | app/services/github_comment_service.py:221-227 | every inline payload maps into the diff index and has a line |
| GitHubCommentService.PartitionSaturated | app/services/github_comment_service.py:221-227 | a mappable comment is left over only when the inline budget is used up |
| GitHubCommentService.FormatMetrics | app/services/github_comment_service.py:49-74 | no lines without metadata; otherwise a metrics line first, then at most a severity line and a categories line |
| GitHubCommentService.MetricsLineContents | app/services/github_comment_service.py:54-72 | the metrics line carries the metadata's non-zero total or else the caller's, and the files reviewed exactly when non-zero; the severity line appears exactly when the breakdown is non-empty and the categories line exactly when the list is non-empty, each carrying its values, severity before categories |
| GitHubCommentService.SafeSummary | app/services/github_comment_service.py:86 | a missing or empty summary becomes "No summary provided."; a given summary is what remains of it between two runs of whitespace, with no whitespace at either end |
| GitHubCommentService.SafeSummaryEmptyIffBlank | app/services/github_comment_service.py:86 | a given summary strips to the empty string exactly when it is all whitespace |
| GitHubCommentService.FindingLines | app/services/github_comment_service.py:103-107 | two lines (finding and blank) per listed comment |
| GitHubCommentService.BuildGitHubCommentBody | app/services/github_comment_service.py:77-115 | the built lines are the specification body for the stripped summary |
| GitHubCommentService.BuildHeaderLines | app/services/github_comment_service.py:89-97 | heading, summary, optional inline note and metrics, in that order |
| GitHubCommentService.BuildKeyFindingLines | app/services/github_comment_service.py:100-111 | the key-findings section: the no-issues line, or the numbered list and the "more" line |
| GitHubCommentService.FindingLinesSnoc | app/services/github_comment_service.py:105-107 | listing one more comment appends its finding and a blank line |
| GitHubCommentService.FindingsOfConcat | app/services/github_comment_service.py:77-115 | the findings and "more" counts of a concatenation are the concatenations |
| GitHubCommentService.HeaderHasNoFindings | app/services/github_comment_service.py:89-97 | the header lines list no findings |
| GitHubCommentService.NoFindingsIn | app/services/github_comment_service.py:77-115 | lines without findings or "more" lines contribute nothing to either |
| GitHubCommentService.FindingLinesListed | app/services/github_comment_service.py:105-107 | the listed findings are the selected comments, numbered from the start |
| GitHubCommentService.BodyListsLeadingComments | app/services/github_comment_service.py:100-111 | the body lists exactly the first `min(limit, n)` comments numbered from 1, and a "more" line counts the rest |
| GitHubCommentService.LeadingListed | app/services/github_comment_service.py:103-107 | listing the first `k` comments numbers them 1 to `k` |
| GitHubCommentService.BodyCountsAreKeyFindings | app/services/github_comment_service.py:77-115 | the findings of the whole body are those of the key-findings section |
| GitHubCommentService.KeyFindingsCounted | app/services/github_comment_service.py:100-111 | the section lists the leading comments and reports the number left out |
| GitHubCommentService.TailCounts | app/services/github_comment_service.py:108-111 | the "more" tail contributes only its count |
| GitHubCommentService.BodyInlineNote | app/services/github_comment_service.py:90-92 | the inline note is the fifth line exactly when inline comments were posted, and absent otherwise |
| GitHubCommentService.FindingLinesNoNote | app/services/github_comment_service.py:105-107 | finding lines are never inline notes |
| GitHubCommentService.BodyFrame | app/services/github_comment_service.py:77-115 | the body opens with the heading and the summary and ends with the footer; the no-issues line appears exactly when there are no comments |
| GitHubCommentService.FindingLinesNoIssues | app/services/github_comment_service.py:105-107 | finding lines never include the no-issues line |
| GitHubCommentService.ParsePyInt | app/services/github_comment_service.py:318-322 | `int()` accepts only text that is non-blank after stripping and holds nothing but a leading sign, digits and underscores |
| GitHubCommentService.Ungrouped | app/services/github_comment_service.py:319 | dropping the grouping underscores leaves only digits, and a run of plain digits is left as it is |
| GitHubCommentService.ParsePyIntOfGrouped | app/services/github_comment_service.py:319 | digits grouped by single underscores are read as the value of the digits alone |
| GitHubCommentService.ParsePyIntThousand | app/services/github_comment_service.py:319 | `1_000` is read as one thousand |
| GitHubCommentService.ParsePyIntRefusesStrayUnderscore | app/services/github_comment_service.py:319-322 | a leading, trailing or doubled underscore is refused |
| GitHubCommentService.ParsePyIntOfIntToString | app/services/github_comment_service.py:318-322 | every integer's decimal text is read back as that integer |
| GitHubCommentService.NegativeReadBack | app/services/github_comment_service.py:318-322 | a negative integer's text is read back |
| GitHubCommentService.NaturalReadBack | app/services/github_comment_service.py:318-322 | a natural number's text is read back |
| GitHubCommentService.ParsePyIntOfDigits | app/services/github_comment_service.py:318-322 | a run of digits is read as its decimal value |
| GitHubCommentService.ParsePyIntOfNegative | app/services/github_comment_service.py:318-322 | a minus sign and digits are read as the negated value |
| GitHubCommentService.SyncTarget | app/services/github_comment_service.py:306-322 | a target exists exactly when sync is on, the source is github, the repo is non-empty and the PR number is truthy and parses; it is that repo and number |
| GitHubCommentService.SyncReviewToGitHub | app/services/github_comment_service.py:300-357 | the requests made are the specification plan |
| GitHubCommentService.SyncToTarget | app/services/github_comment_service.py:324-357 | the requests for a resolved target are the target plan |
| GitHubCommentService.SyncSkips | app/services/github_comment_service.py:306-322 | no request is made exactly when one of the guards fails |
| GitHubCommentService.SyncReviewThenFallback | app/services/github_comment_service.py:324-357 | one or two requests; a review carrying exactly the inline split comes first when there are inline comments; the issue comment is skipped exactly when that review is accepted; the fallback body accounts for every comment |
| GitHubCommentService.TargetPlanShape | app/services/github_comment_service.py:324-357 | the same shape, stated for a resolved repository and PR number |
| MultiAgentPipeline.FirstPlusNumber | app/review_pipeline/multi_agent_pipeline.py:39-42 | no number exactly when no `+` is followed by a digit |
| MultiAgentPipeline.FirstPlusNumberOf | app/review_pipeline/multi_agent_pipeline.py:39-42 | the first `+digits` in a hunk header is the new-side start |
| MultiAgentPipeline.NormalizeGitPath | app/review_pipeline/multi_agent_pipeline.py:33-37 | `+++ b/path` yields the path |
| MultiAgentPipeline.Slot | app/review_pipeline/multi_agent_pipeline.py:44-53 | the recorded line number is at least 1 and is the counter when the counter is positive |
| MultiAgentPipeline.KeepReported | app/review_pipeline/multi_agent_pipeline.py:58-61 | keeps exactly the files with a known path or some added or deleted line |
| MultiAgentPipeline.ParseUnifiedDiff | app/review_pipeline/multi_agent_pipeline.py:20-61 | the loop computes the fold of the line step over the diff's lines, then the final filter |
| MultiAgentPipeline.ParseStep | app/review_pipeline/multi_agent_pipeline.py:25-56 | a `diff --git` line closes the open file and opens an unknown one with the counter at 0; any other line keeps the closed files and whether a file is open, and drops no recorded line |
| MultiAgentPipeline.RunParseAppend | app/review_pipeline/multi_agent_pipeline.py:24-56 | parsing one more line is one more step |
| MultiAgentPipeline.RunParseCountsSections | app/review_pipeline/multi_agent_pipeline.py:26-31 | each `diff --git` line starts exactly one file |
| MultiAgentPipeline.ParsedFilesFromSections | app/review_pipeline/multi_agent_pipeline.py:20-61 | at most one parsed file per `diff --git` line; none without one |
| MultiAgentPipeline.RunParsePositive | app/review_pipeline/multi_agent_pipeline.py:44-53 | the parse keeps every recorded line number positive |
| MultiAgentPipeline.ParsedNumbersPositive | app/review_pipeline/multi_agent_pipeline.py:44-53 | every added and deleted line of every parsed file has a positive number |
| MultiAgentPipeline.HunkHeaderResets | app/review_pipeline/multi_agent_pipeline.py:39-42 | a hunk header sets the line counter to its `+` number and changes nothing else |
| MultiAgentPipeline.HunkHeaderLine | app/review_pipeline/multi_agent_pipeline.py:26-42 | a hunk header is taken by the `@@` branch, not by a file branch |
| MultiAgentPipeline.HunkBodyNumbering | app/review_pipeline/multi_agent_pipeline.py:44-56 | additions and context lines are numbered consecutively from the header's start; deletions take the current number without advancing it |
| MultiAgentPipeline.BodyLineStep | app/review_pipeline/multi_agent_pipeline.py:44-56 | one body line appends an addition or deletion at the current number and advances for all but deletions |
| MultiAgentPipeline.AgentRules | app/review_pipeline/multi_agent_pipeline.py:71-160 | every rule of an agent belongs to that agent |
| MultiAgentPipeline.CodeFiles | app/review_pipeline/multi_agent_pipeline.py:170 | exactly the `.py` files whose path does not mention "test" |
| MultiAgentPipeline.CodeFilesFirst | app/review_pipeline/multi_agent_pipeline.py:170-174 | the first code file is the earliest code file in the input |
| MultiAgentPipeline.TestingAgentSpec | app/review_pipeline/multi_agent_pipeline.py:163-188 | at most one comment; there is one exactly when a code file changed and no test path was touched; it points at lines 1-5 of the first code file |
| MultiAgentPipeline.RunAgent | app/review_pipeline/multi_agent_pipeline.py:71-188 | an agent's run produces its specification comments |
| MultiAgentPipeline.SweepFiles | app/review_pipeline/multi_agent_pipeline.py:76-92 | the nested loops over files and added lines compute the rule sweep |
| MultiAgentPipeline.FileSweepSnoc | app/review_pipeline/multi_agent_pipeline.py:77-91 | one more added line appends its hits |
| MultiAgentPipeline.RulesSweepSnoc | app/review_pipeline/multi_agent_pipeline.py:76-91 | one more file appends its sweep |
| MultiAgentPipeline.RuleHitsCount | app/review_pipeline/multi_agent_pipeline.py:74-160 | a line yields one comment per rule that fires on it |
| MultiAgentPipeline.FileSweepCount | app/review_pipeline/multi_agent_pipeline.py:77-91 | a file yields one comment per firing of a rule on an added line |
| MultiAgentPipeline.RulesSweepCount | app/review_pipeline/multi_agent_pipeline.py:76-92 | the sweep yields one comment per firing over all files |
| MultiAgentPipeline.SweepCount | app/review_pipeline/multi_agent_pipeline.py:71-160 | an agent's sweep size is the total firing count of its rules |
| MultiAgentPipeline.SumFileFiringStep | app/review_pipeline/multi_agent_pipeline.py:77-91 | the firing count of a file grows by the last line's hits |
| MultiAgentPipeline.SumFiringStep | app/review_pipeline/multi_agent_pipeline.py:76-91 | the firing count grows by the last file's count |
| MultiAgentPipeline.SumFiringEmpty | app/review_pipeline/multi_agent_pipeline.py:76-92 | no files, no firings |
| MultiAgentPipeline.SumFileFiringEmpty | app/review_pipeline/multi_agent_pipeline.py:77-91 | no added lines, no firings |
| MultiAgentPipeline.AgentCounts | app/review_pipeline/multi_agent_pipeline.py:71-160 | the complexity agent comments once per long line, the security agent once per line with a dangerous token, the debug agent once per TODO/FIXME line plus once per print line outside test paths |
| MultiAgentPipeline.RuleHitsSource | app/review_pipeline/multi_agent_pipeline.py:74-160 | every comment comes from a rule that fires on that added line and points at its number |
| MultiAgentPipeline.RaisedAt | app/review_pipeline/multi_agent_pipeline.py:77-91 | a comment raised on one added line is raised in the file |
| MultiAgentPipeline.FileSweepSource | app/review_pipeline/multi_agent_pipeline.py:77-91 | every comment of a file's sweep was raised on one of its added lines |
| MultiAgentPipeline.RaisedInFilePrefix | app/review_pipeline/multi_agent_pipeline.py:77-91 | raised in a prefix of the added lines implies raised in the file |
| MultiAgentPipeline.SweepSource | app/review_pipeline/multi_agent_pipeline.py:71-160 | every sweep comment was raised on an added line and names its agent |
| MultiAgentPipeline.RulesSweepSource | app/review_pipeline/multi_agent_pipeline.py:76-92 | every sweep comment was raised on an added line of some file |
| MultiAgentPipeline.RaisedInPrefix | app/review_pipeline/multi_agent_pipeline.py:76-92 | raised in a prefix of the files implies raised in the files |
| MultiAgentPipeline.RaisedInLast | app/review_pipeline/multi_agent_pipeline.py:76-92 | raised in the last file implies raised in the files |
| MultiAgentPipeline.RaisedByNamesAgent | app/review_pipeline/multi_agent_pipeline.py:81-147 | a rule's comment names the rule's agent |
| MultiAgentPipeline.SeverityMixSentence | app/review_pipeline/multi_agent_pipeline.py:206-208 | with comments, the second sentence lists one `level:count` text per distinct severity, in first-occurrence order, counting the comments at that level |
| MultiAgentPipeline.FocusAreasSentence | app/review_pipeline/multi_agent_pipeline.py:209-211 | with comments, the third sentence lists the comments' categories once each, sorted |
| MultiAgentPipeline.RunMultiAgentReview | app/review_pipeline/multi_agent_pipeline.py:215-243 | the summary, comments and metadata are the specification outcome |
| MultiAgentPipeline.SkippedRun | app/review_pipeline/multi_agent_pipeline.py:216-224 | a missing or empty diff yields the skip message, no comments, zero counts and all four agent names |
| MultiAgentPipeline.AgentOrder | app/review_pipeline/multi_agent_pipeline.py:191-196 | comments come in agent order (complexity, debug artifacts, security, testing), each naming one of the four agents |
| MultiAgentPipeline.CommentNamesAgent | app/review_pipeline/multi_agent_pipeline.py:191-196 | every comment of the four agents names one of them |
| MultiAgentPipeline.MetadataAgrees | app/review_pipeline/multi_agent_pipeline.py:232-240 | the total is the comment count, the file count is the parsed file count, and the severity tally and category set agree with the comments |
| MultiAgentPipeline.SeverityTally | app/review_pipeline/multi_agent_pipeline.py:232 | each severity appears once, with its count, in first-occurrence order |
| MultiAgentPipeline.CategorySet | app/review_pipeline/multi_agent_pipeline.py:233 | the categories are sorted, without duplicates, and are exactly the comments' categories |
| MultiAgentPipeline.SummaryShape | app/review_pipeline/multi_agent_pipeline.py:199-212 | the summary joins one sentence when there are no comments and three otherwise; the first sentence reports the file and comment counts |
| MultiAgentPipeline.MetadataEmptiness | app/review_pipeline/multi_agent_pipeline.py:232-240 | the severity and category parts are empty exactly when there are no comments |
| MultiAgentPipeline.SummaryPartsShape | app/review_pipeline/multi_agent_pipeline.py:199-212 | one sentence plus one per non-empty severity mix and category list; the first sentence reports the counts |
| Dependencies.RequireServiceApiKey | app/api/dependencies.py:14-20 | 503 when no key is configured, 401 on a mismatch, otherwise the header value |
| Dependencies.ValidateDiffSize | app/api/dependencies.py:43-51 | a missing diff passes; otherwise it passes exactly when it is within the limit, else 413 with the limit in the message |
| Dependencies.CounterStore.Incr | app/api/dependencies.py:29 | the store counts up the key, or fails and changes nothing |
| Dependencies.CounterStore.Expire | app/api/dependencies.py:31 | the store sets the key's expiry, or fails |
| Dependencies.CounterStore.Ttl | app/api/dependencies.py:33 | the store reports the key's remaining time, or fails |
| Dependencies.RateKey | app/api/dependencies.py:26-27 | the key starts with `rl:<api key>:` |
| Dependencies.RateKeySeparatesClients | app/api/dependencies.py:26-27 | different client hosts get different counters |
| Dependencies.RetryAfter | app/api/dependencies.py:34 | a positive TTL, else the window |
| Dependencies.EnforceRateLimit | app/api/dependencies.py:23-40 | the decision and the new store state are the specification's |
| Dependencies.AfterCount | app/api/dependencies.py:30-38 | the steps after a successful count follow the specification |
| Dependencies.HealthyStoreDecision | app/api/dependencies.py:23-38 | with a healthy store the counter goes up by one, the window starts on the first request only, and the request is refused exactly past the maximum with the right retry hint |
| Dependencies.HealthyCounted | app/api/dependencies.py:30-38 | the same, after the count |
| Dependencies.ExpiryOnlyOnFirst | app/api/dependencies.py:30-31 | an existing counter's expiry is never reset |
| Dependencies.StoreErrorAllows | app/api/dependencies.py:39-40 | a store failure lets the request through and changes no counter |
| Dependencies.RejectionNeedsHealthyStore | app/api/dependencies.py:28-40 | a refusal needs the INCR, the EXPIRE of a first request and the TTL read to succeed, and a count past the maximum |
| Dependencies.FixedWindow | app/api/dependencies.py:23-38 | within one window the first `max` requests pass and every later one gets 429 with the window as the retry hint |
| Dependencies.WindowContinues | app/api/dependencies.py:23-38 | the same from any count already in the window |
| Client.LocalStorage.GetItem | app/frontend/src/api/client.ts:13 | a value exactly when the entry exists |
| Client.ApiClient.constructor | app/frontend/src/api/client.ts:11-14 | the key is loaded from storage |
| Client.ApiClient.SetApiKey | app/frontend/src/api/client.ts:16-19 | the key is set and persisted; storage and field agree |
| Client.ApiClient.ClearApiKey | app/frontend/src/api/client.ts:25-28 | the key is cleared and removed from storage; storage and field agree |
| Client.KeyLifeCycle | app/frontend/src/api/client.ts:11-28 | `getApiKey` returns a key just set, a client created later over the same storage returns it too, and after clearing neither returns a key |
| Client.LocalStorage.SetItem | app/frontend/src/api/client.ts:18 | the entry holds the new value and no other entry changes |
| Client.LocalStorage.RemoveItem | app/frontend/src/api/client.ts:27 | the entry is gone and no other entry changes |
| Client.ApiErrorMessage | app/frontend/src/api/client.ts:48-51 | the message starts `API Error: `, the status after it reads back as a number, and it ends with ` - ` and the response text |
| Client.RequestHeaders | app/frontend/src/api/client.ts:34-41 | JSON content type unless the caller sets one, the caller's headers, and `X-API-Key` exactly when a non-empty key is held |
| Client.Request | app/frontend/src/api/client.ts:30-54 | succeeds exactly on an ok response with a body; otherwise the error carries the status and text, or the fetch error |
| Client.ListReviews | app/frontend/src/api/client.ts:67-75 | the reviews on success, an empty list on any failure |
| Client.GetConfig | app/frontend/src/api/client.ts:77-93 | the configuration on success, the built-in defaults on any failure |
| Client.FallbacksAbsorbFailures | app/frontend/src/api/client.ts:67-93 | a failed response never reaches the caller of either |
| Client.SpaceRun | app/frontend/src/api/client.ts:139 | the longest whitespace prefix |
| Client.NumberRun | app/frontend/src/api/client.ts:139 | the longest prefix of digits and dots |
| Client.ParsePrometheusMetrics | app/frontend/src/api/client.ts:120-146 | every figure is zero except the request total, which is the last line's reading |
| Client.LastSomeWins | app/frontend/src/api/client.ts:137-143 | the last reading present wins, and there is one exactly when some line has one |
| Client.LastReadingWins | app/frontend/src/api/client.ts:137-143 | the request total comes from the last matching line |
| Client.SampleLineReading | app/frontend/src/api/client.ts:138-140 | `llm_requests_total`, whitespace and a number is read as that number |
| Client.SampleLineMatch | app/frontend/src/api/client.ts:139 | the pattern captures exactly the number |
| Client.SpaceRunOf | app/frontend/src/api/client.ts:139 | the whitespace run stops at the first non-space |
| Client.NumberRunOf | app/frontend/src/api/client.ts:139 | the number run stops at the first non-number character |
| Client.GetMetrics | app/frontend/src/api/client.ts:95-118 | all zeros when the fetch fails, otherwise the parsed text |
| Client.HealthCheck | app/frontend/src/api/client.ts:148-158 | healthy on an ok response, unhealthy on another response, unreachable when the fetch throws |
| DashboardPage.FilterReviews | app/frontend/src/pages/DashboardPage.tsx:42-61 | the staged filters give exactly the reviews the filters list, in order |
| DashboardPage.StagesCompose | app/frontend/src/pages/DashboardPage.tsx:42-61 | the three stages compose into one conjunctive filter |
| DashboardPage.StageIsWhere | app/frontend/src/pages/DashboardPage.tsx:45-58 | a skipped stage is the always-true filter |
| DashboardPage.ListedReviews | app/frontend/src/pages/DashboardPage.tsx:42-61 | a review is listed exactly when it matches status, source and case-insensitive search in id or repo; without a repo only the id can match |
| DashboardPage.UnfilteredListsAll | app/frontend/src/pages/DashboardPage.tsx:42-61 | no filter lists everything, in order |
| DashboardPage.FilterStable | app/frontend/src/pages/DashboardPage.tsx:42-61 | the result keeps the loaded order, and filtering again changes nothing |
| DashboardPage.StatsCount | app/frontend/src/pages/DashboardPage.tsx:82-85 | the counters count the loaded reviews by status; with the pending ones they add up to the total |
| DashboardPage.StatusCountMultiplicity | app/frontend/src/pages/DashboardPage.tsx:83-85 | a counter is that status's multiplicity |
| DashboardPage.StatusCountsSum | app/frontend/src/pages/DashboardPage.tsx:82-85 | the four status counts add up to the total |
| ReviewDetailPage.FilesSpec | app/frontend/src/pages/ReviewDetailPage.tsx:81 | the file list has no duplicates, holds exactly the comments' paths and keeps first-occurrence order |
| ReviewDetailPage.FilteredCommentsSpec | app/frontend/src/pages/ReviewDetailPage.tsx:82-88 | a comment is shown exactly when it matches every selected filter; order is kept; no selection shows all |
| ReviewDetailPage.GroupCount | app/frontend/src/pages/ReviewDetailPage.tsx:250 | a group holds as many comments as the filtered list has for that file |
| ReviewDetailPage.GroupVisibility | app/frontend/src/pages/ReviewDetailPage.tsx:249-258 | without a file selection a group shows exactly when it has comments; with one every group shows, and the others' badges are zero |
| ReviewDetailPage.Load | app/frontend/src/pages/ReviewDetailPage.tsx:44-57 | a loud load ends not loading; a silent one leaves the flag alone; with a non-empty id it fetches once and shows the result or the mock review, and a missing or empty id changes neither review nor fetches |
| ReviewDetailPage.TickFetches | app/frontend/src/pages/ReviewDetailPage.tsx:35-39 | a tick fetches silently exactly when the status seen by the effect was pending or running |
| ReviewDetailPage.CompletionRefetches | app/frontend/src/pages/ReviewDetailPage.tsx:31-57 | a running review that completes is fetched by two ticks, then once more by the re-run effect, after which the effect is settled and its interval sees a completed review |
| ReviewDetailPage.QuietOnceSettled | app/frontend/src/pages/ReviewDetailPage.tsx:35-39 | once the effect saw a settled status, ticks change nothing |
| ReviewDetailPage.FailuresStopPolling | app/frontend/src/pages/ReviewDetailPage.tsx:31-57 | a failed load shows the completed mock review; the re-run effect fetches once more and then polling stops |
| ReviewDetailPage.ReviewDetail.LoadReview | app/frontend/src/pages/ReviewDetailPage.tsx:44-57 | the component's state after a load is the specification's |
| ReviewDetailPage.ReviewDetail.RunEffect | app/frontend/src/pages/ReviewDetailPage.tsx:31-42 | the effect's state change is the specification's |
| ReviewDetailPage.ReviewDetail.OnTick | app/frontend/src/pages/ReviewDetailPage.tsx:35-39 | a tick's state change is the specification's |
| ReviewDetailPage.ReviewDetail.OnUnmount | app/frontend/src/pages/ReviewDetailPage.tsx:40 | clearing the interval is the specification's step |
| GitHubSubmitPage.SubmitGuardsOrder | app/frontend/src/pages/GitHubSubmitPage.tsx:18-43 | blank fields, then a missing key, then a bad PR number are refused in that order; otherwise the payload has the trimmed repo and the parsed number |
| GitHubSubmitPage.EnabledPassesFieldGuard | app/frontend/src/pages/GitHubSubmitPage.tsx:162 | the button is enabled exactly when not submitting and both fields are non-blank, so it never hits the blank-field error |
| GitHubSubmitPage.WrittenNumberAccepted | app/frontend/src/pages/GitHubSubmitPage.tsx:29-43 | a positive number written in decimal is accepted as itself |
| GitHubSubmitPage.PrNumberRead | app/frontend/src/pages/GitHubSubmitPage.tsx:29 | `parseInt` reads a leading decimal number and ignores the rest |
| GitHubSubmitPage.PrNumberParses | app/frontend/src/pages/GitHubSubmitPage.tsx:29 | the digits before a non-digit are read |
| GitHubSubmitPage.PrNumberNotBlank | app/frontend/src/pages/GitHubSubmitPage.tsx:19 | a field starting with digits is not blank |
| GitHubSubmitPage.GitHubSubmitForm.HandleSubmit | app/frontend/src/pages/GitHubSubmitPage.tsx:18-43 | a refused submit sets the error and sends nothing; an accepted one clears the error, starts submitting and sends exactly the payload |
| GitHubSubmitPage.GitHubSubmitForm.Settle | app/frontend/src/pages/GitHubSubmitPage.tsx:44-53 | submitting ends; success navigates to the review, failure shows the error message |
| ManualSubmitPage.SubmitGuardsOrder | app/frontend/src/pages/ManualSubmitPage.tsx:17-35 | a blank diff, then a missing key are refused; otherwise the payload carries the trimmed, non-empty diff |
| ManualSubmitPage.EnabledPassesDiffGuard | app/frontend/src/pages/ManualSubmitPage.tsx:123 | the button is enabled exactly when not submitting and the diff is non-blank |
| ManualSubmitPage.SentDiffIsTrimmed | app/frontend/src/pages/ManualSubmitPage.tsx:34 | submitting the sent diff again gives the same payload |
| ManualSubmitPage.ManualSubmitForm.HandleSubmit | app/frontend/src/pages/ManualSubmitPage.tsx:17-35 | a refused submit sets the error and sends nothing; an accepted one sends exactly the payload |
| ManualSubmitPage.ManualSubmitForm.Settle | app/frontend/src/pages/ManualSubmitPage.tsx:36-45 | submitting ends; success navigates, failure shows the message |
| SettingsPage.SettingsForm.LoadConfig | app/frontend/src/pages/SettingsPage.tsx:36-47 | the configuration is taken when returned, and loading ends either way |
| SettingsPage.SettingsForm.Mount | app/frontend/src/pages/SettingsPage.tsx:28-34 | loads the configuration and prefills the field with a stored non-empty key |
| SettingsPage.SettingsForm.HandleSaveApiKey | app/frontend/src/pages/SettingsPage.tsx:49-56 | a blank field stores nothing; otherwise the trimmed key is stored and passes the submit forms' key check |
| SettingsPage.SettingsForm.HandleClearApiKey | app/frontend/src/pages/SettingsPage.tsx:58-62 | the client's key and the field are cleared |
| Text.TrimEmptyIffBlank | app/frontend/src/pages/SettingsPage.tsx:50 | trimming gives the empty string exactly when the text is all whitespace |
| Text.TrimIdempotent | app/frontend/src/pages/ManualSubmitPage.tsx:34 | trimming twice is trimming once |
| Text.ParseIntOfNatToString | app/frontend/src/pages/GitHubSubmitPage.tsx:29 | `parseInt` reads back a number's decimal text followed by a non-digit |

## Left out

- Markdown rendering. The summary body and the inline comment bodies are modelled as structured lines
  carrying the values they are rendered from; the exact text of `_format_comment_section`, `_format_metrics`
  and `_format_inline_body` is not modelled.
- HTTP and GitHub. `_submit_pull_request_review` and `_post_issue_comment` are modelled as recorded
  requests. Whether GitHub accepts the review is the parameter `reviewAccepted`; logging is not modelled.
- Settings and Redis are parameters. The sync flag, the inline limit, the service key, the window, the
  maximum and the diff limit are arguments. Redis failures are a list of scripted faults; the TTL
  countdown and real time are not modelled, so a window never expires in the model.
- The frontend's network calls are modelled as their outcomes (`Fetched`, `Outcome`), which are
  parameters. Async steps are discrete events: an effect run, a tick, an unmount, a settled request.
- Toasts, console output, spinners and page layout are not modelled.
- Client.ParsePrometheusMetrics: `parseFloat` is not modelled. The request total keeps the matched text;
  every other figure stays zero, as in the source.
- Client.GetMetrics: the fetch is the parameter `body`, and a throwing fetch is `None`.
- Text.Lower: lower-casing is ASCII only. The dashboard search, the agents' path checks and the TODO/FIXME
  rule (`Fires` lower-cases each added line) use it.
- GitHubCommentService.ParsePyInt: only ASCII digits are read. Python's `int()` also reads any other Unicode
  decimal digit (Arabic-Indic, full-width and so on); the model refuses such text. Underscore grouping is modelled.
- MultiAgentPipeline.FirstPlusNumber: `\d` is ASCII digits only here. Python's `\d` on `str` also matches other
  Unicode decimal digits.
- GitHubCommentService.MatchHunk: `\d` is ASCII digits only here, for the same reason.
- GitHubSubmitPage.PrNumberRead: `parseInt` is modelled on decimal digits with an optional sign. Precision above
  2^53 is not modelled: the model reads every digit exactly.
- The mock review's `severity_counts`, `category_counts` and `execution_time_seconds`
  (ReviewDetailPage.tsx:349-352), and the timestamps `created_at` and `updated_at` of every review
  (:354-355), are not modelled. The rest of the mock review is.
- The submit forms read the client's `apiKey` field directly. This is the value `getApiKey()` returns.
- `ParsedFile` is mutated in place in the source. The model builds it as a value in the parse state.
- The base agent's unimplemented `run` is not modelled; only the four concrete agents are.

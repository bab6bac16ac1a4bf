/**
 * The GitHub comment sync planner: which new-side lines a unified diff
 * covers, which review comments can be posted inline on those lines, the
 * Markdown summary body (as a sequence of structured lines), and the choice
 * between a pull-request review and a fallback issue comment.
 */
module GitHubCommentService {
  import opened Wrappers
  import opened Text
  import opened ReviewSchemas

  // =====================================================================
  // Hunk headers: `@@ -a[,b] +c[,d] @@`
  // =====================================================================

  /** What is left after the optional `,<digits>` group of the hunk pattern. */
  function SkipCount(s: string): string {
    if |s| > 0 && s[0] == ',' && DigitRun(s[1..]) > 0 then s[1 + DigitRun(s[1..])..] else s
  }

  /**
   * `_HUNK_PATTERN.match(line)`, anchored at the start of the line but not at
   * its end, yielding the `new_start` group. Each `\d+` is greedy and the
   * pattern's separators are not digits, so the match is unique when it exists.
   */
  function MatchHunk(line: string): (r: Option<nat>)
    ensures r.Some? ==> StartsWith(line, "@@ -")
  {
    if !StartsWith(line, "@@ -") then None
    else
      var a := line[4..];
      var n1 := DigitRun(a);
      if n1 == 0 then None else MatchNewSide(SkipCount(a[n1..]))
  }

  /** The rest of the hunk pattern after the old-side range: ` +c[,d] @@`. */
  function MatchNewSide(b: string): Option<nat> {
    if !StartsWith(b, " +") then None
    else
      var c := b[2..];
      var n3 := DigitRun(c);
      if n3 == 0 then None
      else if !StartsWith(SkipCount(c[n3..]), " @@") then None
      else Some(DigitsValue(c[..n3]))
  }

  /** The optional `,count` part of a hunk header. */
  function CountPart(count: Option<nat>): string {
    if count.Some? then "," + NatToString(count.value) else ""
  }

  /** The header GNU diff writes for a hunk, followed by its section text. */
  function HunkHeader(oldStart: nat, oldCount: Option<nat>, newStart: nat, newCount: Option<nat>, section: string): string {
    "@@ -" + (NatToString(oldStart) + (CountPart(oldCount) + NewSideHeader(newStart, newCount, section)))
  }

  /** The new-side half of a hunk header. */
  function NewSideHeader(newStart: nat, newCount: Option<nat>, section: string): string {
    " +" + (NatToString(newStart) + (CountPart(newCount) + (" @@" + section)))
  }

  /** `s` starts with `p`, so it starts with `p`'s first character. */
  lemma HeadOf(s: string, p: string)
    requires |p| > 0
    ensures StartsWith(s, p) ==> s[0] == p[0]
  {
    if StartsWith(s, p) {
      assert s[..|p|][0] == s[0];
    }
  }

  /** Starting with `p` implies starting with any prefix `q` of `p`. */
  lemma PrefixOf(s: string, p: string, q: string)
    requires StartsWith(p, q)
    ensures StartsWith(s, p) ==> StartsWith(s, q)
  {
    if StartsWith(s, p) {
      assert s[..|q|] == p[..|q|];
    }
  }

  lemma {:induction false} SkipCountPart(count: Option<nat>, rest: string)
    requires |rest| > 0 && rest[0] == ' '
    ensures SkipCount(CountPart(count) + rest) == rest
  {
    if count.Some? {
      var ds := NatToString(count.value);
      var s := CountPart(count) + rest;
      assert s == "," + ds + rest;
      assert s[1..] == ds + rest;
      DigitRunOfNatToString(count.value, rest);
      assert s[1 + |ds|..] == rest;
    } else {
      assert CountPart(count) + rest == rest;
    }
  }

  /** A digit run followed by an optional count leaves exactly what follows them. */
  lemma DigitsThenCount(n: nat, count: Option<nat>, rest: string)
    requires |rest| > 0 && rest[0] == ' '
    ensures var s := NatToString(n) + (CountPart(count) + rest);
      DigitRun(s) == |NatToString(n)| && s[..|NatToString(n)|] == NatToString(n)
      && SkipCount(s[|NatToString(n)|..]) == rest
  {
    var ds := NatToString(n);
    var tail := CountPart(count) + rest;
    assert tail == [] || !IsDigit(tail[0]) by {
      if count.Some? {
        assert tail[0] == ',';
      } else {
        assert tail == rest;
      }
    }
    DigitRunOfNatToString(n, tail);
    assert (ds + tail)[|ds|..] == tail;
    assert (ds + tail)[..|ds|] == ds;
    SkipCountPart(count, rest);
  }

  lemma NewSideRoundTrip(newStart: nat, newCount: Option<nat>, section: string)
    ensures MatchNewSide(NewSideHeader(newStart, newCount, section)) == Some(newStart)
  {
    var b := NewSideHeader(newStart, newCount, section);
    var ds := NatToString(newStart);
    var rest := " @@" + section;
    var c := ds + (CountPart(newCount) + rest);
    assert b == " +" + c;
    assert b[..2] == " +" && b[2..] == c;
    DigitsThenCount(newStart, newCount, rest);
    assert rest[..3] == " @@";
    assert StartsWith(SkipCount(c[|ds|..]), " @@");
    DigitsValueOfNatToString(newStart);
  }

  /** Every well-formed hunk header is recognised, with its new-side start. */
  lemma HunkHeaderRoundTrip(oldStart: nat, oldCount: Option<nat>, newStart: nat, newCount: Option<nat>, section: string)
    ensures MatchHunk(HunkHeader(oldStart, oldCount, newStart, newCount, section)) == Some(newStart)
  {
    var line := HunkHeader(oldStart, oldCount, newStart, newCount, section);
    var ds := NatToString(oldStart);
    var rest := NewSideHeader(newStart, newCount, section);
    var a := ds + (CountPart(oldCount) + rest);
    assert line == "@@ -" + a;
    assert line[..4] == "@@ -" && line[4..] == a;
    assert rest[0] == ' ';
    DigitsThenCount(oldStart, oldCount, rest);
    assert DigitRun(a) == |ds| && SkipCount(a[|ds|..]) == rest;
    NewSideRoundTrip(newStart, newCount, section);
  }

  /** A line that starts with `@@` but not with `@@ -` is never a hunk header. */
  lemma MalformedHunk(line: string)
    requires StartsWith(line, "@@") && !StartsWith(line, "@@ -")
    ensures MatchHunk(line) == None
  {
  }

  // =====================================================================
  // The diff index: file path -> new-side line numbers the diff covers
  // =====================================================================

  type DiffIndex = map<string, set<int>>

  /** `index.get(path)` read as a set (a missing file has no lines). */
  function LinesOf(idx: DiffIndex, f: string): set<int> {
    if f in idx then idx[f] else {}
  }

  /** `index[f].add(n)` on the `defaultdict(set)`. */
  function AddLine(idx: DiffIndex, f: string, n: int): DiffIndex {
    idx[f := LinesOf(idx, f) + {n}]
  }

  /** No file maps to an empty set (the `defaultdict` only creates a key to add to it). */
  ghost predicate NoEmptyEntries(idx: DiffIndex) {
    forall f :: f in idx ==> idx[f] != {}
  }

  /** The loop variables of `_build_diff_index`. */
  datatype IndexState = IndexState(index: DiffIndex, file: Option<string>, next: Option<nat>)

  const InitialIndexState := IndexState(map[], None, None)

  /** One iteration of the loop of `_build_diff_index`. */
  function IndexStep(st: IndexState, line: string): IndexState {
    if StartsWith(line, "diff --git") then IndexState(st.index, None, None)
    else if StartsWith(line, "+++ b/") then st.(file := Some(Trim(Python, line[6..])))
    else if StartsWith(line, "@@") then st.(next := MatchHunk(line))
    else if st.file.None? || st.next.None? then st
    else if StartsWith(line, "+++") || StartsWith(line, "---") then st
    else if StartsWith(line, "+") then
      IndexState(AddLine(st.index, st.file.value, st.next.value), st.file, Some(st.next.value + 1))
    else if StartsWith(line, "-") || StartsWith(line, "\\") then st
    else IndexState(AddLine(st.index, st.file.value, st.next.value), st.file, Some(st.next.value + 1))
  }

  /** The loop of `_build_diff_index` run over `lines` from state `st`. */
  function RunIndex(st: IndexState, lines: seq<string>): IndexState
    decreases |lines|
  {
    if lines == [] then st else RunIndex(IndexStep(st, lines[0]), lines[1..])
  }

  /** `_build_diff_index(diff_text)` as a value. */
  function DiffIndexOf(diffText: Option<string>): DiffIndex {
    if diffText.None? || diffText.value == "" then map[]
    else RunIndex(InitialIndexState, SplitLines(diffText.value)).index
  }

  /**
   * `_build_diff_index`: the loop over the diff's lines, updating the index,
   * the current file and the next new-side line number.
   */
  method BuildDiffIndex(diffText: Option<string>) returns (index: DiffIndex)
    ensures index == DiffIndexOf(diffText)
    ensures NoEmptyEntries(index)
  {
    if diffText.None? || diffText.value == "" {
      return map[];
    }
    var lines := SplitLines(diffText.value);
    index := map[];
    var currentFile: Option<string> := None;
    var nextLine: Option<nat> := None;
    for i := 0 to |lines|
      invariant RunIndex(IndexState(index, currentFile, nextLine), lines[i..]) == RunIndex(InitialIndexState, lines)
      invariant NoEmptyEntries(index)
    {
      var line := lines[i];
      assert lines[i..] == [line] + lines[i + 1..];
      if StartsWith(line, "diff --git") {
        currentFile := None;
        nextLine := None;
        continue;
      }
      if StartsWith(line, "+++ b/") {
        currentFile := Some(Trim(Python, line[6..]));
        continue;
      }
      if StartsWith(line, "@@") {
        nextLine := MatchHunk(line);
        continue;
      }
      if currentFile.None? || nextLine.None? {
        continue;
      }
      if StartsWith(line, "+++") || StartsWith(line, "---") {
        continue;
      }
      if StartsWith(line, "+") {
        index := AddLine(index, currentFile.value, nextLine.value);
        nextLine := Some(nextLine.value + 1);
        continue;
      }
      if StartsWith(line, "-") {
        continue;
      }
      if StartsWith(line, "\\") {
        continue;
      }
      index := AddLine(index, currentFile.value, nextLine.value);
      nextLine := Some(nextLine.value + 1);
    }
  }

  /** The index never holds an empty set for a file, whatever the input. */
  lemma {:induction false} RunIndexNoEmptyEntries(st: IndexState, lines: seq<string>)
    requires NoEmptyEntries(st.index)
    ensures NoEmptyEntries(RunIndex(st, lines).index)
    decreases |lines|
  {
    if lines != [] {
      RunIndexNoEmptyEntries(IndexStep(st, lines[0]), lines[1..]);
    }
  }

  /** A `diff --git` line forgets the current file and hunk; a malformed `@@` line forgets the hunk. */
  lemma IndexStepResets(st: IndexState, line: string)
    ensures StartsWith(line, "diff --git") ==> IndexStep(st, line) == IndexState(st.index, None, None)
    ensures StartsWith(line, "@@") && MatchHunk(line).None? ==> IndexStep(st, line) == st.(next := None)
  {
    HeadOf(line, "@@");
    HeadOf(line, "diff --git");
    HeadOf(line, "+++ b/");
  }

  /** A line of a hunk body: nothing that the loop treats as a header. */
  predicate HunkBodyLine(l: string) {
    !StartsWith(l, "diff --git") && !StartsWith(l, "+++") && !StartsWith(l, "---") && !StartsWith(l, "@@")
  }

  /** Every line of `body` is a hunk body line. */
  predicate HunkBody(body: seq<string>)
    decreases |body|
  {
    body == [] || (HunkBodyLine(body[0]) && HunkBody(body[1..]))
  }

  /** A hunk body line that exists on the new side: a context line or a `+` line. */
  predicate OnNewSide(l: string) {
    !StartsWith(l, "-") && !StartsWith(l, "\\")
  }

  /**
   * Inside a hunk, a context or `+` line is indexed at the current number,
   * which then advances; a `-` or `\` line changes nothing.
   */
  lemma BodyLineStep(st: IndexState, l: string)
    requires st.file.Some? && st.next.Some? && HunkBodyLine(l)
    ensures IndexStep(st, l) == if OnNewSide(l)
      then IndexState(AddLine(st.index, st.file.value, st.next.value), st.file, Some(st.next.value + 1))
      else st
  {
    PrefixOf(l, "+++ b/", "+++");
    HeadOf(l, "+");
    HeadOf(l, "-");
  }

  function NewSideCount(body: seq<string>): nat
    decreases |body|
  {
    if body == [] then 0 else (if OnNewSide(body[0]) then 1 else 0) + NewSideCount(body[1..])
  }

  /** The index with the `k` consecutive lines from `n` added for `f`, one at a time. */
  function AddRange(idx: DiffIndex, f: string, n: int, k: nat): DiffIndex
    decreases k
  {
    if k == 0 then idx else AddRange(AddLine(idx, f, n), f, n + 1, k - 1)
  }

  /** Adding a range touches only `f`, and adds exactly the lines `n .. n + k - 1` to it. */
  lemma {:induction false} AddRangeLines(idx: DiffIndex, f: string, n: int, k: nat)
    ensures forall g :: g != f ==> LinesOf(AddRange(idx, f, n, k), g) == LinesOf(idx, g)
    ensures forall j :: j in LinesOf(AddRange(idx, f, n, k), f) <==> j in LinesOf(idx, f) || n <= j < n + k
    decreases k
  {
    if k > 0 {
      AddRangeLines(AddLine(idx, f, n), f, n + 1, k - 1);
    }
  }

  /**
   * Inside a hunk, the first context or `+` line is indexed at the current
   * number and each later one at the next number; `-` and `\` lines are not
   * indexed and do not advance the number.
   */
  lemma {:induction false} HunkBodyIndexed(st: IndexState, body: seq<string>)
    requires st.file.Some? && st.next.Some?
    requires HunkBody(body)
    ensures RunIndex(st, body) == IndexState(
      AddRange(st.index, st.file.value, st.next.value, NewSideCount(body)),
      st.file,
      Some(st.next.value + NewSideCount(body)))
    decreases |body|
  {
    if body != [] {
      var l := body[0];
      BodyLineStep(st, l);
      HunkBodyIndexed(IndexStep(st, l), body[1..]);
    }
  }

  /**
   * A file section: after `+++ b/<path>` and a hunk header whose new side
   * starts at `c`, the file's lines `c .. c + k - 1` are indexed, where `k`
   * counts the hunk's context and `+` lines.
   */
  lemma FileSectionIndexed(st: IndexState, path: string, header: string, c: nat, body: seq<string>)
    requires MatchHunk(header) == Some(c)
    requires HunkBody(body)
    ensures var f := Trim(Python, path);
      RunIndex(st, ["+++ b/" + path, header] + body)
        == IndexState(AddRange(st.index, f, c, NewSideCount(body)), Some(f), Some(c + NewSideCount(body)))
  {
    var fileLine := "+++ b/" + path;
    var rest := [header] + body;
    assert [fileLine, header] + body == [fileLine] + rest;
    RunIndexCons(st, fileLine, rest);
    FileHeaderStep(st, path);
    HunkHeaderStep(IndexStep(st, fileLine), header, c);
    HunkIndexed(IndexStep(st, fileLine), header, c, body);
  }

  /**
   * A hunk (a header that starts the new side at `c`, then a body) in a
   * file's section indexes its new-side lines from `c` on.
   */
  lemma HunkIndexed(st: IndexState, header: string, c: nat, body: seq<string>)
    requires st.file.Some?
    requires IndexStep(st, header) == st.(next := Some(c))
    requires HunkBody(body)
    ensures RunIndex(st, [header] + body)
      == IndexState(AddRange(st.index, st.file.value, c, NewSideCount(body)), st.file, Some(c + NewSideCount(body)))
  {
    RunIndexCons(st, header, body);
    HunkBodyIndexed(st.(next := Some(c)), body);
  }

  lemma RunIndexCons(st: IndexState, l: string, rest: seq<string>)
    ensures RunIndex(st, [l] + rest) == RunIndex(IndexStep(st, l), rest)
  {
    assert ([l] + rest)[1..] == rest;
  }

  /** A `+++ b/<path>` line makes the trimmed path the current file. */
  lemma FileHeaderStep(st: IndexState, path: string)
    ensures IndexStep(st, "+++ b/" + path) == st.(file := Some(Trim(Python, path)))
  {
    var fileLine := "+++ b/" + path;
    assert fileLine[..6] == "+++ b/" && fileLine[6..] == path;
    HeadOf(fileLine, "diff --git");
  }

  /** A line the hunk pattern matches makes its new-side start the next line number. */
  lemma HunkHeaderStep(st: IndexState, header: string, c: nat)
    requires MatchHunk(header) == Some(c)
    ensures IndexStep(st, header) == st.(next := Some(c))
  {
    HeadOf(header, "@@ -");
    HeadOf(header, "diff --git");
    HeadOf(header, "+++ b/");
    PrefixOf(header, "@@ -", "@@");
  }

  /** Without a `+++ b/` line, nothing is ever indexed. */
  lemma {:induction false} UnindexedWithoutFileHeader(st: IndexState, lines: seq<string>)
    requires st.file.None?
    requires forall k :: 0 <= k < |lines| ==> !StartsWith(lines[k], "+++ b/")
    ensures RunIndex(st, lines).index == st.index
    decreases |lines|
  {
    if lines != [] {
      assert !StartsWith(lines[0], "+++ b/");
      UnindexedWithoutFileHeader(IndexStep(st, lines[0]), lines[1..]);
    }
  }

  /** Without a well-formed hunk header, nothing is ever indexed. */
  lemma {:induction false} UnindexedWithoutHunkHeader(st: IndexState, lines: seq<string>)
    requires st.next.None?
    requires forall k :: 0 <= k < |lines| ==> MatchHunk(lines[k]).None?
    ensures RunIndex(st, lines).index == st.index
    decreases |lines|
  {
    if lines != [] {
      assert MatchHunk(lines[0]).None?;
      UnindexedWithoutHunkHeader(IndexStep(st, lines[0]), lines[1..]);
    }
  }

  // =====================================================================
  // Mapping one comment onto the diff
  // =====================================================================

  /**
   * `_format_line_range`: `""` when neither line is positive, a span
   * `L<start>-<end>` when both are positive and differ, otherwise `L<n>`.
   */
  function FormatLineRange(c: ReviewComment): (r: string)
    ensures r == "" <==> c.lineStart <= 0 && c.lineEnd <= 0
    ensures r != "" ==> r[0] == 'L'
    ensures '-' in r <==> c.lineStart > 0 && c.lineEnd > 0 && c.lineStart != c.lineEnd
  {
    var start := Max0(c.lineStart);
    var end := Max0(c.lineEnd);
    if start <= 0 && end <= 0 then ""
    else if end != 0 && end != start then
      if start != 0 then "L" + NatToString(start) + "-" + NatToString(end) else "L" + NatToString(end)
    else if start != 0 then "L" + NatToString(start)
    else ""
  }

  /** `_comment_line_number`: the end line if positive, else the start line if positive. */
  function CommentLineNumber(c: ReviewComment): (r: Option<nat>)
    ensures r.Some? <==> c.lineEnd > 0 || c.lineStart > 0
    ensures r.Some? ==> r.value > 0
    ensures c.lineEnd > 0 ==> r == Some(c.lineEnd)
    ensures c.lineEnd <= 0 && c.lineStart > 0 ==> r == Some(c.lineStart)
  {
    if c.lineEnd > 0 then Some(c.lineEnd)
    else if c.lineStart > 0 then Some(c.lineStart)
    else None
  }

  /**
   * `_can_map_inline`: the comment names a file and its chosen line is among
   * the file's indexed lines. (The source's check for an empty set is
   * subsumed by membership.)
   */
  function CanMapInline(c: ReviewComment, idx: DiffIndex): (r: bool)
    ensures r <==> c.filePath != "" && CommentLineNumber(c).Some? && c.filePath in idx
                   && CommentLineNumber(c).value in idx[c.filePath]
  {
    if c.filePath == "" then false
    else
      var line := CommentLineNumber(c);
      if line.None? then false
      else if c.filePath !in idx || idx[c.filePath] == {} then false
      else line.value in idx[c.filePath]
  }

  /**
   * One entry of the review's `comments` array. The Markdown `body` is
   * rendered from `source` by `_format_inline_body`; that text is not modelled.
   */
  datatype InlinePayload = InlinePayload(
    path: string,
    line: Option<nat>,
    side: string,
    startLine: Option<int>,
    startSide: Option<string>,
    source: ReviewComment)

  /**
   * `_to_inline_comment_payload`: anchored on the right side at the chosen
   * line, with a start line only for a multi-line range (both ends non-zero,
   * end after start).
   */
  function ToInlinePayload(c: ReviewComment): (p: InlinePayload)
    ensures p.path == c.filePath && p.side == "RIGHT" && p.source == c
    ensures p.line == CommentLineNumber(c)
    ensures p.startLine.Some? <==> c.lineStart != 0 && c.lineEnd != 0 && c.lineEnd > c.lineStart
    ensures p.startLine.Some? ==> p.startLine.value == c.lineStart && p.startSide == Some("RIGHT")
    ensures p.startLine.None? ==> p.startSide.None?
  {
    var multiLine := c.lineStart != 0 && c.lineEnd != 0 && c.lineEnd > c.lineStart;
    InlinePayload(
      c.filePath,
      CommentLineNumber(c),
      "RIGHT",
      if multiLine then Some(c.lineStart) else None,
      if multiLine then Some("RIGHT") else None,
      c)
  }

  // =====================================================================
  // Choosing the inline comments
  // =====================================================================

  /** The two lists `build_inline_review_comments` returns. */
  datatype InlineSplit = InlineSplit(inline: seq<InlinePayload>, remainder: seq<ReviewComment>)

  /** The comments the payloads were made from, in order. */
  function Sources(ps: seq<InlinePayload>): (r: seq<ReviewComment>)
  {
    seq(|ps|, i requires 0 <= i < |ps| => ps[i].source)
  }

  /**
   * The split of `cs` when `budget` more inline payloads may be taken: a
   * comment goes inline while budget remains and it maps onto the diff,
   * otherwise it stays in the remainder.
   */
  function Partition(cs: seq<ReviewComment>, idx: DiffIndex, budget: nat): (r: InlineSplit)
    ensures |r.inline| <= budget
    ensures |r.inline| + |r.remainder| == |cs|
    decreases |cs|
  {
    if cs == [] then InlineSplit([], [])
    else if budget > 0 && CanMapInline(cs[0], idx) && ToInlinePayload(cs[0]).line.Some? then
      var p := Partition(cs[1..], idx, budget - 1);
      InlineSplit([ToInlinePayload(cs[0])] + p.inline, p.remainder)
    else
      var p := Partition(cs[1..], idx, budget);
      InlineSplit(p.inline, [cs[0]] + p.remainder)
  }

  /**
   * `build_inline_review_comments`: index the diff, then sort the comments
   * into inline payloads and the remainder.
   */
  method BuildInlineReviewComments(comments: seq<ReviewComment>, diffText: Option<string>, maxInline: int)
    returns (inline: seq<InlinePayload>, remainder: seq<ReviewComment>)
    ensures InlineSplit(inline, remainder) == Partition(comments, DiffIndexOf(diffText), Max0(maxInline))
  {
    var idx := BuildDiffIndex(diffText);
    inline, remainder := PartitionComments(comments, idx, Max0(maxInline));
  }

  /**
   * The loop of `build_inline_review_comments`: one pass over the comments,
   * appending each to the inline payloads or to the remainder.
   */
  method PartitionComments(comments: seq<ReviewComment>, idx: DiffIndex, limit: nat)
    returns (inline: seq<InlinePayload>, remainder: seq<ReviewComment>)
    ensures InlineSplit(inline, remainder) == Partition(comments, idx, limit)
  {
    inline := [];
    remainder := [];
    PartitionStart(comments, idx, limit);
    for i := 0 to |comments|
      invariant |inline| <= limit
      invariant SplitSoFar(comments, idx, limit, i, inline, remainder)
    {
      var c := comments[i];
      if |inline| < limit && CanMapInline(c, idx) && ToInlinePayload(c).line.Some? {
        PartitionTakes(comments, i, idx, inline, remainder, limit);
        inline := inline + [ToInlinePayload(c)];
      } else {
        PartitionKeeps(comments, i, idx, inline, remainder, limit);
        remainder := remainder + [c];
      }
    }
    PartitionEnd(comments, idx, limit, inline, remainder);
  }

  /** The lists built so far followed by the split of the rest. */
  function Glue(inline: seq<InlinePayload>, remainder: seq<ReviewComment>, rest: InlineSplit): InlineSplit {
    InlineSplit(inline + rest.inline, remainder + rest.remainder)
  }

  /** After `i` comments, the lists built so far and the split of the rest make up the whole split. */
  ghost predicate SplitSoFar(cs: seq<ReviewComment>, idx: DiffIndex, limit: nat, i: nat,
                             inline: seq<InlinePayload>, remainder: seq<ReviewComment>)
  {
    i <= |cs| && |inline| <= limit
      && Glue(inline, remainder, Partition(cs[i..], idx, limit - |inline|)) == Partition(cs, idx, limit)
  }

  lemma PartitionStart(cs: seq<ReviewComment>, idx: DiffIndex, limit: nat)
    ensures SplitSoFar(cs, idx, limit, 0, [], [])
  {
    assert cs[0..] == cs;
    var p := Partition(cs, idx, limit);
    assert [] + p.inline == p.inline && [] + p.remainder == p.remainder;
  }

  lemma PartitionEnd(cs: seq<ReviewComment>, idx: DiffIndex, limit: nat,
                     inline: seq<InlinePayload>, remainder: seq<ReviewComment>)
    requires SplitSoFar(cs, idx, limit, |cs|, inline, remainder)
    ensures InlineSplit(inline, remainder) == Partition(cs, idx, limit)
  {
    assert cs[|cs|..] == [];
    assert inline + [] == inline && remainder + [] == remainder;
  }

  /** Taking comment `i` inline moves it from the rest's split to the inline list built so far. */
  lemma PartitionTakes(cs: seq<ReviewComment>, i: nat, idx: DiffIndex, inline: seq<InlinePayload>,
                       remainder: seq<ReviewComment>, limit: nat)
    requires i < |cs| && |inline| < limit && CanMapInline(cs[i], idx) && ToInlinePayload(cs[i]).line.Some?
    requires SplitSoFar(cs, idx, limit, i, inline, remainder)
    ensures SplitSoFar(cs, idx, limit, i + 1, inline + [ToInlinePayload(cs[i])], remainder)
  {
    assert cs[i..][0] == cs[i] && cs[i..][1..] == cs[i + 1..];
    var p := Partition(cs[i + 1..], idx, limit - (|inline| + 1));
    assert Partition(cs[i..], idx, limit - |inline|) == InlineSplit([ToInlinePayload(cs[i])] + p.inline, p.remainder);
    assert inline + ([ToInlinePayload(cs[i])] + p.inline) == (inline + [ToInlinePayload(cs[i])]) + p.inline;
  }

  /** Leaving comment `i` out moves it from the rest's split to the remainder built so far. */
  lemma PartitionKeeps(cs: seq<ReviewComment>, i: nat, idx: DiffIndex, inline: seq<InlinePayload>,
                       remainder: seq<ReviewComment>, limit: nat)
    requires i < |cs|
    requires !(|inline| < limit && CanMapInline(cs[i], idx) && ToInlinePayload(cs[i]).line.Some?)
    requires SplitSoFar(cs, idx, limit, i, inline, remainder)
    ensures SplitSoFar(cs, idx, limit, i + 1, inline, remainder + [cs[i]])
  {
    assert cs[i..][0] == cs[i] && cs[i..][1..] == cs[i + 1..];
    var p := Partition(cs[i + 1..], idx, limit - |inline|);
    assert Partition(cs[i..], idx, limit - |inline|) == InlineSplit(p.inline, [cs[i]] + p.remainder);
    assert remainder + ([cs[i]] + p.remainder) == (remainder + [cs[i]]) + p.remainder;
  }

  /**
   * `s` is an interleaving of `a` and `b`: every element of `s` lands in
   * exactly one of them, and each keeps the order of `s`.
   */
  predicate Interleaves<T(==)>(s: seq<T>, a: seq<T>, b: seq<T>)
    decreases |s|
  {
    if s == [] then a == [] && b == []
    else
      || (a != [] && a[0] == s[0] && Interleaves(s[1..], a[1..], b))
      || (b != [] && b[0] == s[0] && Interleaves(s[1..], a, b[1..]))
  }

  /** An interleaving loses and duplicates nothing. */
  lemma {:induction false} InterleavesMultiset<T>(s: seq<T>, a: seq<T>, b: seq<T>)
    requires Interleaves(s, a, b)
    ensures multiset(s) == multiset(a) + multiset(b)
    decreases |s|
  {
    if s != [] {
      assert s == [s[0]] + s[1..];
      if a != [] && a[0] == s[0] && Interleaves(s[1..], a[1..], b) {
        InterleavesMultiset(s[1..], a[1..], b);
        assert a == [a[0]] + a[1..];
      } else {
        InterleavesMultiset(s[1..], a, b[1..]);
        assert b == [b[0]] + b[1..];
      }
    }
  }

  /** Every comment ends up in exactly one of the two outputs, in input order. */
  lemma {:induction false} PartitionInterleaves(cs: seq<ReviewComment>, idx: DiffIndex, budget: nat)
    ensures var r := Partition(cs, idx, budget); Interleaves(cs, Sources(r.inline), r.remainder)
    decreases |cs|
  {
    if cs != [] {
      var r := Partition(cs, idx, budget);
      if budget > 0 && CanMapInline(cs[0], idx) && ToInlinePayload(cs[0]).line.Some? {
        var p := Partition(cs[1..], idx, budget - 1);
        PartitionInterleaves(cs[1..], idx, budget - 1);
        assert Sources(r.inline)[1..] == Sources(p.inline);
      } else {
        var p := Partition(cs[1..], idx, budget);
        PartitionInterleaves(cs[1..], idx, budget);
        assert r.remainder[1..] == p.remainder;
      }
    }
  }

  /** Hence the inline sources and the remainder together are the input, as a multiset. */
  lemma PartitionIsExactSplit(cs: seq<ReviewComment>, idx: DiffIndex, budget: nat)
    ensures var r := Partition(cs, idx, budget);
      multiset(cs) == multiset(Sources(r.inline)) + multiset(r.remainder)
  {
    PartitionInterleaves(cs, idx, budget);
    var r := Partition(cs, idx, budget);
    InterleavesMultiset(cs, Sources(r.inline), r.remainder);
  }

  /** Each payload is made from its source comment, which maps onto the diff. */
  predicate InlineReady(ps: seq<InlinePayload>, idx: DiffIndex) {
    forall k :: 0 <= k < |ps| ==> ps[k] == ToInlinePayload(ps[k].source) && CanMapInline(ps[k].source, idx)
  }

  /** No comment of `cs` maps onto the diff. */
  predicate NoneMappable(cs: seq<ReviewComment>, idx: DiffIndex) {
    forall k :: 0 <= k < |cs| ==> !CanMapInline(cs[k], idx)
  }

  /** Every inline payload is the payload of a comment that maps onto the diff. */
  lemma {:induction false} PartitionInlineMappable(cs: seq<ReviewComment>, idx: DiffIndex, budget: nat)
    ensures InlineReady(Partition(cs, idx, budget).inline, idx)
    decreases |cs|
  {
    if cs != [] {
      var r := Partition(cs, idx, budget);
      if budget > 0 && CanMapInline(cs[0], idx) && ToInlinePayload(cs[0]).line.Some? {
        var p := Partition(cs[1..], idx, budget - 1);
        PartitionInlineMappable(cs[1..], idx, budget - 1);
        assert r.inline == [ToInlinePayload(cs[0])] + p.inline;
        forall k | 0 <= k < |r.inline|
          ensures r.inline[k] == ToInlinePayload(r.inline[k].source) && CanMapInline(r.inline[k].source, idx)
        {
          if k > 0 {
            assert r.inline[k] == p.inline[k - 1];
          }
        }
      } else {
        PartitionInlineMappable(cs[1..], idx, budget);
      }
    }
  }

  /** A mappable comment is left in the remainder only when the inline cap was reached. */
  lemma {:induction false} PartitionSaturated(cs: seq<ReviewComment>, idx: DiffIndex, budget: nat)
    ensures NoneMappable(Partition(cs, idx, budget).remainder, idx) || |Partition(cs, idx, budget).inline| == budget
    decreases |cs|
  {
    if cs != [] {
      var r := Partition(cs, idx, budget);
      if budget > 0 && CanMapInline(cs[0], idx) && ToInlinePayload(cs[0]).line.Some? {
        PartitionSaturated(cs[1..], idx, budget - 1);
      } else {
        var p := Partition(cs[1..], idx, budget);
        PartitionSaturated(cs[1..], idx, budget);
        assert r.remainder == [cs[0]] + p.remainder;
        if budget > 0 && !NoneMappable(r.remainder, idx) {
          assert !CanMapInline(cs[0], idx);
          var k :| 0 <= k < |r.remainder| && CanMapInline(r.remainder[k], idx);
          assert p.remainder[k - 1] == r.remainder[k];
          assert !NoneMappable(p.remainder, idx);
        }
      }
    }
  }

  // =====================================================================
  // The Markdown summary body, line by line
  // =====================================================================

  /**
   * The pipeline metadata the body reports. `None` stands for a missing or
   * empty mapping (both falsy); a present value is a non-empty mapping.
   */
  datatype SyncMetadata = SyncMetadata(
    totalComments: Option<int>,
    filesReviewed: Option<int>,
    severityBreakdown: seq<(string, int)>,
    categories: seq<string>)

  /**
   * The lines of the body. The exact Markdown of a finding or a metrics line
   * is not modelled; each line carries the values it is rendered from.
   */
  datatype BodyLine =
    | Heading
    | Blank
    | SummaryText(text: string)
    | InlineNote(posted: int)
    | MetricsLine(comments: int, filesReviewed: Option<int>)
    | SeverityLine(items: seq<(string, int)>)
    | CategoriesLine(categories: seq<string>)
    | KeyFindings
    | NoIssues
    | Finding(number: nat, comment: ReviewComment)
    | More(count: nat)
    | Rule
    | Footer

  const NoSummary := "No summary provided."

  /**
   * `_format_metrics`: a metrics line whenever metadata is present (the
   * metadata's own non-zero total wins over the caller's), then a severity
   * line and a categories line when those are non-empty.
   */
  function FormatMetrics(metadata: Option<SyncMetadata>, total: int): (r: seq<BodyLine>)
    ensures metadata.None? <==> r == []
    ensures r != [] ==> r[0].MetricsLine? && 1 <= |r| <= 3
    ensures forall k :: 0 <= k < |r| ==> r[k].MetricsLine? || r[k].SeverityLine? || r[k].CategoriesLine?
  {
    if metadata.None? then []
    else
      var m := metadata.value;
      var t := if m.totalComments.Some? && m.totalComments.value != 0 then m.totalComments.value else total;
      var files := if m.filesReviewed.Some? && m.filesReviewed.value != 0 then m.filesReviewed else None;
      [MetricsLine(t, files)]
        + (if m.severityBreakdown != [] then [SeverityLine(m.severityBreakdown)] else [])
        + (if m.categories != [] then [CategoriesLine(m.categories)] else [])
  }
  /**
   * What the metrics lines carry: the metadata's own total when it is
   * non-zero, else the caller's; the files reviewed exactly when non-zero;
   * the severity breakdown exactly when non-empty and the categories
   * exactly when non-empty, severity before categories.
   */
  lemma MetricsLineContents(m: SyncMetadata, total: int)
    ensures var r := FormatMetrics(Some(m), total);
      && r[0].comments == (if m.totalComments.Some? && m.totalComments.value != 0 then m.totalComments.value else total)
      && (r[0].filesReviewed.Some? <==> m.filesReviewed.Some? && m.filesReviewed.value != 0)
      && (r[0].filesReviewed.Some? ==> r[0].filesReviewed == m.filesReviewed)
      && (SeverityLine(m.severityBreakdown) in r <==> m.severityBreakdown != [])
      && (CategoriesLine(m.categories) in r <==> m.categories != [])
      && (forall k :: 0 <= k < |r| && r[k].SeverityLine? ==> r[k].items == m.severityBreakdown)
      && (forall k :: 0 <= k < |r| && r[k].CategoriesLine? ==> r[k].categories == m.categories)
      && (forall j, k :: 0 <= j < k < |r| && r[j].CategoriesLine? ==> !r[k].SeverityLine?)
  {
  }


  /**
   * `(summary or "No summary provided.").strip()`. The fixed sentence has no
   * surrounding whitespace, so only a given summary is stripped.
   */
  function SafeSummary(summary: Option<string>): (r: string)
    ensures summary.None? || summary == Some("") ==> r == NoSummary
    ensures r == [] || (!IsSpace(Python, r[0]) && !IsSpace(Python, r[|r| - 1]))
    ensures summary.Some? && summary.value != "" ==>
      exists a, b :: summary.value == a + r + b && IsBlank(Python, a) && IsBlank(Python, b)
  {
    if summary.None? || summary.value == "" then NoSummary
    else
      TrimKeepsMiddle(Python, summary.value);
      Trim(Python, summary.value)
  }

  /** A given summary strips to nothing exactly when it is all whitespace. */
  lemma SafeSummaryEmptyIffBlank(summary: Option<string>)
    requires summary.Some? && summary.value != ""
    ensures SafeSummary(summary) == "" <==> IsBlank(Python, summary.value)
  {
    TrimEmptyIffBlank(Python, summary.value);
  }

  /** How many findings are listed: `max(0, max_list_items)`, or all when it is `None`. */
  function ListLimit(count: nat, maxListItems: Option<int>): nat {
    if maxListItems.Some? then Max0(maxListItems.value) else count
  }

  /** The numbered sections for `selected`, the first numbered `from`, each followed by a blank line. */
  function FindingLines(selected: seq<ReviewComment>, from: nat): (r: seq<BodyLine>)
    ensures |r| == 2 * |selected|
    decreases |selected|
  {
    if selected == [] then [] else [Finding(from, selected[0]), Blank] + FindingLines(selected[1..], from + 1)
  }

  /** The lines before `### Key Findings`. */
  function HeaderLines(summaryText: string, metadata: Option<SyncMetadata>, inlinePosted: int, total: int): seq<BodyLine> {
    var top := [Heading, Blank, SummaryText(summaryText), Blank]
      + (if inlinePosted != 0 then [InlineNote(inlinePosted), Blank] else [])
      + FormatMetrics(metadata, total);
    if |top| > 4 then top + [Blank] else top
  }

  /** The lines under `### Key Findings`. */
  function KeyFindingLines(comments: seq<ReviewComment>, maxListItems: Option<int>): seq<BodyLine> {
    if comments == [] then [NoIssues]
    else
      var k := MinNat(ListLimit(|comments|, maxListItems), |comments|);
      FindingLines(comments[..k], 1) + (if |comments| - k > 0 then [More(|comments| - k), Blank] else [])
  }

  /**
   * `build_github_comment_body` as a value, given the summary text after the
   * fallback and the strip (`SafeSummary`).
   */
  function CommentBody(summaryText: string, comments: seq<ReviewComment>, maxListItems: Option<int>,
                       metadata: Option<SyncMetadata>, inlinePosted: int, totalComments: Option<int>): seq<BodyLine>
  {
    var total := totalComments.GetOr(|comments|);
    HeaderLines(summaryText, metadata, inlinePosted, total) + [KeyFindings]
      + KeyFindingLines(comments, maxListItems) + [Rule, Footer]
  }

  lemma {:induction false} FindingLinesSnoc(selected: seq<ReviewComment>, from: nat, j: nat)
    requires j < |selected|
    ensures FindingLines(selected[..j + 1], from) == FindingLines(selected[..j], from) + [Finding(from + j, selected[j]), Blank]
    decreases j
  {
    if j > 0 {
      assert selected[..j + 1][1..] == selected[1..][..j];
      assert selected[..j][1..] == selected[1..][..j - 1];
      FindingLinesSnoc(selected[1..], from + 1, j - 1);
    }
  }

  /**
   * `build_github_comment_body`: the list of lines built by appending; the
   * lines before and under `### Key Findings` are built by the two helpers.
   */
  method BuildGitHubCommentBody(summary: Option<string>, comments: seq<ReviewComment>, maxListItems: Option<int>,
                                metadata: Option<SyncMetadata>, inlinePosted: int, totalComments: Option<int>)
    returns (lines: seq<BodyLine>)
    ensures lines == CommentBody(SafeSummary(summary), comments, maxListItems, metadata, inlinePosted, totalComments)
  {
    var safeSummary := SafeSummary(summary);
    var total := if totalComments.Some? then totalComments.value else |comments|;
    lines := BuildHeaderLines(safeSummary, metadata, inlinePosted, total);
    lines := lines + [KeyFindings];
    var findings := BuildKeyFindingLines(comments, maxListItems);
    lines := lines + findings;
    lines := lines + [Rule];
    lines := lines + [Footer];
  }

  /** The heading, summary, inline note and metrics lines, appended one by one. */
  method BuildHeaderLines(safeSummary: string, metadata: Option<SyncMetadata>, inlinePosted: int, total: int)
    returns (lines: seq<BodyLine>)
    ensures lines == HeaderLines(safeSummary, metadata, inlinePosted, total)
  {
    lines := [Heading, Blank, SummaryText(safeSummary), Blank];
    if inlinePosted != 0 {
      lines := lines + [InlineNote(inlinePosted)];
      lines := lines + [Blank];
    }
    var metrics := FormatMetrics(metadata, total);
    var before := lines;
    for m := 0 to |metrics|
      invariant lines == before + metrics[..m]
    {
      assert metrics[..m + 1] == metrics[..m] + [metrics[m]];
      lines := lines + [metrics[m]];
    }
    assert metrics[..|metrics|] == metrics;
    assert lines == [Heading, Blank, SummaryText(safeSummary), Blank]
      + (if inlinePosted != 0 then [InlineNote(inlinePosted), Blank] else []) + metrics;
    if |lines| > 4 {
      lines := lines + [Blank];
    }
  }

  /** The numbered sections of the listed comments and the `...and N more` tail. */
  method BuildKeyFindingLines(comments: seq<ReviewComment>, maxListItems: Option<int>) returns (lines: seq<BodyLine>)
    ensures lines == KeyFindingLines(comments, maxListItems)
  {
    if |comments| == 0 {
      return [NoIssues];
    }
    var limit := if maxListItems.Some? then Max0(maxListItems.value) else |comments|;
    var selected := comments[..MinNat(limit, |comments|)];
    lines := [];
    for j := 0 to |selected|
      invariant lines == FindingLines(selected[..j], 1)
    {
      FindingLinesSnoc(selected, 1, j);
      lines := lines + [Finding(j + 1, selected[j])];
      lines := lines + [Blank];
    }
    assert selected[..|selected|] == selected;
    var remaining := |comments| - |selected|;
    if remaining > 0 {
      lines := lines + [More(remaining)];
      lines := lines + [Blank];
    }
  }

  /** The numbered finding lines of a body, in order. */
  function FindingsOf(lines: seq<BodyLine>): (r: seq<BodyLine>)
    ensures forall k :: 0 <= k < |r| ==> r[k].Finding?
    decreases |lines|
  {
    if lines == [] then []
    else (if lines[0].Finding? then [lines[0]] else []) + FindingsOf(lines[1..])
  }

  /** The counts of the `...and N more` lines of a body, in order. */
  function MoreOf(lines: seq<BodyLine>): seq<nat>
    decreases |lines|
  {
    if lines == [] then []
    else (if lines[0].More? then [lines[0].count] else []) + MoreOf(lines[1..])
  }

  lemma {:induction false} FindingsOfConcat(a: seq<BodyLine>, b: seq<BodyLine>)
    ensures FindingsOf(a + b) == FindingsOf(a) + FindingsOf(b)
    ensures MoreOf(a + b) == MoreOf(a) + MoreOf(b)
    decreases |a|
  {
    if a != [] {
      assert (a + b)[1..] == a[1..] + b;
      FindingsOfConcat(a[1..], b);
    } else {
      assert a + b == b;
    }
  }

  /** The header holds no finding and no tail line. */
  lemma HeaderHasNoFindings(summaryText: string, metadata: Option<SyncMetadata>, inlinePosted: int, total: int)
    ensures FindingsOf(HeaderLines(summaryText, metadata, inlinePosted, total)) == []
    ensures MoreOf(HeaderLines(summaryText, metadata, inlinePosted, total)) == []
  {
    var h := HeaderLines(summaryText, metadata, inlinePosted, total);
    forall k | 0 <= k < |h| ensures !h[k].Finding? && !h[k].More? {
    }
    NoFindingsIn(h);
  }

  lemma {:induction false} NoFindingsIn(lines: seq<BodyLine>)
    requires forall k :: 0 <= k < |lines| ==> !lines[k].Finding? && !lines[k].More?
    ensures FindingsOf(lines) == [] && MoreOf(lines) == []
    decreases |lines|
  {
    if lines != [] {
      NoFindingsIn(lines[1..]);
    }
  }

  lemma {:induction false} FindingLinesListed(selected: seq<ReviewComment>, from: nat)
    ensures |FindingsOf(FindingLines(selected, from))| == |selected|
    ensures forall i :: 0 <= i < |selected| ==> FindingsOf(FindingLines(selected, from))[i] == Finding(from + i, selected[i])
    ensures MoreOf(FindingLines(selected, from)) == []
    decreases |selected|
  {
    if selected != [] {
      var rest := FindingLines(selected[1..], from + 1);
      FindingLinesListed(selected[1..], from + 1);
      FindingsOfConcat([Finding(from, selected[0]), Blank], rest);
      assert FindingsOf([Finding(from, selected[0]), Blank]) == [Finding(from, selected[0])];
      assert MoreOf([Finding(from, selected[0]), Blank]) == [];
    }
  }

  /**
   * The body lists exactly the first `min(len, max(0, max_list_items))`
   * comments, numbered from 1 in input order, and ends with one
   * `...and N more` line exactly when `N`, the number not listed, is positive.
   */
  lemma BodyListsLeadingComments(summaryText: string, comments: seq<ReviewComment>, maxListItems: Option<int>,
                                 metadata: Option<SyncMetadata>, inlinePosted: int, totalComments: Option<int>)
    ensures var body := CommentBody(summaryText, comments, maxListItems, metadata, inlinePosted, totalComments);
      var k := MinNat(ListLimit(|comments|, maxListItems), |comments|);
      && |FindingsOf(body)| == k
      && (forall i :: 0 <= i < k ==> FindingsOf(body)[i] == Finding(i + 1, comments[i]))
      && MoreOf(body) == (if |comments| > k then [|comments| - k] else [])
  {
    var k := MinNat(ListLimit(|comments|, maxListItems), |comments|);
    BodyCountsAreKeyFindings(summaryText, comments, maxListItems, metadata, inlinePosted, totalComments);
    KeyFindingsCounted(comments, maxListItems);
    LeadingListed(comments, k);
  }

  /** The sections of the first `k` comments are their findings, numbered from 1. */
  lemma LeadingListed(comments: seq<ReviewComment>, k: nat)
    requires k <= |comments|
    ensures var listed := FindingsOf(FindingLines(comments[..k], 1));
      |listed| == k && forall i :: 0 <= i < k ==> listed[i] == Finding(i + 1, comments[i])
  {
    var listed := FindingsOf(FindingLines(comments[..k], 1));
    FindingLinesListed(comments[..k], 1);
    forall i | 0 <= i < k ensures listed[i] == Finding(i + 1, comments[i]) {
      assert comments[..k][i] == comments[i];
    }
  }

  /** Only the lines under `### Key Findings` hold findings or tail counts. */
  lemma BodyCountsAreKeyFindings(summaryText: string, comments: seq<ReviewComment>, maxListItems: Option<int>,
                                 metadata: Option<SyncMetadata>, inlinePosted: int, totalComments: Option<int>)
    ensures var body := CommentBody(summaryText, comments, maxListItems, metadata, inlinePosted, totalComments);
      && FindingsOf(body) == FindingsOf(KeyFindingLines(comments, maxListItems))
      && MoreOf(body) == MoreOf(KeyFindingLines(comments, maxListItems))
  {
    var total := totalComments.GetOr(|comments|);
    var h := HeaderLines(summaryText, metadata, inlinePosted, total);
    var kf := KeyFindingLines(comments, maxListItems);
    assert CommentBody(summaryText, comments, maxListItems, metadata, inlinePosted, totalComments)
      == h + [KeyFindings] + kf + [Rule, Footer];
    HeaderHasNoFindings(summaryText, metadata, inlinePosted, total);
    NoFindingsIn([KeyFindings]);
    NoFindingsIn([Rule, Footer]);
    FindingsOfConcat(h, [KeyFindings]);
    FindingsOfConcat(h + [KeyFindings], kf);
    FindingsOfConcat(h + [KeyFindings] + kf, [Rule, Footer]);
  }

  /** The findings and tail counts of the lines under `### Key Findings`. */
  lemma KeyFindingsCounted(comments: seq<ReviewComment>, maxListItems: Option<int>)
    ensures var k := MinNat(ListLimit(|comments|, maxListItems), |comments|);
      && FindingsOf(KeyFindingLines(comments, maxListItems)) == FindingsOf(FindingLines(comments[..k], 1))
      && MoreOf(KeyFindingLines(comments, maxListItems)) == (if |comments| > k then [|comments| - k] else [])
  {
    var k := MinNat(ListLimit(|comments|, maxListItems), |comments|);
    if comments == [] {
      NoFindingsIn([NoIssues]);
      assert comments[..k] == [];
    } else {
      var tail: seq<BodyLine> := if |comments| - k > 0 then [More(|comments| - k), Blank] else [];
      FindingLinesListed(comments[..k], 1);
      FindingsOfConcat(FindingLines(comments[..k], 1), tail);
      TailCounts(tail, |comments| - k);
    }
  }

  /** The `...and N more` tail holds no finding and one count when present. */
  lemma TailCounts(tail: seq<BodyLine>, n: nat)
    requires tail == (if n > 0 then [More(n), Blank] else [])
    ensures FindingsOf(tail) == [] && MoreOf(tail) == (if n > 0 then [n] else [])
  {
    if n > 0 {
      assert tail[1..] == [Blank];
      NoFindingsIn([Blank]);
    }
  }

  /** The inline note is line 5 when `inline_posted` is non-zero, and absent otherwise. */
  lemma BodyInlineNote(summaryText: string, comments: seq<ReviewComment>, maxListItems: Option<int>,
                       metadata: Option<SyncMetadata>, inlinePosted: int, totalComments: Option<int>)
    ensures var body := CommentBody(summaryText, comments, maxListItems, metadata, inlinePosted, totalComments);
      && (inlinePosted != 0 ==> body[4] == InlineNote(inlinePosted))
      && (inlinePosted == 0 ==> forall k :: 0 <= k < |body| ==> !body[k].InlineNote?)
  {
    var body := CommentBody(summaryText, comments, maxListItems, metadata, inlinePosted, totalComments);
    if inlinePosted == 0 {
      var total := totalComments.GetOr(|comments|);
      var k := MinNat(ListLimit(|comments|, maxListItems), |comments|);
      FindingLinesNoNote(comments[..k], 1);
    }
  }

  lemma {:induction false} FindingLinesNoNote(selected: seq<ReviewComment>, from: nat)
    ensures forall k :: 0 <= k < |FindingLines(selected, from)| ==> !FindingLines(selected, from)[k].InlineNote?
    decreases |selected|
  {
    if selected != [] {
      FindingLinesNoNote(selected[1..], from + 1);
    }
  }

  /**
   * The body starts with the heading, the summary on line 3, and ends with
   * the footer; it says "No additional issues" exactly when there are no
   * comments to list.
   */
  lemma BodyFrame(summaryText: string, comments: seq<ReviewComment>, maxListItems: Option<int>,
                  metadata: Option<SyncMetadata>, inlinePosted: int, totalComments: Option<int>)
    ensures var body := CommentBody(summaryText, comments, maxListItems, metadata, inlinePosted, totalComments);
      && |body| >= 8 && body[0] == Heading && body[2] == SummaryText(summaryText) && body[|body| - 1] == Footer
      && (NoIssues in body <==> comments == [])
  {
    var body := CommentBody(summaryText, comments, maxListItems, metadata, inlinePosted, totalComments);
    var total := totalComments.GetOr(|comments|);
    var h := HeaderLines(summaryText, metadata, inlinePosted, total);
    if comments != [] {
      var k := MinNat(ListLimit(|comments|, maxListItems), |comments|);
      FindingLinesNoIssues(comments[..k], 1);
      assert forall j :: 0 <= j < |h| ==> h[j] != NoIssues;
      assert NoIssues !in body;
    } else {
      assert body[|h| + 1] == NoIssues;
    }
  }

  lemma {:induction false} FindingLinesNoIssues(selected: seq<ReviewComment>, from: nat)
    ensures NoIssues !in FindingLines(selected, from)
    decreases |selected|
  {
    if selected != [] {
      FindingLinesNoIssues(selected[1..], from + 1);
    }
  }

  // =====================================================================
  // The sync decision
  // =====================================================================

  /** The stored PR number, which may be missing, an integer or text. */
  datatype PrNumberRaw = PrMissing | PrInt(n: int) | PrText(text: string)

  /** The review fields the sync reads. */
  datatype ReviewRecord = ReviewRecord(
    source: Option<string>,
    repo: Option<string>,
    prNumber: PrNumberRaw,
    diffSnapshot: Option<string>)

  /** A request to GitHub: a pull-request review (`pulls/{n}/reviews`) or an issue comment (`issues/{n}/comments`). */
  datatype GitHubCall =
    | SubmitReview(repo: string, pr: int, body: seq<BodyLine>, comments: seq<InlinePayload>)
    | IssueComment(repo: string, pr: int, body: seq<BodyLine>)

  /** Python's truth value of the stored PR number. */
  predicate PrTruthy(raw: PrNumberRaw) {
    match raw
    case PrMissing => false
    case PrInt(n) => n != 0
    case PrText(t) => t != ""
  }

  /**
   * The digit part `int()` accepts: ASCII digits, where a single underscore
   * may stand between two digits (`int("1_000") == 1000`).
   */
  predicate GroupedDigits(s: string) {
    && |s| > 0 && IsDigit(s[0]) && IsDigit(s[|s| - 1])
    && (forall i :: 0 <= i < |s| ==> IsDigit(s[i]) || s[i] == '_')
    && (forall i :: 0 <= i < |s| - 1 && s[i] == '_' ==> IsDigit(s[i + 1]))
  }

  /** The digits of `s`, grouping underscores dropped. */
  function Ungrouped(s: string): (r: string)
    requires forall i :: 0 <= i < |s| ==> IsDigit(s[i]) || s[i] == '_'
    ensures AllDigits(r) && |r| <= |s|
    ensures AllDigits(s) ==> r == s
    ensures (forall i :: 0 <= i < |s| ==> s[i] != '_') ==> r == s
    decreases |s|
  {
    if s == [] then []
    else (if s[0] == '_' then [] else [s[0]]) + Ungrouped(s[1..])
  }

  /**
   * `int(s)` on text: surrounding whitespace, an optional sign, then ASCII
   * digits grouped by single underscores, and nothing else.
   */
  function ParsePyInt(s: string): (r: Option<int>)
    ensures r.Some? ==> |Trim(Python, s)| > 0
    ensures r.Some? ==> var t := Trim(Python, s);
      forall i :: 0 <= i < |t| ==> IsDigit(t[i]) || t[i] == '_' || (i == 0 && (t[i] == '-' || t[i] == '+'))
  {
    var t := Trim(Python, s);
    if |t| > 0 && (t[0] == '-' || t[0] == '+') then
      if GroupedDigits(t[1..]) then
        assert forall i :: 1 <= i < |t| ==> t[i] == t[1..][i - 1];
        var v: int := DigitsValue(Ungrouped(t[1..]));
        Some(if t[0] == '-' then -v else v)
      else None
    else if GroupedDigits(t) then Some(DigitsValue(Ungrouped(t)))
    else None
  }

  /** Digits grouped by underscores are read without the underscores. */
  lemma ParsePyIntOfGrouped(s: string)
    requires GroupedDigits(s)
    ensures ParsePyInt(s) == Some(DigitsValue(Ungrouped(s)))
  {
    TrimUntouched(Python, s);
  }

  /** `int("1_000")` is one thousand. */
  lemma ParsePyIntThousand()
    ensures ParsePyInt("1_000") == Some(1000)
  {
    var s := "1_000";
    assert GroupedDigits(s);
    ParsePyIntOfGrouped(s);
    UngroupedThousand();
    DigitsValueThousand();
  }

  lemma UngroupedThousand()
    ensures Ungrouped("1_000") == "1000"
  {
    assert "1_000"[1..] == "_000";
    assert "_000"[1..] == "000";
    assert Ungrouped("000") == "000";
  }

  lemma DigitsValueThousand()
    ensures DigitsValue("1000") == 1000
  {
    assert "1000"[..3] == "100";
    assert "100"[..2] == "10";
    assert "10"[..1] == "1";
    assert "1"[..0] == "";
  }

  /** An underscore that does not stand between two digits is refused. */
  lemma ParsePyIntRefusesStrayUnderscore(s: string)
    requires |s| > 0 && (s[0] == '_' || s[|s| - 1] == '_' || exists i :: 0 <= i < |s| - 1 && s[i] == '_' && s[i + 1] == '_')
    requires !IsSpace(Python, s[0]) && !IsSpace(Python, s[|s| - 1])
    ensures ParsePyInt(s) == None
  {
    TrimUntouched(Python, s);
  }

  /** Every integer's decimal text is read back by `int()`. */
  lemma ParsePyIntOfIntToString(i: int)
    ensures ParsePyInt(IntToString(i)) == Some(i)
  {
    if i < 0 {
      NegativeReadBack(i);
    } else {
      NaturalReadBack(i);
    }
  }

  lemma NegativeReadBack(i: int)
    requires i < 0
    ensures ParsePyInt(IntToString(i)) == Some(i)
  {
    var n: nat := -i;
    var s := IntToString(i);
    assert s[1..] == NatToString(n);
    DigitsValueOfNatToString(n);
    assert DigitsValue(s[1..]) == n;
    ParsePyIntOfNegative(s);
  }

  lemma NaturalReadBack(n: nat)
    ensures ParsePyInt(NatToString(n)) == Some(n)
  {
    ParsePyIntOfDigits(NatToString(n));
    DigitsValueOfNatToString(n);
  }

  /** A plain run of digits is read as its decimal value. */
  lemma ParsePyIntOfDigits(s: string)
    requires s != [] && AllDigits(s)
    ensures ParsePyInt(s) == Some(DigitsValue(s))
  {
    assert IsDigit(s[0]) && IsDigit(s[|s| - 1]);
    assert GroupedDigits(s);
    TrimUntouched(Python, s);
  }

  /** A minus sign followed by a run of digits is read as the negated value. */
  lemma ParsePyIntOfNegative(s: string)
    requires |s| > 1 && s[0] == '-' && AllDigits(s[1..])
    ensures ParsePyInt(s) == Some(-(DigitsValue(s[1..]) as int))
  {
    assert IsDigit(s[1..][0]) && IsDigit(s[1..][|s| - 2]);
    assert GroupedDigits(s[1..]);
    TrimUntouched(Python, s);
  }

  /** `int(pr_number_raw)`; `None` raises `TypeError`. */
  function ParsePrNumber(raw: PrNumberRaw): Option<int> {
    match raw
    case PrMissing => None
    case PrInt(n) => Some(n)
    case PrText(t) => ParsePyInt(t)
  }

  /**
   * The repository and PR number the sync posts to, or `None` when it does
   * nothing: sync disabled, a source other than "github", a missing repo or
   * PR number, or a PR number `int()` rejects.
   */
  function SyncTarget(syncEnabled: bool, review: ReviewRecord): (r: Option<(string, int)>)
    ensures r.Some? <==> syncEnabled && review.source == Some("github") && review.repo.Some? && review.repo.value != ""
                         && PrTruthy(review.prNumber) && ParsePrNumber(review.prNumber).Some?
    ensures r.Some? ==> r.value.0 == review.repo.value && Some(r.value.1) == ParsePrNumber(review.prNumber)
  {
    if !syncEnabled || review.source != Some("github") then None
    else if review.repo.None? || review.repo.value == "" || !PrTruthy(review.prNumber) then None
    else
      var pr := ParsePrNumber(review.prNumber);
      if pr.None? then None else Some((review.repo.value, pr.value))
  }

  /** `max_list_items`: the inline limit when it is non-zero, else every comment. */
  function MaxListItems(inlineLimit: int, comments: seq<ReviewComment>): int {
    if inlineLimit != 0 then inlineLimit else |comments|
  }

  /** The body of the review (the remainder) and of the fallback comment (every comment). */
  function ReviewBody(summaryText: string, comments: seq<ReviewComment>, metadata: Option<SyncMetadata>,
                      inlineLimit: int, split: InlineSplit): seq<BodyLine> {
    CommentBody(summaryText, split.remainder, Some(MaxListItems(inlineLimit, split.remainder)), metadata, |split.inline|, Some(|comments|))
  }

  function FallbackBody(summaryText: string, comments: seq<ReviewComment>, metadata: Option<SyncMetadata>,
                        inlineLimit: int): seq<BodyLine> {
    CommentBody(summaryText, comments, Some(MaxListItems(inlineLimit, comments)), metadata, 0, Some(|comments|))
  }

  /**
   * The GitHub requests `sync_review_to_github` makes, in order, when a
   * submitted review is accepted exactly when `reviewAccepted` holds.
   */
  function SyncPlan(syncEnabled: bool, inlineLimit: int, review: ReviewRecord, summary: Option<string>,
                    comments: seq<ReviewComment>, metadata: Option<SyncMetadata>, reviewAccepted: bool): seq<GitHubCall>
  {
    var target := SyncTarget(syncEnabled, review);
    if target.None? then []
    else TargetPlan(target.value.0, target.value.1, inlineLimit, review.diffSnapshot, summary, comments, metadata, reviewAccepted)
  }

  /** The requests made once the guards have yielded the repository and the pull request number. */
  function TargetPlan(repo: string, pr: int, inlineLimit: int, diffSnapshot: Option<string>, summary: Option<string>,
                      comments: seq<ReviewComment>, metadata: Option<SyncMetadata>, reviewAccepted: bool): seq<GitHubCall>
  {
    var split := Partition(comments, DiffIndexOf(diffSnapshot), Max0(inlineLimit));
    if split.inline != [] && reviewAccepted then
      [SubmitReview(repo, pr, ReviewBody(SafeSummary(summary), comments, metadata, inlineLimit, split), split.inline)]
    else
      (if split.inline != [] then [SubmitReview(repo, pr, ReviewBody(SafeSummary(summary), comments, metadata, inlineLimit, split), split.inline)] else [])
      + [IssueComment(repo, pr, FallbackBody(SafeSummary(summary), comments, metadata, inlineLimit))]
  }

  /**
   * `sync_review_to_github`: the guards, then the requests for the target
   * they yield.
   */
  method SyncReviewToGitHub(syncEnabled: bool, inlineLimit: int, review: ReviewRecord, summary: Option<string>,
                            comments: seq<ReviewComment>, metadata: Option<SyncMetadata>, reviewAccepted: bool)
    returns (calls: seq<GitHubCall>)
    ensures calls == SyncPlan(syncEnabled, inlineLimit, review, summary, comments, metadata, reviewAccepted)
  {
    calls := [];
    if !syncEnabled {
      return;
    }
    if review.source != Some("github") {
      return;
    }
    if review.repo.None? || review.repo.value == "" || !PrTruthy(review.prNumber) {
      return;
    }
    var prNumber := ParsePrNumber(review.prNumber);
    if prNumber.None? {
      return;
    }
    assert SyncTarget(syncEnabled, review) == Some((review.repo.value, prNumber.value));
    calls := SyncToTarget(review.repo.value, prNumber.value, inlineLimit, review.diffSnapshot, summary,
                          comments, metadata, reviewAccepted);
  }

  /**
   * The rest of `sync_review_to_github`: the inline split, the review post
   * and the fallback issue comment (skipped only for an empty body).
   */
  method SyncToTarget(repo: string, pr: int, inlineLimit: int, diffSnapshot: Option<string>, summary: Option<string>,
                      comments: seq<ReviewComment>, metadata: Option<SyncMetadata>, reviewAccepted: bool)
    returns (calls: seq<GitHubCall>)
    ensures calls == TargetPlan(repo, pr, inlineLimit, diffSnapshot, summary, comments, metadata, reviewAccepted)
  {
    calls := [];
    var inline, remainder := BuildInlineReviewComments(comments, diffSnapshot, inlineLimit);
    ghost var split := InlineSplit(inline, remainder);
    var summaryBody := BuildGitHubCommentBody(summary, remainder, Some(MaxListItems(inlineLimit, remainder)),
                                              metadata, |inline|, Some(|comments|));
    assert summaryBody == ReviewBody(SafeSummary(summary), comments, metadata, inlineLimit, split);
    if inline != [] {
      calls := calls + [SubmitReview(repo, pr, summaryBody, inline)];
      if reviewAccepted {
        return;
      }
    }
    var fallbackBody := BuildGitHubCommentBody(summary, comments, Some(MaxListItems(inlineLimit, comments)),
                                               metadata, 0, Some(|comments|));
    assert fallbackBody == FallbackBody(SafeSummary(summary), comments, metadata, inlineLimit);
    assert fallbackBody != [] by {
      BodyFrame(SafeSummary(summary), comments, Some(MaxListItems(inlineLimit, comments)), metadata, 0, Some(|comments|));
    }
    if fallbackBody != [] {
      calls := calls + [IssueComment(repo, pr, fallbackBody)];
    }
  }

  /** No request at all exactly when a guard stops the sync. */
  lemma SyncSkips(syncEnabled: bool, inlineLimit: int, review: ReviewRecord, summary: Option<string>,
                  comments: seq<ReviewComment>, metadata: Option<SyncMetadata>, reviewAccepted: bool)
    ensures SyncPlan(syncEnabled, inlineLimit, review, summary, comments, metadata, reviewAccepted) == []
      <==> !syncEnabled || review.source != Some("github") || review.repo.None? || review.repo.value == ""
           || !PrTruthy(review.prNumber) || ParsePrNumber(review.prNumber).None?
  {
  }

  /**
   * Past the guards: a review is submitted first exactly when some comment
   * maps inline; it is the only request when accepted; otherwise exactly one
   * issue comment follows, whose body is built from every comment and lists
   * or counts each of them.
   */
  lemma SyncReviewThenFallback(syncEnabled: bool, inlineLimit: int, review: ReviewRecord, summary: Option<string>,
                               comments: seq<ReviewComment>, metadata: Option<SyncMetadata>, reviewAccepted: bool)
    requires SyncTarget(syncEnabled, review).Some?
    ensures var calls := SyncPlan(syncEnabled, inlineLimit, review, summary, comments, metadata, reviewAccepted);
      var split := Partition(comments, DiffIndexOf(review.diffSnapshot), Max0(inlineLimit));
      && 1 <= |calls| <= 2
      && (calls[0].SubmitReview? <==> split.inline != [])
      && (calls[0].SubmitReview? ==> calls[0].comments == split.inline)
      && (|calls| == 1 && calls[0].SubmitReview? <==> split.inline != [] && reviewAccepted)
      && (calls[|calls| - 1].IssueComment? ==>
            var body := calls[|calls| - 1].body;
            body == FallbackBody(SafeSummary(summary), comments, metadata, inlineLimit)
            && |FindingsOf(body)| + (if MoreOf(body) == [] then 0 else MoreOf(body)[0]) == |comments|)
  {
    var target := SyncTarget(syncEnabled, review).value;
    assert SyncPlan(syncEnabled, inlineLimit, review, summary, comments, metadata, reviewAccepted)
      == TargetPlan(target.0, target.1, inlineLimit, review.diffSnapshot, summary, comments, metadata, reviewAccepted);
    TargetPlanShape(target.0, target.1, inlineLimit, review.diffSnapshot, summary, comments, metadata, reviewAccepted);
  }

  /** `SyncReviewThenFallback` for the requests made once the guards have passed. */
  lemma TargetPlanShape(repo: string, pr: int, inlineLimit: int, diffSnapshot: Option<string>, summary: Option<string>,
                        comments: seq<ReviewComment>, metadata: Option<SyncMetadata>, reviewAccepted: bool)
    ensures var calls := TargetPlan(repo, pr, inlineLimit, diffSnapshot, summary, comments, metadata, reviewAccepted);
      var split := Partition(comments, DiffIndexOf(diffSnapshot), Max0(inlineLimit));
      && 1 <= |calls| <= 2
      && (calls[0].SubmitReview? <==> split.inline != [])
      && (calls[0].SubmitReview? ==> calls[0].comments == split.inline)
      && (|calls| == 1 && calls[0].SubmitReview? <==> split.inline != [] && reviewAccepted)
      && (calls[|calls| - 1].IssueComment? ==>
            var body := calls[|calls| - 1].body;
            body == FallbackBody(SafeSummary(summary), comments, metadata, inlineLimit)
            && |FindingsOf(body)| + (if MoreOf(body) == [] then 0 else MoreOf(body)[0]) == |comments|)
  {
    var mli := Some(MaxListItems(inlineLimit, comments));
    BodyListsLeadingComments(SafeSummary(summary), comments, mli, metadata, 0, Some(|comments|));
  }
}

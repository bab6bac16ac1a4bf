/**
 * The deterministic multi-agent review pipeline: a unified-diff parser that
 * numbers added and deleted lines, four heuristic agents run in a fixed
 * order, and the metadata and one-paragraph summary derived from their
 * comments.
 */
module MultiAgentPipeline {
  import opened Wrappers
  import opened Text
  import opened Collections
  import opened ReviewSchemas

  // ---------------------------------------------------------------------
  // Parsed files
  // ---------------------------------------------------------------------

  /** A recorded line: the new-side number it was seen at and its text without the marker. */
  type NumberedLine = (int, string)

  /** `ParsedFile`: a file section of the diff with its added and deleted lines. */
  datatype ParsedFile = ParsedFile(path: string, additions: seq<NumberedLine>, deletions: seq<NumberedLine>)

  const UnknownPath := "unknown"

  /** `re.search(r"\+(\d+)", s)`: the number after the first `+` that a digit follows. */
  function FirstPlusNumber(s: string): (r: Option<nat>)
    ensures r.None? <==> forall i :: 0 <= i < |s| - 1 ==> !(s[i] == '+' && IsDigit(s[i + 1]))
    decreases |s|
  {
    if |s| < 2 then None
    else if s[0] == '+' && IsDigit(s[1]) then
      Some(DigitsValue(s[1..][..DigitRun(s[1..])]))
    else
      var r := FirstPlusNumber(s[1..]);
      assert forall i :: 1 <= i < |s| - 1 ==> s[i] == s[1..][i - 1] && s[i + 1] == s[1..][i];
      r
  }

  /** A `+` followed by a rendered number, after a stretch without `+`, is what the search finds. */
  lemma {:induction false} FirstPlusNumberOf(pre: string, n: nat, rest: string)
    requires forall i :: 0 <= i < |pre| ==> pre[i] != '+'
    requires rest == [] || !IsDigit(rest[0])
    ensures FirstPlusNumber(pre + "+" + NatToString(n) + rest) == Some(n)
    decreases |pre|
  {
    var s := pre + "+" + NatToString(n) + rest;
    if pre == [] {
      assert s == "+" + (NatToString(n) + rest);
      assert s[1..] == NatToString(n) + rest;
      DigitRunOfNatToString(n, rest);
      assert s[1..][..DigitRun(s[1..])] == NatToString(n);
      DigitsValueOfNatToString(n);
    } else {
      assert s[1..] == pre[1..] + "+" + NatToString(n) + rest;
      FirstPlusNumberOf(pre[1..], n, rest);
    }
  }

  /** `line.replace("+++ b/", "", 1).replace("+++ ", "", 1)`. */
  function NormalizePath(line: string): string {
    ReplaceFirst(ReplaceFirst(line, "+++ b/"), "+++ ")
  }

  /** A `+++ b/<path>` header yields `<path>` when the path holds no further `+++ `. */
  lemma NormalizeGitPath(path: string)
    requires !Contains(path, "+++ ")
    ensures NormalizePath("+++ b/" + path) == path
  {
    assert StartsWith("+++ b/" + path, "+++ b/");
    assert ("+++ b/" + path)[6..] == path;
  }

  predicate IsAddition(line: string) {
    StartsWith(line, "+") && !StartsWith(line, "+++")
  }

  predicate IsDeletion(line: string) {
    StartsWith(line, "-") && !StartsWith(line, "---")
  }

  /** `current_line or 1`. */
  function Slot(n: nat): (r: nat)
    ensures r >= 1 && (n > 0 ==> r == n)
  {
    if n == 0 then 1 else n
  }

  /** The loop variables of `_parse_unified_diff`. */
  datatype ParseState = ParseState(files: seq<ParsedFile>, current: Option<ParsedFile>, lineNo: nat)

  const InitialParse := ParseState([], None, 0)

  /** The files collected so far, the open one included (the append after the loop). */
  function Finish(st: ParseState): seq<ParsedFile> {
    if st.current.Some? then st.files + [st.current.value] else st.files
  }

  /**
   * One iteration of the loop of `_parse_unified_diff`. A `diff --git` line
   * closes the open file and opens a new, unknown one; any other line keeps
   * the closed files and whether a file is open, and never drops a line
   * already recorded in the open file.
   */
  function ParseStep(st: ParseState, line: string): (r: ParseState)
    ensures StartsWith(line, "diff --git") ==>
      Finish(r) == Finish(st) + [ParsedFile(UnknownPath, [], [])] && r.lineNo == 0
    ensures !StartsWith(line, "diff --git") ==>
      r.files == st.files && (r.current.Some? <==> st.current.Some?)
    ensures !StartsWith(line, "diff --git") && st.current.Some? ==>
      && st.current.value.additions <= r.current.value.additions
      && st.current.value.deletions <= r.current.value.deletions
  {
    if StartsWith(line, "diff --git") then
      ParseState(Finish(st), Some(ParsedFile(UnknownPath, [], [])), 0)
    else if StartsWith(line, "+++") then
      if st.current.Some? then st.(current := Some(st.current.value.(path := NormalizePath(line)))) else st
    else if StartsWith(line, "@@") then
      st.(lineNo := FirstPlusNumber(line).GetOr(0))
    else if IsAddition(line) then
      if st.current.Some? then
        var cur := st.current.value;
        st.(current := Some(cur.(additions := cur.additions + [(Slot(st.lineNo), line[1..])])), lineNo := st.lineNo + 1)
      else st
    else if IsDeletion(line) then
      if st.current.Some? then
        var cur := st.current.value;
        st.(current := Some(cur.(deletions := cur.deletions + [(Slot(st.lineNo), line[1..])])))
      else st
    else if st.lineNo != 0 then st.(lineNo := st.lineNo + 1)
    else st
  }

  function RunParse(st: ParseState, lines: seq<string>): ParseState
    decreases |lines|
  {
    if lines == [] then st else RunParse(ParseStep(st, lines[0]), lines[1..])
  }

  /** A file survives the final filter unless it is still "unknown" and recorded nothing. */
  predicate Reported(f: ParsedFile) {
    f.path != UnknownPath || f.additions != [] || f.deletions != []
  }

  /** The comprehension that ends `_parse_unified_diff`. */
  function KeepReported(files: seq<ParsedFile>): (r: seq<ParsedFile>)
    ensures |r| <= |files|
    ensures forall f :: f in r <==> f in files && Reported(f)
    decreases |files|
  {
    if files == [] then []
    else (if Reported(files[0]) then [files[0]] else []) + KeepReported(files[1..])
  }

  /** `_parse_unified_diff(diff)` as a value. */
  function ParsedFiles(diff: string): seq<ParsedFile> {
    KeepReported(Finish(RunParse(InitialParse, SplitLines(diff))))
  }

  /**
   * `_parse_unified_diff`: the loop over the diff's lines, updating the file
   * being read, the list of finished files and the current line number.
   */
  method ParseUnifiedDiff(diff: string) returns (files: seq<ParsedFile>)
    ensures files == ParsedFiles(diff)
  {
    var lines := SplitLines(diff);
    var found: seq<ParsedFile> := [];
    var current: Option<ParsedFile> := None;
    var currentLine: nat := 0;
    for i := 0 to |lines|
      invariant RunParse(ParseState(found, current, currentLine), lines[i..]) == RunParse(InitialParse, lines)
    {
      var line := lines[i];
      assert lines[i..] == [line] + lines[i + 1..];
      if StartsWith(line, "diff --git") {
        if current.Some? {
          found := found + [current.value];
        }
        current := Some(ParsedFile(UnknownPath, [], []));
        currentLine := 0;
        continue;
      }
      if StartsWith(line, "+++") {
        if current.Some? {
          var normalized := ReplaceFirst(ReplaceFirst(line, "+++ b/"), "+++ ");
          current := Some(current.value.(path := normalized));
        }
        continue;
      }
      if StartsWith(line, "@@") {
        var m := FirstPlusNumber(line);
        currentLine := if m.Some? then m.value else 0;
        continue;
      }
      if StartsWith(line, "+") && !StartsWith(line, "+++") {
        if current.Some? {
          var cur := current.value;
          current := Some(cur.(additions := cur.additions + [(if currentLine != 0 then currentLine else 1, line[1..])]));
          currentLine := currentLine + 1;
        }
        continue;
      }
      if StartsWith(line, "-") && !StartsWith(line, "---") {
        if current.Some? {
          var cur := current.value;
          current := Some(cur.(deletions := cur.deletions + [(if currentLine != 0 then currentLine else 1, line[1..])]));
        }
        continue;
      }
      if currentLine != 0 {
        currentLine := currentLine + 1;
      }
    }
    assert lines[|lines|..] == [];
    if current.Some? {
      found := found + [current.value];
    }
    files := KeepReported(found);
  }

  // ---------------------------------------------------------------------
  // What the parser promises
  // ---------------------------------------------------------------------

  lemma {:induction false} RunParseAppend(st: ParseState, lines: seq<string>, line: string)
    ensures RunParse(st, lines + [line]) == ParseStep(RunParse(st, lines), line)
    decreases |lines|
  {
    if lines != [] {
      assert (lines + [line])[1..] == lines[1..] + [line];
      RunParseAppend(ParseStep(st, lines[0]), lines[1..], line);
    }
  }

  function CountGitHeaders(lines: seq<string>): nat
    decreases |lines|
  {
    if lines == [] then 0
    else (if StartsWith(lines[0], "diff --git") then 1 else 0) + CountGitHeaders(lines[1..])
  }

  /** Every `diff --git` line opens exactly one file, and no other line opens one. */
  lemma {:induction false} RunParseCountsSections(st: ParseState, lines: seq<string>)
    ensures |Finish(RunParse(st, lines))| == |Finish(st)| + CountGitHeaders(lines)
    ensures CountGitHeaders(lines) > 0 ==> RunParse(st, lines).current.Some?
    ensures CountGitHeaders(lines) == 0 ==>
              (RunParse(st, lines).files == st.files && RunParse(st, lines).current.None? == st.current.None?)
    decreases |lines|
  {
    if lines != [] {
      RunParseCountsSections(ParseStep(st, lines[0]), lines[1..]);
    }
  }

  /**
   * The parsed files come from the `diff --git` sections: there are at most
   * as many as sections, and a diff without such a line yields none.
   */
  lemma ParsedFilesFromSections(diff: string)
    ensures |ParsedFiles(diff)| <= CountGitHeaders(SplitLines(diff))
    ensures CountGitHeaders(SplitLines(diff)) == 0 ==> ParsedFiles(diff) == []
  {
    RunParseCountsSections(InitialParse, SplitLines(diff));
  }

  /** Every line number the parser records is at least 1. */
  ghost predicate NumbersPositive(f: ParsedFile) {
    (forall k :: 0 <= k < |f.additions| ==> f.additions[k].0 >= 1)
    && (forall k :: 0 <= k < |f.deletions| ==> f.deletions[k].0 >= 1)
  }

  ghost predicate StatePositive(st: ParseState) {
    (forall k :: 0 <= k < |st.files| ==> NumbersPositive(st.files[k]))
    && (st.current.Some? ==> NumbersPositive(st.current.value))
  }

  lemma {:induction false} RunParsePositive(st: ParseState, lines: seq<string>)
    requires StatePositive(st)
    ensures StatePositive(RunParse(st, lines))
    decreases |lines|
  {
    if lines != [] {
      var next := ParseStep(st, lines[0]);
      assert StatePositive(next);
      RunParsePositive(next, lines[1..]);
    }
  }

  /** Recorded line numbers are positive (`current_line or 1`). */
  lemma ParsedNumbersPositive(diff: string)
    ensures forall k :: 0 <= k < |ParsedFiles(diff)| ==> NumbersPositive(ParsedFiles(diff)[k])
  {
    var st := RunParse(InitialParse, SplitLines(diff));
    RunParsePositive(InitialParse, SplitLines(diff));
    assert forall f :: f in Finish(st) ==> NumbersPositive(f);
  }

  /**
   * A hunk header resets the counter to the number after its first `+`
   * (`@@ -a,b +c,d @@` gives `c`), whatever it was before.
   */
  lemma HunkHeaderResets(st: ParseState, pre: string, c: nat, rest: string)
    requires StartsWith(pre, "@@") && forall i :: 0 <= i < |pre| ==> pre[i] != '+'
    requires rest == [] || !IsDigit(rest[0])
    ensures ParseStep(st, pre + "+" + NatToString(c) + rest) == st.(lineNo := c)
  {
    var line := pre + "+" + NatToString(c) + rest;
    HunkHeaderLine(pre, line);
    FirstPlusNumberOf(pre, c, rest);
  }

  /** A line that begins with a hunk header's `@@` is neither a section header nor a file header. */
  lemma HunkHeaderLine(pre: string, line: string)
    requires StartsWith(pre, "@@") && StartsWith(line, pre)
    ensures StartsWith(line, "@@") && !StartsWith(line, "diff --git") && !StartsWith(line, "+++")
  {
    assert line[..2] == pre[..2];
    assert line[0] == '@';
  }

  /** A line the parser treats as part of a hunk body: no section, file or hunk header. */
  predicate BodyLine(line: string) {
    !StartsWith(line, "diff --git") && !StartsWith(line, "+++") && !StartsWith(line, "@@")
  }

  /** How many of `lines` advance the new-side counter (all but the deletions). */
  function Advancing(lines: seq<string>): nat
    decreases |lines|
  {
    if lines == [] then 0
    else Advancing(lines[..|lines| - 1]) + (if IsDeletion(lines[|lines| - 1]) then 0 else 1)
  }

  /**
   * The lines of `body` with marker `added` (additions when true, deletions
   * otherwise), each numbered `c` plus the number of advancing lines before it.
   */
  function Numbered(body: seq<string>, c: nat, added: bool): seq<NumberedLine>
    decreases |body|
  {
    if body == [] then []
    else
      var init := body[..|body| - 1];
      var last := body[|body| - 1];
      Numbered(init, c, added)
        + (if (added && IsAddition(last)) || (!added && IsDeletion(last)) then [(c + Advancing(init), last[1..])] else [])
  }

  /**
   * Inside an open file with a positive counter `c`, a run of body lines
   * appends each added line at `c` plus the number of non-deleted lines
   * before it, each deleted line at the same kind of number without
   * advancing, and leaves the counter past every non-deleted line.
   */
  lemma {:induction false} HunkBodyNumbering(st: ParseState, body: seq<string>)
    requires st.current.Some? && st.lineNo > 0
    requires forall k :: 0 <= k < |body| ==> BodyLine(body[k])
    ensures var end := RunParse(st, body);
      && end.files == st.files
      && end.current.Some? && end.current.value.path == st.current.value.path
      && end.current.value.additions == st.current.value.additions + Numbered(body, st.lineNo, true)
      && end.current.value.deletions == st.current.value.deletions + Numbered(body, st.lineNo, false)
      && end.lineNo == st.lineNo + Advancing(body)
    decreases |body|
  {
    if body != [] {
      var init := body[..|body| - 1];
      var last := body[|body| - 1];
      assert body == init + [last];
      HunkBodyNumbering(st, init);
      RunParseAppend(st, init, last);
      BodyLineStep(RunParse(st, init), last);
    }
  }

  /** One body line: an addition or a deletion is recorded at the counter, and only a deletion leaves it. */
  lemma BodyLineStep(mid: ParseState, line: string)
    requires mid.current.Some? && mid.lineNo > 0 && BodyLine(line)
    ensures var next := ParseStep(mid, line);
      && next.files == mid.files
      && next.current.Some? && next.current.value.path == mid.current.value.path
      && next.current.value.additions
         == mid.current.value.additions + (if IsAddition(line) then [(mid.lineNo, line[1..])] else [])
      && next.current.value.deletions
         == mid.current.value.deletions + (if IsDeletion(line) then [(mid.lineNo, line[1..])] else [])
      && next.lineNo == mid.lineNo + (if IsDeletion(line) then 0 else 1)
  {
    assert IsAddition(line) ==> !IsDeletion(line);
  }

  // ---------------------------------------------------------------------
  // Agents
  // ---------------------------------------------------------------------

  datatype Agent = Complexity | DebugArtifact | Security | TestingCoverage {
    function Name(): string {
      match this
      case Complexity => "complexity-agent"
      case DebugArtifact => "debug-artifact-agent"
      case Security => "security-agent"
      case TestingCoverage => "testing-agent"
    }
  }

  /** `AGENTS`, in the order their comments are concatenated. */
  const Agents: seq<Agent> := [Complexity, DebugArtifact, Security, TestingCoverage]

  function AgentNames(): (names: seq<string>)
    ensures |names| == 4
  {
    [Complexity.Name(), DebugArtifact.Name(), Security.Name(), TestingCoverage.Name()]
  }

  /** The per-added-line checks of the three line-scanning agents. */
  datatype LineRule = LongLine | TodoMarker | DebugPrint | InsecureCall {
    function Owner(): Agent {
      match this
      case LongLine => Complexity
      case TodoMarker => DebugArtifact
      case DebugPrint => DebugArtifact
      case InsecureCall => Security
    }
  }

  /** The checks each agent makes on an added line, in the order it makes them. */
  function AgentRules(agent: Agent): (rules: seq<LineRule>)
    ensures forall r :: r in rules ==> r.Owner() == agent
  {
    match agent
    case Complexity => [LongLine]
    case DebugArtifact => [TodoMarker, DebugPrint]
    case Security => [InsecureCall]
    case TestingCoverage => []
  }

  const DangerousTokens: seq<string> := ["eval(", "exec(", "os.system(", "subprocess.Popen", "SECRET_KEY", "password="]

  predicate MentionsTest(path: string) {
    Contains(Lower(path), "test")
  }

  /** Whether `rule` flags the added line `text` of the file at `path`. */
  predicate Fires(rule: LineRule, path: string, text: string) {
    match rule
    case LongLine => |text| > 120
    case TodoMarker => Contains(Lower(text), "todo") || Contains(Lower(text), "fixme")
    case DebugPrint => Contains(text, "print(") && !MentionsTest(path)
    case InsecureCall => exists k :: 0 <= k < |DangerousTokens| && Contains(text, DangerousTokens[k])
  }

  /** The fixed wording of a comment kind. */
  datatype Advice = Advice(category: string, severity: string, title: string, body: string, suggestedFix: string)

  const LongLineAdvice := Advice("maintainability", "warning", "Long line may hurt readability",
    "Consider breaking this statement into smaller chunks or helper functions.",
    "Wrap the logic across multiple lines or extract helpers.")

  const TodoMarkerAdvice := Advice("project-management", "info", "Leftover TODO/FIXME",
    "Track TODOs in an issue instead of shipping them in code.",
    "Open an issue and remove the inline TODO before merge.")

  const DebugPrintAdvice := Advice("observability", "info", "Debug print detected",
    "Prefer structured logging over bare print statements in production modules.",
    "Use the shared logger from app.core instead of print().")

  const InsecureCallAdvice := Advice("security", "warning", "Potential insecure call",
    "The diff introduces a pattern that often leads to security issues. Validate inputs or leverage safer helpers.",
    "Replace the insecure call with a vetted helper or sanitize inputs first.")

  function RuleAdvice(rule: LineRule): Advice {
    match rule
    case LongLine => LongLineAdvice
    case TodoMarker => TodoMarkerAdvice
    case DebugPrint => DebugPrintAdvice
    case InsecureCall => InsecureCallAdvice
  }

  /** The comment `rule` raises on line `lineNo` of the file at `path`. */
  function RuleComment(rule: LineRule, path: string, lineNo: int): ReviewComment {
    var a := RuleAdvice(rule);
    ReviewComment(Some(rule.Owner().Name()), path, lineNo, lineNo, a.category, a.severity, a.title, a.body, Some(a.suggestedFix))
  }

  /** The comments `rules` raise on one added line, in rule order. */
  function RuleHits(rules: seq<LineRule>, path: string, added: NumberedLine): seq<ReviewComment>
    decreases |rules|
  {
    if rules == [] then []
    else
      (if Fires(rules[0], path, added.1) then [RuleComment(rules[0], path, added.0)] else [])
      + RuleHits(rules[1..], path, added)
  }

  /** The comments `rules` raise on the added lines `adds` of the file at `path`, line by line. */
  function FileSweep(rules: seq<LineRule>, path: string, adds: seq<NumberedLine>): seq<ReviewComment>
    decreases |adds|
  {
    if adds == [] then []
    else FileSweep(rules, path, adds[..|adds| - 1]) + RuleHits(rules, path, adds[|adds| - 1])
  }

  /** The comments `rules` raise on the added lines of `files`, file by file. */
  function RulesSweep(rules: seq<LineRule>, files: seq<ParsedFile>): seq<ReviewComment>
    decreases |files|
  {
    if files == [] then []
    else
      var last := files[|files| - 1];
      RulesSweep(rules, files[..|files| - 1]) + FileSweep(rules, last.path, last.additions)
  }

  /** The comments of a line-scanning agent on `files`: the nested loops of its `run`. */
  function Sweep(agent: Agent, files: seq<ParsedFile>): seq<ReviewComment> {
    RulesSweep(AgentRules(agent), files)
  }

  /** A `.py` file whose lower-cased path does not mention tests. */
  predicate IsCodeFile(f: ParsedFile) {
    EndsWith(f.path, ".py") && !MentionsTest(f.path)
  }

  /** `[f for f in files if f.path.endswith(".py") and "test" not in f.path.lower()]`. */
  function CodeFiles(files: seq<ParsedFile>): (r: seq<ParsedFile>)
    ensures forall f :: f in r <==> f in files && IsCodeFile(f)
    decreases |files|
  {
    if files == [] then []
    else (if IsCodeFile(files[0]) then [files[0]] else []) + CodeFiles(files[1..])
  }

  /** The first code file is the earliest file of `files` that is one. */
  lemma {:induction false} CodeFilesFirst(files: seq<ParsedFile>)
    requires CodeFiles(files) != []
    ensures exists k :: 0 <= k < |files| && files[k] == CodeFiles(files)[0] && forall j :: 0 <= j < k ==> !IsCodeFile(files[j])
    decreases |files|
  {
    if !IsCodeFile(files[0]) {
      CodeFilesFirst(files[1..]);
      var k :| 0 <= k < |files[1..]| && files[1..][k] == CodeFiles(files[1..])[0]
                && forall j :: 0 <= j < k ==> !IsCodeFile(files[1..][j]);
      assert files[k + 1] == CodeFiles(files)[0];
      assert forall j :: 0 <= j < k + 1 ==> !IsCodeFile(files[j]) by {
        forall j | 0 <= j < k + 1
          ensures !IsCodeFile(files[j])
        {
          if j > 0 {
            assert files[j] == files[1..][j - 1];
          }
        }
      }
    } else {
      assert files[0] == CodeFiles(files)[0];
    }
  }

  /** `any("test" in f.path.lower() for f in files)`. */
  predicate TestsTouched(files: seq<ParsedFile>) {
    exists k :: 0 <= k < |files| && MentionsTest(files[k].path)
  }

  const NoTestsAdvice := Advice("testing", "info", "No accompanying tests",
    "Application code changed but no tests were updated. Consider adding coverage for regressions.",
    "Add or update tests in tests/ to cover the new behavior.")

  function NoTestsComment(path: string): ReviewComment {
    var a := NoTestsAdvice;
    ReviewComment(Some(TestingCoverage.Name()), path, 1, 5, a.category, a.severity, a.title, a.body, Some(a.suggestedFix))
  }

  /** `TestingCoverageAgent.run`. */
  function TestingComments(files: seq<ParsedFile>): seq<ReviewComment> {
    if files == [] then []
    else
      var code := CodeFiles(files);
      if code != [] && !TestsTouched(files) then [NoTestsComment(code[0].path)] else []
  }

  /**
   * The testing agent raises at most one comment, exactly when some non-test
   * `.py` file changed and no path mentions tests; it points at lines 1-5 of
   * the first such file.
   */
  lemma TestingAgentSpec(files: seq<ParsedFile>)
    ensures var r := TestingComments(files);
      && |r| <= 1
      && (r != [] <==> (exists k :: 0 <= k < |files| && IsCodeFile(files[k])) && !TestsTouched(files))
      && (r != [] ==> exists k :: 0 <= k < |files| && IsCodeFile(files[k]) && (forall j :: 0 <= j < k ==> !IsCodeFile(files[j]))
                                  && r[0].filePath == files[k].path && r[0].lineStart == 1 && r[0].lineEnd == 5
                                  && r[0].agent == Some(TestingCoverage.Name()))
  {
    var code := CodeFiles(files);
    if exists k :: 0 <= k < |files| && IsCodeFile(files[k]) {
      var k :| 0 <= k < |files| && IsCodeFile(files[k]);
      assert files[k] in code;
    }
    if code != [] {
      assert code[0] in code;
      CodeFilesFirst(files);
    }
  }

  /** `agent.run(files)` as a value. */
  function AgentComments(agent: Agent, files: seq<ParsedFile>): seq<ReviewComment> {
    if agent == TestingCoverage then TestingComments(files) else Sweep(agent, files)
  }

  /** `agent.run(files)`: the testing agent's check, or the nested loops of a line-scanning agent. */
  method RunAgent(agent: Agent, files: seq<ParsedFile>) returns (comments: seq<ReviewComment>)
    ensures comments == AgentComments(agent, files)
  {
    if agent == TestingCoverage {
      return TestingComments(files);
    }
    comments := SweepFiles(AgentRules(agent), files);
  }

  /** The nested loops over files and their added lines, applying `rules` to each line. */
  method SweepFiles(rules: seq<LineRule>, files: seq<ParsedFile>) returns (comments: seq<ReviewComment>)
    ensures comments == RulesSweep(rules, files)
  {
    comments := [];
    for i := 0 to |files|
      invariant comments == RulesSweep(rules, files[..i])
    {
      var file := files[i];
      ghost var before := comments;
      for j := 0 to |file.additions|
        invariant comments == before + FileSweep(rules, file.path, file.additions[..j])
      {
        FileSweepSnoc(rules, file.path, file.additions, j);
        comments := comments + RuleHits(rules, file.path, file.additions[j]);
      }
      assert file.additions[..|file.additions|] == file.additions;
      RulesSweepSnoc(rules, files, i);
    }
    assert files[..|files|] == files;
  }

  lemma FileSweepSnoc(rules: seq<LineRule>, path: string, adds: seq<NumberedLine>, j: nat)
    requires j < |adds|
    ensures FileSweep(rules, path, adds[..j + 1]) == FileSweep(rules, path, adds[..j]) + RuleHits(rules, path, adds[j])
  {
    assert adds[..j + 1][..j] == adds[..j];
  }

  lemma RulesSweepSnoc(rules: seq<LineRule>, files: seq<ParsedFile>, i: nat)
    requires i < |files|
    ensures RulesSweep(rules, files[..i + 1]) == RulesSweep(rules, files[..i]) + FileSweep(rules, files[i].path, files[i].additions)
  {
    assert files[..i + 1][..i] == files[..i];
  }

  // ---------------------------------------------------------------------
  // What the agents promise
  // ---------------------------------------------------------------------

  /** How many added lines of `files` `rule` flags. */
  function Firing(rule: LineRule, files: seq<ParsedFile>): nat
    decreases |files|
  {
    if files == [] then 0
    else
      var last := files[|files| - 1];
      Firing(rule, files[..|files| - 1]) + FileFiring(rule, last.path, last.additions)
  }

  function FileFiring(rule: LineRule, path: string, adds: seq<NumberedLine>): nat
    decreases |adds|
  {
    if adds == [] then 0
    else FileFiring(rule, path, adds[..|adds| - 1]) + (if Fires(rule, path, adds[|adds| - 1].1) then 1 else 0)
  }

  /** Σ over `rules` of the lines each flags. */
  function SumFiring(rules: seq<LineRule>, files: seq<ParsedFile>): nat
    decreases |rules|
  {
    if rules == [] then 0 else Firing(rules[0], files) + SumFiring(rules[1..], files)
  }

  function SumFileFiring(rules: seq<LineRule>, path: string, adds: seq<NumberedLine>): nat
    decreases |rules|
  {
    if rules == [] then 0 else FileFiring(rules[0], path, adds) + SumFileFiring(rules[1..], path, adds)
  }

  function SumHits(rules: seq<LineRule>, path: string, text: string): nat
    decreases |rules|
  {
    if rules == [] then 0 else (if Fires(rules[0], path, text) then 1 else 0) + SumHits(rules[1..], path, text)
  }

  lemma {:induction false} RuleHitsCount(rules: seq<LineRule>, path: string, added: NumberedLine)
    ensures |RuleHits(rules, path, added)| == SumHits(rules, path, added.1)
    decreases |rules|
  {
    if rules != [] {
      RuleHitsCount(rules[1..], path, added);
    }
  }

  lemma {:induction false} SumFileFiringStep(rules: seq<LineRule>, path: string, adds: seq<NumberedLine>)
    requires adds != []
    ensures SumFileFiring(rules, path, adds)
         == SumFileFiring(rules, path, adds[..|adds| - 1]) + SumHits(rules, path, adds[|adds| - 1].1)
    decreases |rules|
  {
    if rules != [] {
      SumFileFiringStep(rules[1..], path, adds);
    }
  }

  lemma {:induction false} SumFiringStep(rules: seq<LineRule>, files: seq<ParsedFile>)
    requires files != []
    ensures var last := files[|files| - 1];
      SumFiring(rules, files) == SumFiring(rules, files[..|files| - 1]) + SumFileFiring(rules, last.path, last.additions)
    decreases |rules|
  {
    if rules != [] {
      SumFiringStep(rules[1..], files);
    }
  }

  lemma {:induction false} SumFiringEmpty(rules: seq<LineRule>)
    ensures SumFiring(rules, []) == 0
    decreases |rules|
  {
    if rules != [] {
      SumFiringEmpty(rules[1..]);
    }
  }

  lemma {:induction false} SumFileFiringEmpty(rules: seq<LineRule>, path: string)
    ensures SumFileFiring(rules, path, []) == 0
    decreases |rules|
  {
    if rules != [] {
      SumFileFiringEmpty(rules[1..], path);
    }
  }

  lemma {:induction false} FileSweepCount(rules: seq<LineRule>, path: string, adds: seq<NumberedLine>)
    ensures |FileSweep(rules, path, adds)| == SumFileFiring(rules, path, adds)
    decreases |adds|
  {
    if adds == [] {
      SumFileFiringEmpty(rules, path);
    } else {
      FileSweepCount(rules, path, adds[..|adds| - 1]);
      RuleHitsCount(rules, path, adds[|adds| - 1]);
      SumFileFiringStep(rules, path, adds);
    }
  }

  /**
   * A line-scanning agent raises, over all files, one comment per added
   * line and per rule of the agent that flags it: the complexity agent one
   * per line over 120 characters, the security agent one per line holding
   * any dangerous token, the debug-artifact agent one per TODO/FIXME line
   * plus one per `print(` line outside test paths.
   */
  lemma SweepCount(agent: Agent, files: seq<ParsedFile>)
    ensures |Sweep(agent, files)| == SumFiring(AgentRules(agent), files)
  {
    RulesSweepCount(AgentRules(agent), files);
  }

  lemma {:induction false} RulesSweepCount(rules: seq<LineRule>, files: seq<ParsedFile>)
    ensures |RulesSweep(rules, files)| == SumFiring(rules, files)
    decreases |files|
  {
    if files == [] {
      SumFiringEmpty(rules);
    } else {
      var last := files[|files| - 1];
      RulesSweepCount(rules, files[..|files| - 1]);
      FileSweepCount(rules, last.path, last.additions);
      SumFiringStep(rules, files);
    }
  }

  /** The counts of `SweepCount` for each line-scanning agent. */
  lemma AgentCounts(files: seq<ParsedFile>)
    ensures |Sweep(Complexity, files)| == Firing(LongLine, files)
    ensures |Sweep(Security, files)| == Firing(InsecureCall, files)
    ensures |Sweep(DebugArtifact, files)| == Firing(TodoMarker, files) + Firing(DebugPrint, files)
  {
    SweepCount(Complexity, files);
    SweepCount(Security, files);
    SweepCount(DebugArtifact, files);
    assert [TodoMarker, DebugPrint][1..] == [DebugPrint];
  }

  /** `c` was raised on the added line `added` of the file at `path` by one of `rules` that flags it. */
  ghost predicate RaisedBy(rules: seq<LineRule>, path: string, added: NumberedLine, c: ReviewComment) {
    exists r :: r in rules && Fires(r, path, added.1) && c == RuleComment(r, path, added.0)
  }

  /** `c` was raised by one of `rules` on an added line of one of `files`, at that line. */
  ghost predicate RaisedOnAddedLine(rules: seq<LineRule>, files: seq<ParsedFile>, c: ReviewComment) {
    exists k, j :: 0 <= k < |files| && 0 <= j < |files[k].additions|
      && RaisedBy(rules, files[k].path, files[k].additions[j], c)
  }

  lemma {:induction false} RuleHitsSource(rules: seq<LineRule>, path: string, added: NumberedLine, c: ReviewComment)
    requires c in RuleHits(rules, path, added)
    ensures RaisedBy(rules, path, added, c)
    decreases |rules|
  {
    var head := if Fires(rules[0], path, added.1) then [RuleComment(rules[0], path, added.0)] else [];
    assert RuleHits(rules, path, added) == head + RuleHits(rules[1..], path, added);
    if c in head {
      assert rules[0] in rules;
    } else {
      RuleHitsSource(rules[1..], path, added, c);
      var r :| r in rules[1..] && Fires(r, path, added.1) && c == RuleComment(r, path, added.0);
      assert r in rules;
    }
  }

  /** `c` was raised by one of `rules` on one of the added lines `adds` of the file at `path`. */
  ghost predicate RaisedInFile(rules: seq<LineRule>, path: string, adds: seq<NumberedLine>, c: ReviewComment) {
    exists j :: 0 <= j < |adds| && RaisedBy(rules, path, adds[j], c)
  }

  lemma RaisedAt(rules: seq<LineRule>, path: string, adds: seq<NumberedLine>, j: int, c: ReviewComment)
    requires 0 <= j < |adds| && RaisedBy(rules, path, adds[j], c)
    ensures RaisedInFile(rules, path, adds, c)
  {
  }

  lemma {:induction false} FileSweepSource(rules: seq<LineRule>, path: string, adds: seq<NumberedLine>, c: ReviewComment)
    requires c in FileSweep(rules, path, adds)
    ensures RaisedInFile(rules, path, adds, c)
    decreases |adds|
  {
    var init := adds[..|adds| - 1];
    var last := adds[|adds| - 1];
    assert FileSweep(rules, path, adds) == FileSweep(rules, path, init) + RuleHits(rules, path, last);
    if c in FileSweep(rules, path, init) {
      FileSweepSource(rules, path, init, c);
      RaisedInFilePrefix(rules, path, adds, c);
    } else {
      RuleHitsSource(rules, path, last, c);
      RaisedAt(rules, path, adds, |adds| - 1, c);
    }
  }

  lemma RaisedInFilePrefix(rules: seq<LineRule>, path: string, adds: seq<NumberedLine>, c: ReviewComment)
    requires adds != [] && RaisedInFile(rules, path, adds[..|adds| - 1], c)
    ensures RaisedInFile(rules, path, adds, c)
  {
    var init := adds[..|adds| - 1];
    var j :| 0 <= j < |init| && RaisedBy(rules, path, init[j], c);
    assert adds[j] == init[j];
    RaisedAt(rules, path, adds, j, c);
  }

  /**
   * Every comment of a line-scanning agent points at an added line of a
   * parsed file (same path, start and end at the line's number), was
   * raised by one of that agent's rules that flags the line, and names the
   * agent.
   */
  lemma SweepSource(agent: Agent, files: seq<ParsedFile>, c: ReviewComment)
    requires c in Sweep(agent, files)
    ensures RaisedOnAddedLine(AgentRules(agent), files, c)
    ensures c.agent == Some(agent.Name())
  {
    RulesSweepSource(AgentRules(agent), files, c);
    var k, j :| 0 <= k < |files| && 0 <= j < |files[k].additions|
      && RaisedBy(AgentRules(agent), files[k].path, files[k].additions[j], c);
    RaisedByNamesAgent(agent, files[k].path, files[k].additions[j], c);
  }

  lemma {:induction false} RulesSweepSource(rules: seq<LineRule>, files: seq<ParsedFile>, c: ReviewComment)
    requires c in RulesSweep(rules, files)
    ensures RaisedOnAddedLine(rules, files, c)
    decreases |files|
  {
    var init := files[..|files| - 1];
    var last := files[|files| - 1];
    assert RulesSweep(rules, files) == RulesSweep(rules, init) + FileSweep(rules, last.path, last.additions);
    if c in RulesSweep(rules, init) {
      RulesSweepSource(rules, init, c);
      RaisedInPrefix(rules, files, c);
    } else {
      FileSweepSource(rules, last.path, last.additions, c);
      RaisedInLast(rules, files, c);
    }
  }

  lemma RaisedInPrefix(rules: seq<LineRule>, files: seq<ParsedFile>, c: ReviewComment)
    requires files != [] && RaisedOnAddedLine(rules, files[..|files| - 1], c)
    ensures RaisedOnAddedLine(rules, files, c)
  {
    var init := files[..|files| - 1];
    var k, j :| 0 <= k < |init| && 0 <= j < |init[k].additions| && RaisedBy(rules, init[k].path, init[k].additions[j], c);
    assert files[k] == init[k];
    assert RaisedBy(rules, files[k].path, files[k].additions[j], c);
  }

  lemma RaisedInLast(rules: seq<LineRule>, files: seq<ParsedFile>, c: ReviewComment)
    requires files != []
    requires RaisedInFile(rules, files[|files| - 1].path, files[|files| - 1].additions, c)
    ensures RaisedOnAddedLine(rules, files, c)
  {
    var last := files[|files| - 1];
    var j :| 0 <= j < |last.additions| && RaisedBy(rules, last.path, last.additions[j], c);
    assert RaisedBy(rules, files[|files| - 1].path, files[|files| - 1].additions[j], c);
  }

  lemma RaisedByNamesAgent(agent: Agent, path: string, added: NumberedLine, c: ReviewComment)
    requires RaisedBy(AgentRules(agent), path, added, c)
    ensures c.agent == Some(agent.Name())
  {
    var r :| r in AgentRules(agent) && Fires(r, path, added.1) && c == RuleComment(r, path, added.0);
    assert r.Owner() == agent;
  }

  // ---------------------------------------------------------------------
  // The pipeline
  // ---------------------------------------------------------------------

  /** The comments of `agents` run in order, concatenated. */
  function AgentsComments(agents: seq<Agent>, files: seq<ParsedFile>): seq<ReviewComment>
    decreases |agents|
  {
    if agents == [] then []
    else AgentsComments(agents[..|agents| - 1], files) + AgentComments(agents[|agents| - 1], files)
  }

  /** `run_multi_agent_review`'s metadata dictionary. */
  datatype Metadata = Metadata(
    agentsRun: seq<string>,
    totalComments: nat,
    filesReviewed: nat,
    severityBreakdown: Histogram,
    categoriesDetected: seq<string>)

  function Severities(cs: seq<ReviewComment>): (r: seq<string>)
  {
    seq(|cs|, i requires 0 <= i < |cs| => cs[i].severity)
  }

  function Categories(cs: seq<ReviewComment>): (r: seq<string>)
  {
    seq(|cs|, i requires 0 <= i < |cs| => cs[i].category)
  }

  function MetadataOf(files: seq<ParsedFile>, comments: seq<ReviewComment>): Metadata {
    Metadata(AgentNames(), |comments|, |files|, Tally(Severities(comments)), SortedSet(Categories(comments)))
  }

  /** `_build_summary`: the sentences, before they are joined with spaces. */
  function SummaryParts(m: Metadata): seq<string> {
    ["Multi-agent review touched " + NatToString(m.filesReviewed) + " file(s) and produced "
       + NatToString(m.totalComments) + " actionable insight(s)."]
    + (if m.severityBreakdown != [] then ["Severity mix -> " + Join(", ", BucketTexts(m.severityBreakdown)) + "."] else [])
    + (if m.categoriesDetected != [] then ["Focus areas: " + Join(", ", m.categoriesDetected) + "."] else [])
  }

  /** `f"{level}:{count}"` for each entry. */
  function BucketTexts(h: Histogram): (r: seq<string>)
  {
    seq(|h|, i requires 0 <= i < |h| => h[i].0 + ":" + NatToString(h[i].1))
  }

  function BuildSummary(m: Metadata): string {
    Join(" ", SummaryParts(m))
  }

  const SkippedSummary := "No diff provided; multi-agent review skipped."

  datatype ReviewOutcome = ReviewOutcome(summary: string, comments: seq<ReviewComment>, metadata: Metadata)

  /** `run_multi_agent_review(diff)` as a value. */
  function ReviewOf(diff: Option<string>): ReviewOutcome {
    if diff.None? || diff.value == "" then
      ReviewOutcome(SkippedSummary, [], Metadata(AgentNames(), 0, 0, [], []))
    else
      var files := ParsedFiles(diff.value);
      var comments := AgentsComments(Agents, files);
      var m := MetadataOf(files, comments);
      ReviewOutcome(BuildSummary(m), comments, m)
  }

  /**
   * `run_multi_agent_review`: parse, run every agent in order extending the
   * comment list, then derive the metadata and the summary.
   */
  method RunMultiAgentReview(diff: Option<string>) returns (summary: string, comments: seq<ReviewComment>, metadata: Metadata)
    ensures ReviewOutcome(summary, comments, metadata) == ReviewOf(diff)
  {
    if diff.None? || diff.value == "" {
      metadata := Metadata(AgentNames(), 0, 0, [], []);
      return SkippedSummary, [], metadata;
    }
    var parsedFiles := ParseUnifiedDiff(diff.value);
    comments := [];
    for k := 0 to |Agents|
      invariant comments == AgentsComments(Agents[..k], parsedFiles)
    {
      assert Agents[..k + 1][..k] == Agents[..k];
      var agentComments := RunAgent(Agents[k], parsedFiles);
      comments := comments + agentComments;
    }
    assert Agents[..|Agents|] == Agents;
    metadata := MetadataOf(parsedFiles, comments);
    summary := BuildSummary(metadata);
  }

  // ---------------------------------------------------------------------
  // What the pipeline promises
  // ---------------------------------------------------------------------

  /**
   * An empty or missing diff yields the fixed skipped summary, no comments,
   * zero counts, empty breakdowns and all four agent names.
   */
  lemma SkippedRun(diff: Option<string>)
    requires diff.None? || diff.value == ""
    ensures var out := ReviewOf(diff);
      && out.summary == "No diff provided; multi-agent review skipped."
      && out.comments == []
      && out.metadata.totalComments == 0 && out.metadata.filesReviewed == 0
      && out.metadata.severityBreakdown == [] && out.metadata.categoriesDetected == []
      && out.metadata.agentsRun == ["complexity-agent", "debug-artifact-agent", "security-agent", "testing-agent"]
  {
  }

  /**
   * Comments come in agent order (complexity, debug-artifact, security,
   * testing), and each names one of the four agents.
   */
  lemma AgentOrder(files: seq<ParsedFile>)
    ensures AgentsComments(Agents, files)
         == Sweep(Complexity, files) + Sweep(DebugArtifact, files) + Sweep(Security, files) + TestingComments(files)
    ensures forall c :: c in AgentsComments(Agents, files) ==> c.agent.Some? && c.agent.value in AgentNames()
  {
    assert Agents[..3] == [Complexity, DebugArtifact, Security];
    assert AgentsComments(Agents, files) == AgentsComments([Complexity, DebugArtifact, Security], files) + TestingComments(files);
    assert [Complexity, DebugArtifact, Security][..2] == [Complexity, DebugArtifact];
    assert AgentsComments([Complexity, DebugArtifact, Security], files)
        == AgentsComments([Complexity, DebugArtifact], files) + Sweep(Security, files);
    assert [Complexity, DebugArtifact][..1] == [Complexity];
    assert AgentsComments([Complexity, DebugArtifact], files) == AgentsComments([Complexity], files) + Sweep(DebugArtifact, files);
    assert [Complexity][..0] == [];
    assert AgentsComments([Complexity], files) == Sweep(Complexity, files);
    forall c | c in AgentsComments(Agents, files)
      ensures c.agent.Some? && c.agent.value in AgentNames()
    {
      CommentNamesAgent(files, c);
    }
  }

  lemma CommentNamesAgent(files: seq<ParsedFile>, c: ReviewComment)
    requires c in Sweep(Complexity, files) + Sweep(DebugArtifact, files) + Sweep(Security, files) + TestingComments(files)
    ensures c.agent.Some? && c.agent.value in AgentNames()
  {
    if c in Sweep(Complexity, files) {
      SweepSource(Complexity, files, c);
    } else if c in Sweep(DebugArtifact, files) {
      SweepSource(DebugArtifact, files, c);
    } else if c in Sweep(Security, files) {
      SweepSource(Security, files, c);
    } else {
      TestingAgentSpec(files);
    }
  }

  /**
   * The metadata agrees with the comment list: the total is its length, the
   * file count is the number of parsed files, the severity breakdown has
   * one entry per distinct severity holding its number of comments and
   * adding up to the total, and the categories are sorted, without
   * repetition, and exactly the comments' categories.
   */
  lemma MetadataAgrees(diff: Option<string>)
    requires diff.Some? && diff.value != ""
    ensures var out := ReviewOf(diff);
      && out.metadata.totalComments == |out.comments|
      && out.metadata.filesReviewed == |ParsedFiles(diff.value)|
      && SeverityAgrees(out.metadata.severityBreakdown, out.comments)
      && CategoriesAgree(out.metadata.categoriesDetected, out.comments)
  {
    var out := ReviewOf(diff);
    SeverityTally(out.comments);
    CategorySet(out.comments);
  }

  /** One entry per distinct severity, holding its number of comments, adding up to the total. */
  ghost predicate SeverityAgrees(h: Histogram, cs: seq<ReviewComment>) {
    && CountSum(h) == |cs|
    && Distinct(Keys(h))
    && (forall s :: s in Keys(h) <==> exists i :: 0 <= i < |cs| && cs[i].severity == s)
    && (forall e :: 0 <= e < |h| ==> h[e].1 == multiset(Severities(cs))[h[e].0])
  }

  /** Sorted, without repetition, and exactly the comments' categories. */
  ghost predicate CategoriesAgree(cats: seq<string>, cs: seq<ReviewComment>) {
    && StrictlySorted(cats)
    && Distinct(cats)
    && (forall g :: g in cats <==> exists i :: 0 <= i < |cs| && cs[i].category == g)
  }

  lemma SeverityTally(cs: seq<ReviewComment>)
    ensures SeverityAgrees(Tally(Severities(cs)), cs)
  {
    var sev := Severities(cs);
    assert |sev| == |cs| && forall i :: 0 <= i < |cs| ==> sev[i] == cs[i].severity;
    TallySpec(sev);
    DedupSpec(sev);
    forall s
      ensures s in sev <==> exists i :: 0 <= i < |cs| && cs[i].severity == s
    {
      if s in sev {
        var i :| 0 <= i < |sev| && sev[i] == s;
      }
    }
  }

  lemma CategorySet(cs: seq<ReviewComment>)
    ensures CategoriesAgree(SortedSet(Categories(cs)), cs)
  {
    var cats := Categories(cs);
    assert |cats| == |cs| && forall i :: 0 <= i < |cs| ==> cats[i] == cs[i].category;
    SortedPairwise(SortedSet(cats));
    forall g
      ensures g in Categories(cs) <==> exists i :: 0 <= i < |cs| && cs[i].category == g
    {
      if g in Categories(cs) {
        var i :| 0 <= i < |cs| && Categories(cs)[i] == g;
      }
    }
  }

  /**
   * The summary opens with the file and comment counts; the severity mix
   * and the focus areas follow exactly when there is at least one comment.
   */
  lemma SummaryShape(diff: Option<string>)
    requires diff.Some? && diff.value != ""
    ensures var out := ReviewOf(diff);
      var parts := SummaryParts(out.metadata);
      && out.summary == Join(" ", parts)
      && |parts| == (if out.comments == [] then 1 else 3)
      && parts[0] == "Multi-agent review touched " + NatToString(|ParsedFiles(diff.value)|)
                     + " file(s) and produced " + NatToString(|out.comments|) + " actionable insight(s)."
  {
    var files := ParsedFiles(diff.value);
    var cs := AgentsComments(Agents, files);
    MetadataEmptiness(files, cs);
    SummaryPartsShape(MetadataOf(files, cs));
  }

  /** The severity mix and the focus areas are empty exactly when there are no comments. */
  lemma MetadataEmptiness(files: seq<ParsedFile>, cs: seq<ReviewComment>)
    ensures var m := MetadataOf(files, cs);
      && (m.severityBreakdown == [] <==> cs == [])
      && (m.categoriesDetected == [] <==> cs == [])
  {
    TallySpec(Severities(cs));
    assert |Severities(cs)| == |cs|;
    if cs != [] {
      assert Categories(cs)[0] == cs[0].category;
      assert cs[0].category in Categories(cs);
      assert CountSum(Tally(Severities(cs))) > 0;
    }
  }

  /** The opening sentence comes first; one more sentence per non-empty severity mix and focus list. */
  lemma SummaryPartsShape(m: Metadata)
    ensures var parts := SummaryParts(m);
      && |parts| == 1 + (if m.severityBreakdown != [] then 1 else 0) + (if m.categoriesDetected != [] then 1 else 0)
      && parts[0] == "Multi-agent review touched " + NatToString(m.filesReviewed) + " file(s) and produced "
                     + NatToString(m.totalComments) + " actionable insight(s)."
  {
  }

  /**
   * With comments, the second sentence of the summary is the severity mix:
   * one `level:count` text per distinct severity, in order of first
   * occurrence, each counting the comments at that level.
   */
  lemma SeverityMixSentence(files: seq<ParsedFile>, cs: seq<ReviewComment>)
    requires cs != []
    ensures var h := Tally(Severities(cs));
      var texts := BucketTexts(h);
      && SummaryParts(MetadataOf(files, cs))[1] == "Severity mix -> " + Join(", ", texts) + "."
      && Keys(h) == Dedup(Severities(cs))
      && |texts| == |Keys(h)|
      && forall k :: 0 <= k < |texts| ==>
           texts[k] == Keys(h)[k] + ":" + NatToString(multiset(Severities(cs))[Keys(h)[k]])
  {
    var h := Tally(Severities(cs));
    MetadataEmptiness(files, cs);
    TallySpec(Severities(cs));
    assert MetadataOf(files, cs).severityBreakdown == h;
  }

  /**
   * With comments, the third sentence of the summary names the focus areas:
   * the comments' categories, each once, in sorted order.
   */
  lemma FocusAreasSentence(files: seq<ParsedFile>, cs: seq<ReviewComment>)
    requires cs != []
    ensures var cats := SortedSet(Categories(cs));
      && SummaryParts(MetadataOf(files, cs))[2] == "Focus areas: " + Join(", ", cats) + "."
      && CategoriesAgree(cats, cs)
  {
    MetadataEmptiness(files, cs);
    CategorySet(cs);
  }
}

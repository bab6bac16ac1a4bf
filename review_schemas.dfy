/** The backend's review comment record (a pydantic model on the Python side). */
module ReviewSchemas {
  import opened Wrappers

  /**
   * One finding. Line numbers are plain integers: nothing in the schema keeps
   * them positive, so the code that maps a comment onto a diff has to check.
   */
  datatype ReviewComment = ReviewComment(
    agent: Option<string>,
    filePath: string,
    lineStart: int,
    lineEnd: int,
    category: string,
    severity: string,
    title: string,
    body: string,
    suggestedFix: Option<string>)

  /** `max(0, x)`. */
  function Max0(x: int): (r: nat)
    ensures r >= x && (x >= 0 ==> r == x)
  {
    if x > 0 then x else 0
  }

  /** `min(a, b)` on naturals. */
  function MinNat(a: nat, b: nat): (r: nat)
    ensures r <= a && r <= b && (r == a || r == b)
  {
    if a <= b then a else b
  }
}

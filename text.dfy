/**
 * String primitives that the Python backend and the TypeScript frontend use,
 * hand-specified over `seq<char>`: prefix and substring tests, `str.replace`
 * with a count of one, ASCII lower-casing, the two languages' notions of
 * whitespace and `strip`/`trim`, Python's `str.splitlines`, JavaScript's
 * `String.prototype.split` on one character, `", ".join`, and decimal
 * rendering and reading of numbers (including JavaScript's `parseInt`).
 */
module Text {
  import opened Wrappers

  // ---------------------------------------------------------------------
  // Prefixes and substrings
  // ---------------------------------------------------------------------

  /** `s.startswith(p)` / `s.startsWith(p)`. */
  predicate StartsWith(s: string, p: string) {
    |p| <= |s| && s[..|p|] == p
  }

  /** `s.endswith(p)` / `s.endsWith(p)`. */
  predicate EndsWith(s: string, p: string) {
    |p| <= |s| && s[|s| - |p|..] == p
  }

  /** `sub in s` / `s.includes(sub)`: `sub` occurs at some position of `s`. */
  predicate Contains(s: string, sub: string)
    decreases |s|
  {
    StartsWith(s, sub) || (|s| > 0 && Contains(s[1..], sub))
  }

  /** Contains agrees with the positional definition of a substring. */
  lemma {:induction false} ContainsAt(s: string, sub: string, i: nat)
    requires i + |sub| <= |s| && s[i..i + |sub|] == sub
    ensures Contains(s, sub)
    decreases i
  {
    if i > 0 {
      assert s[1..][i - 1..i - 1 + |sub|] == sub;
      ContainsAt(s[1..], sub, i - 1);
    }
  }

  /** Any string contains itself, and every string contains the empty string. */
  lemma {:induction false} ContainsSelf(s: string)
    ensures Contains(s, s) && Contains(s, "")
  {
  }

  /** A string shorter than `sub` cannot contain it. */
  lemma {:induction false} ContainsNeedsLength(s: string, sub: string)
    requires Contains(s, sub)
    ensures |sub| <= |s|
    decreases |s|
  {
    if !StartsWith(s, sub) {
      ContainsNeedsLength(s[1..], sub);
    }
  }

  /**
   * `s.replace(pat, "", 1)`: the first occurrence of `pat` is removed, the
   * string is unchanged when there is none.
   */
  function ReplaceFirst(s: string, pat: string): (r: string)
    ensures !Contains(s, pat) ==> r == s
    ensures StartsWith(s, pat) ==> r == s[|pat|..]
    ensures |r| <= |s|
    decreases |s|
  {
    if StartsWith(s, pat) then s[|pat|..]
    else if s == [] then []
    else [s[0]] + ReplaceFirst(s[1..], pat)
  }

  // ---------------------------------------------------------------------
  // Characters
  // ---------------------------------------------------------------------

  /** An ASCII decimal digit (what `\d` and `int` accept in this model). */
  predicate IsDigit(c: char) {
    '0' <= c <= '9'
  }

  predicate AllDigits(s: string) {
    forall i :: 0 <= i < |s| ==> IsDigit(s[i])
  }

  /** ASCII lower-casing of one character; other characters are unchanged. */
  function LowerChar(c: char): (r: char)
    ensures 'A' <= c <= 'Z' ==> 'a' <= r <= 'z' && r as int == c as int + 32
    ensures !('A' <= c <= 'Z') ==> r == c
  {
    if 'A' <= c <= 'Z' then (c as int + 32) as char else c
  }

  /** `s.lower()` / `s.toLowerCase()` restricted to ASCII letters. */
  function Lower(s: string): (r: string)
    ensures |r| == |s|
    ensures forall i :: 0 <= i < |s| ==> r[i] == LowerChar(s[i])
  {
    seq(|s|, i requires 0 <= i < |s| => LowerChar(s[i]))
  }

  /** Lower-casing twice is lower-casing once. */
  lemma {:induction false} LowerIdempotent(s: string)
    ensures Lower(Lower(s)) == Lower(s)
  {
    forall i | 0 <= i < |s|
      ensures Lower(Lower(s))[i] == Lower(s)[i]
    {
      assert Lower(s)[i] == LowerChar(s[i]);
    }
  }

  // ---------------------------------------------------------------------
  // Whitespace and trimming
  // ---------------------------------------------------------------------

  /** Whose notion of whitespace applies. */
  datatype Dialect = Python | JavaScript

  /**
   * `str.isspace` for Python, the WhiteSpace and LineTerminator productions
   * of ECMAScript for JavaScript. They differ in U+001C..U+001F and U+0085
   * (Python only) and U+FEFF (JavaScript only).
   */
  predicate IsSpace(d: Dialect, c: char) {
    var n := c as int;
    || 9 <= n <= 13
    || n == 0x20
    || n == 0xA0
    || n == 0x1680
    || 0x2000 <= n <= 0x200A
    || n == 0x2028 || n == 0x2029
    || n == 0x202F || n == 0x205F || n == 0x3000
    || (d == Python && (0x1C <= n <= 0x1F || n == 0x85))
    || (d == JavaScript && n == 0xFEFF)
  }

  /** Every character of `s` is whitespace (so `s.strip()` is empty). */
  predicate IsBlank(d: Dialect, s: string) {
    forall i :: 0 <= i < |s| ==> IsSpace(d, s[i])
  }

  function TrimStart(d: Dialect, s: string): (r: string)
    ensures |r| <= |s|
    ensures r == [] || !IsSpace(d, r[0])
    decreases |s|
  {
    if s != [] && IsSpace(d, s[0]) then TrimStart(d, s[1..]) else s
  }

  /** `TrimStart` keeps a suffix of its input and what it removes is whitespace. */
  lemma {:induction false} TrimStartRemovesBlank(d: Dialect, s: string)
    ensures TrimStart(d, s) == s[|s| - |TrimStart(d, s)|..]
    ensures IsBlank(d, s[..|s| - |TrimStart(d, s)|])
    decreases |s|
  {
    if s != [] && IsSpace(d, s[0]) {
      var r := TrimStart(d, s[1..]);
      TrimStartRemovesBlank(d, s[1..]);
      assert s[..|s| - |r|] == [s[0]] + s[1..][..|s[1..]| - |r|];
    }
  }

  function TrimEnd(d: Dialect, s: string): (r: string)
    ensures |r| <= |s|
    ensures r == [] || !IsSpace(d, r[|r| - 1])
    decreases |s|
  {
    if s != [] && IsSpace(d, s[|s| - 1]) then TrimEnd(d, s[..|s| - 1]) else s
  }

  /** `TrimEnd` keeps a prefix of its input and what it removes is whitespace. */
  lemma {:induction false} TrimEndRemovesBlank(d: Dialect, s: string)
    ensures TrimEnd(d, s) == s[..|TrimEnd(d, s)|]
    ensures IsBlank(d, s[|TrimEnd(d, s)|..])
    decreases |s|
  {
    if s != [] && IsSpace(d, s[|s| - 1]) {
      var r := TrimEnd(d, s[..|s| - 1]);
      TrimEndRemovesBlank(d, s[..|s| - 1]);
      assert s[|r|..] == s[..|s| - 1][|r|..] + [s[|s| - 1]];
    }
  }

  /** `s.strip()` (Python) or `s.trim()` (JavaScript). */
  function Trim(d: Dialect, s: string): (r: string)
    ensures |r| <= |s|
    ensures r == [] || (!IsSpace(d, r[0]) && !IsSpace(d, r[|r| - 1]))
  {
    TrimEndRemovesBlank(d, TrimStart(d, s));
    TrimEnd(d, TrimStart(d, s))
  }

  /** Trimming keeps a middle piece of its input between two runs of whitespace. */
  lemma {:induction false} TrimKeepsMiddle(d: Dialect, s: string)
    ensures exists a, b :: s == a + Trim(d, s) + b && IsBlank(d, a) && IsBlank(d, b)
  {
    var t := TrimStart(d, s);
    var r := Trim(d, s);
    TrimStartRemovesBlank(d, s);
    TrimEndRemovesBlank(d, t);
    var a := s[..|s| - |t|];
    var b := t[|r|..];
    assert t == r + b;
    assert s == a + t;
    assert s == a + r + b;
  }

  /** A string without whitespace at either end trims to itself. */
  lemma TrimUntouched(d: Dialect, s: string)
    requires |s| > 0 && !IsSpace(d, s[0]) && !IsSpace(d, s[|s| - 1])
    ensures Trim(d, s) == s
  {
    assert TrimStart(d, s) == s;
  }

  /** The trimmed string is empty exactly when the input is all whitespace. */
  lemma {:induction false} TrimEmptyIffBlank(d: Dialect, s: string)
    ensures Trim(d, s) == [] <==> IsBlank(d, s)
  {
    var t := TrimStart(d, s);
    var k := |s| - |t|;
    TrimStartRemovesBlank(d, s);
    TrimEndRemovesBlank(d, t);
    if Trim(d, s) == [] {
      assert t[0..] == t;
      assert s[..k] == s;
    }
  }

  /** A string without surrounding whitespace is its own trim. */
  lemma {:induction false} TrimIdempotent(d: Dialect, s: string)
    ensures Trim(d, Trim(d, s)) == Trim(d, s)
  {
    var r := Trim(d, s);
    if r != [] {
      assert TrimStart(d, r) == r;
      assert TrimEnd(d, r) == r;
    }
  }

  // ---------------------------------------------------------------------
  // Line splitting
  // ---------------------------------------------------------------------

  /** The line boundaries of Python's `str.splitlines` (`\r\n` counts as one). */
  predicate IsLineBreak(c: char) {
    var n := c as int;
    n == 10 || n == 11 || n == 12 || n == 13 || n == 0x1C || n == 0x1D || n == 0x1E
    || n == 0x85 || n == 0x2028 || n == 0x2029
  }

  predicate HasNoLineBreak(s: string) {
    forall i :: 0 <= i < |s| ==> !IsLineBreak(s[i])
  }

  /** Index of the first line break of `s`, or `|s|` when there is none. */
  function FirstLineBreak(s: string): (i: nat)
    ensures i <= |s|
    ensures HasNoLineBreak(s[..i])
    ensures i < |s| ==> IsLineBreak(s[i])
    decreases |s|
  {
    if s == [] then 0
    else if IsLineBreak(s[0]) then 0
    else
      var j := FirstLineBreak(s[1..]);
      assert s[..j + 1] == [s[0]] + s[1..][..j];
      j + 1
  }

  /**
   * `s.splitlines()`: the lines of `s` without their terminators; a final
   * terminator does not start an empty line, and `""` has no lines.
   */
  function SplitLines(s: string): (lines: seq<string>)
    ensures (|lines| == 0) == (s == [])
    ensures forall k :: 0 <= k < |lines| ==> HasNoLineBreak(lines[k])
    decreases |s|
  {
    if s == [] then []
    else
      var i := FirstLineBreak(s);
      if i == |s| then [s]
      else
        var next := if s[i] == '\r' && i + 1 < |s| && s[i + 1] == '\n' then i + 2 else i + 1;
        [s[..i]] + SplitLines(s[next..])
  }

  /** A non-empty text without line breaks is a single line. */
  lemma SplitLinesSingle(s: string)
    requires s != [] && HasNoLineBreak(s)
    ensures SplitLines(s) == [s]
  {
  }

  /** Index of the first `c` in `s`, or `|s|` when there is none. */
  function IndexOf(s: string, c: char): (i: nat)
    ensures i <= |s|
    ensures c !in s[..i]
    ensures i < |s| ==> s[i] == c
    decreases |s|
  {
    if s == [] then 0
    else if s[0] == c then 0
    else
      var j := IndexOf(s[1..], c);
      assert s[..j + 1] == [s[0]] + s[1..][..j];
      j + 1
  }

  /** JavaScript's `s.split(sep)` for a one-character separator. */
  function Split(s: string, sep: char): (parts: seq<string>)
    ensures |parts| >= 1
    decreases |s|
  {
    var i := IndexOf(s, sep);
    if i == |s| then
      assert s[..i] == s;
      [s]
    else [s[..i]] + Split(s[i + 1..], sep)
  }

  /** `sep.join(parts)` (Python) / `parts.join(sep)` (JavaScript). */
  function Join(sep: string, parts: seq<string>): string
    decreases |parts|
  {
    if |parts| == 0 then ""
    else if |parts| == 1 then parts[0]
    else parts[0] + sep + Join(sep, parts[1..])
  }

  lemma JoinCons(sep: string, p: string, rest: seq<string>)
    requires |rest| >= 1
    ensures Join(sep, [p] + rest) == p + sep + Join(sep, rest)
  {
    assert ([p] + rest)[1..] == rest;
  }

  /** Splitting on a character and joining back with it is the identity. */
  lemma {:induction false} JoinSplit(s: string, sep: char)
    ensures Join([sep], Split(s, sep)) == s
    decreases |s|
  {
    var i := IndexOf(s, sep);
    if i < |s| {
      var tail := s[i + 1..];
      var rest := Split(tail, sep);
      assert Split(s, sep) == [s[..i]] + rest;
      JoinSplit(tail, sep);
      JoinCons([sep], s[..i], rest);
      assert s[..i] + [sep] + tail == s;
    } else {
      assert Split(s, sep) == [s];
    }
  }

  // ---------------------------------------------------------------------
  // Decimal numbers
  // ---------------------------------------------------------------------

  function DigitChar(d: nat): (c: char)
    requires d < 10
    ensures IsDigit(c) && c as int - '0' as int == d
  {
    ('0' as int + d) as char
  }

  /** `str(n)` / `String(n)` for a natural number. */
  function NatToString(n: nat): (r: string)
    ensures |r| > 0 && AllDigits(r)
  {
    if n < 10 then [DigitChar(n)] else NatToString(n / 10) + [DigitChar(n % 10)]
  }

  /** `str(i)` for any integer. */
  function IntToString(i: int): (r: string)
    ensures |r| > 0
    ensures i >= 0 ==> AllDigits(r)
    ensures i < 0 ==> r[0] == '-' && AllDigits(r[1..])
  {
    if i < 0 then "-" + NatToString(-i) else NatToString(i)
  }

  /** The value of a run of decimal digits (`int("007") == 7`). */
  function DigitsValue(s: string): nat
    requires AllDigits(s)
  {
    if s == [] then 0
    else DigitsValue(s[..|s| - 1]) * 10 + (s[|s| - 1] as int - '0' as int)
  }

  /** Reading back a rendered natural number gives the number. */
  lemma {:induction false} DigitsValueOfNatToString(n: nat)
    ensures DigitsValue(NatToString(n)) == n
  {
    if n >= 10 {
      DigitsValueOfNatToString(n / 10);
      var s := NatToString(n);
      assert s[..|s| - 1] == NatToString(n / 10);
    }
  }

  /** Length of the longest prefix of `s` made of ASCII digits. */
  function DigitRun(s: string): (k: nat)
    ensures k <= |s| && AllDigits(s[..k])
    ensures k < |s| ==> !IsDigit(s[k])
    decreases |s|
  {
    if s != [] && IsDigit(s[0]) then
      var j := DigitRun(s[1..]);
      assert s[..j + 1] == [s[0]] + s[1..][..j];
      j + 1
    else 0
  }

  /** A rendered number followed by a non-digit is read back as a whole. */
  lemma {:induction false} DigitRunOfNatToString(n: nat, rest: string)
    requires rest == [] || !IsDigit(rest[0])
    ensures DigitRun(NatToString(n) + rest) == |NatToString(n)|
  {
    var s := NatToString(n) + rest;
    DigitRunOfAllDigits(NatToString(n), rest);
  }

  lemma {:induction false} DigitRunOfAllDigits(ds: string, rest: string)
    requires AllDigits(ds)
    requires rest == [] || !IsDigit(rest[0])
    ensures DigitRun(ds + rest) == |ds|
    decreases |ds|
  {
    if ds != [] {
      assert (ds + rest)[1..] == ds[1..] + rest;
      DigitRunOfAllDigits(ds[1..], rest);
    } else {
      assert ds + rest == rest;
    }
  }
  /**
   * JavaScript's `parseInt(s, 10)`: leading whitespace, an optional sign,
   * then the longest run of decimal digits; `None` (NaN) when there is no
   * digit there. Whatever follows the digits is ignored.
   */
  function ParseInt(s: string): (r: Option<int>)
  {
    var t := TrimStart(JavaScript, s);
    var signed := t != [] && (t[0] == '-' || t[0] == '+');
    var body := if signed then t[1..] else t;
    var k := DigitRun(body);
    var v: int := if k == 0 then 0 else DigitsValue(body[..k]);
    if k == 0 then None
    else if signed && t[0] == '-' then Some(-v)
    else Some(v)
  }

  /** Whitespace in front of a non-space character is what `TrimStart` drops. */
  lemma {:induction false} TrimStartBlankPrefix(d: Dialect, ws: string, s: string)
    requires IsBlank(d, ws)
    requires s == [] || !IsSpace(d, s[0])
    ensures TrimStart(d, ws + s) == s
    decreases |ws|
  {
    if ws != [] {
      assert (ws + s)[1..] == ws[1..] + s;
      TrimStartBlankPrefix(d, ws[1..], s);
    } else {
      assert ws + s == s;
    }
  }

  /**
   * `parseInt` reads back a rendered natural number, whatever whitespace
   * precedes it and whatever non-digit text follows it.
   */
  lemma ParseIntOfNatToString(ws: string, n: nat, rest: string)
    requires IsBlank(JavaScript, ws)
    requires rest == [] || !IsDigit(rest[0])
    ensures ParseInt(ws + NatToString(n) + rest) == Some(n)
  {
    var digits := NatToString(n);
    var t := digits + rest;
    assert ws + digits + rest == ws + t;
    assert t[0] == digits[0];
    TrimStartBlankPrefix(JavaScript, ws, t);
    DigitRunOfNatToString(n, rest);
    assert t[..|digits|] == digits;
    DigitsValueOfNatToString(n);
    ParseIntOfTrimmed(ws + t, t);
  }

  /** Once the whitespace is skipped, a leading digit starts the digit run that is read. */
  lemma ParseIntOfTrimmed(s: string, t: string)
    requires TrimStart(JavaScript, s) == t
    requires t != [] && IsDigit(t[0])
    ensures ParseInt(s) == Some(DigitsValue(t[..DigitRun(t)]))
  {
  }

  /** `parseInt` finds a number exactly when a digit follows the whitespace and the optional sign. */
  lemma ParseIntDefined(s: string)
    ensures var t := TrimStart(JavaScript, s);
      ParseInt(s).Some? <==>
        (t != [] && IsDigit(t[0])) || (|t| >= 2 && (t[0] == '-' || t[0] == '+') && IsDigit(t[1]))
  {
  }
}

/**
 * Collection idioms of the two languages: Python's `Counter` turned into a
 * `dict` (keys in first-occurrence order), `sorted(set(...))` over strings
 * (code-point order), and JavaScript's `Array.from(new Set(xs))`.
 */
module Collections {

  // ---------------------------------------------------------------------
  // Distinct elements in first-occurrence order
  // ---------------------------------------------------------------------

  predicate Distinct<T(==)>(xs: seq<T>) {
    forall i, j :: 0 <= i < j < |xs| ==> xs[i] != xs[j]
  }

  /** Position of the first `x` in `xs`. */
  function FirstIndex<T(==)>(xs: seq<T>, x: T): (k: nat)
    requires x in xs
    ensures k < |xs| && xs[k] == x && x !in xs[..k]
  {
    if xs[0] == x then 0
    else
      var k := FirstIndex(xs[1..], x);
      assert xs[..k + 1] == [xs[0]] + xs[1..][..k];
      k + 1
  }

  /** `Array.from(new Set(xs))`: each distinct element once, where it first occurs. */
  function Dedup<T(==)>(xs: seq<T>): (d: seq<T>)
    decreases |xs|
  {
    if xs == [] then []
    else
      var d := Dedup(xs[..|xs| - 1]);
      if xs[|xs| - 1] in d then d else d + [xs[|xs| - 1]]
  }

  /**
   * `Dedup(xs)` holds every element of `xs` exactly once, listed in the
   * order of their first occurrences in `xs`.
   */
  lemma {:induction false} DedupSpec<T>(xs: seq<T>)
    ensures var d := Dedup(xs);
      && Distinct(d)
      && (forall x :: x in d <==> x in xs)
      && (forall i, j :: 0 <= i < j < |d| ==> FirstIndex(xs, d[i]) < FirstIndex(xs, d[j]))
    decreases |xs|
  {
    if xs != [] {
      var init := xs[..|xs| - 1];
      var y := xs[|xs| - 1];
      assert xs == init + [y];
      DedupSpec(init);
      var d0 := Dedup(init);
      forall x | x in init
        ensures FirstIndex(xs, x) == FirstIndex(init, x)
      {
        FirstIndexPrefix(init, [y], x);
      }
      if y !in d0 {
        assert y !in init;
        assert FirstIndex(xs, y) == |init|;
      }
    }
  }

  lemma {:induction false} FirstIndexPrefix<T>(xs: seq<T>, ys: seq<T>, x: T)
    requires x in xs
    ensures x in xs + ys && FirstIndex(xs + ys, x) == FirstIndex(xs, x)
    decreases |xs|
  {
    if xs[0] != x {
      assert (xs + ys)[1..] == xs[1..] + ys;
      FirstIndexPrefix(xs[1..], ys, x);
    }
  }

  // ---------------------------------------------------------------------
  // Counter
  // ---------------------------------------------------------------------

  /** A `dict` from keys to counts, as an association list in insertion order. */
  type Histogram = seq<(string, nat)>

  function Keys(h: Histogram): (ks: seq<string>)
    ensures |ks| == |h| && forall i :: 0 <= i < |h| ==> ks[i] == h[i].0
    decreases |h|
  {
    if h == [] then [] else [h[0].0] + Keys(h[1..])
  }

  function CountSum(h: Histogram): nat
    decreases |h|
  {
    if h == [] then 0 else h[0].1 + CountSum(h[1..])
  }

  /** `h[k]` for a key of `h` (the first entry with that key), 0 otherwise. */
  function CountOf(h: Histogram, k: string): nat
    decreases |h|
  {
    if h == [] then 0 else if h[0].0 == k then h[0].1 else CountOf(h[1..], k)
  }

  /** Counting one more `x`: its count grows, or it is appended with count 1. */
  function Bump(h: Histogram, x: string): (r: Histogram)
    ensures Keys(r) == if x in Keys(h) then Keys(h) else Keys(h) + [x]
    ensures CountSum(r) == CountSum(h) + 1
    decreases |h|
  {
    if h == [] then [(x, 1)]
    else if h[0].0 == x then [(x, h[0].1 + 1)] + h[1..]
    else
      var t := Bump(h[1..], x);
      assert ([h[0]] + t)[1..] == t;
      [h[0]] + t
  }

  /** Bumping `x` adds one to the count of `x` and leaves every other count alone. */
  lemma {:induction false} BumpCountOf(h: Histogram, x: string, k: string)
    ensures CountOf(Bump(h, x), k) == CountOf(h, k) + (if k == x then 1 else 0)
    decreases |h|
  {
    if h != [] && h[0].0 != x {
      BumpCountOf(h[1..], x, k);
    }
  }

  /** With distinct keys, every entry holds the count of its own key. */
  lemma {:induction false} CountOfEntry(h: Histogram, i: nat)
    requires Distinct(Keys(h)) && i < |h|
    ensures CountOf(h, h[i].0) == h[i].1
    decreases i
  {
    if i > 0 {
      assert Keys(h)[0] != Keys(h)[i];
      assert Keys(h[1..]) == Keys(h)[1..];
      CountOfEntry(h[1..], i - 1);
    }
  }

  /** `dict(Counter(xs))`. */
  function Tally(xs: seq<string>): Histogram
    decreases |xs|
  {
    if xs == [] then [] else Bump(Tally(xs[..|xs| - 1]), xs[|xs| - 1])
  }

  /**
   * The tally has one entry per distinct element, in first-occurrence order,
   * each holding the number of times its key occurs, and the counts add up
   * to the length of the input.
   */
  lemma {:induction false} TallySpec(xs: seq<string>)
    ensures var h := Tally(xs);
      && Keys(h) == Dedup(xs)
      && CountSum(h) == |xs|
      && (forall i :: 0 <= i < |h| ==> h[i].1 == multiset(xs)[h[i].0])
    decreases |xs|
  {
    TallyCounts(xs);
    var h := Tally(xs);
    DedupSpec(xs);
    forall i | 0 <= i < |h|
      ensures h[i].1 == multiset(xs)[h[i].0]
    {
      CountOfEntry(h, i);
    }
  }

  lemma {:induction false} TallyCounts(xs: seq<string>)
    ensures Keys(Tally(xs)) == Dedup(xs)
    ensures CountSum(Tally(xs)) == |xs|
    ensures forall k :: CountOf(Tally(xs), k) == multiset(xs)[k]
    decreases |xs|
  {
    if xs != [] {
      var init := xs[..|xs| - 1];
      assert xs == init + [xs[|xs| - 1]];
      TallyCounts(init);
      forall k
        ensures CountOf(Tally(xs), k) == multiset(xs)[k]
      {
        BumpCountOf(Tally(init), xs[|xs| - 1], k);
      }
    }
  }

  // ---------------------------------------------------------------------
  // sorted(set(xs)) over strings
  // ---------------------------------------------------------------------

  /** Python's `<` on `str`: lexicographic by code point. */
  predicate LexLess(a: string, b: string)
    decreases |a|
  {
    if a == [] then b != []
    else b != [] && (a[0] < b[0] || (a[0] == b[0] && LexLess(a[1..], b[1..])))
  }

  lemma {:induction false} LexIrreflexive(a: string)
    ensures !LexLess(a, a)
    decreases |a|
  {
    if a != [] {
      LexIrreflexive(a[1..]);
    }
  }

  lemma {:induction false} LexTotal(a: string, b: string)
    ensures a == b || LexLess(a, b) || LexLess(b, a)
    decreases |a|
  {
    if a != [] && b != [] && a[0] == b[0] {
      LexTotal(a[1..], b[1..]);
      if a[1..] == b[1..] {
        assert a == [a[0]] + a[1..] && b == [b[0]] + b[1..];
      }
    }
  }

  lemma {:induction false} LexTransitive(a: string, b: string, c: string)
    requires LexLess(a, b) && LexLess(b, c)
    ensures LexLess(a, c)
    decreases |a|
  {
    if a != [] && a[0] == b[0] && b[0] == c[0] {
      LexTransitive(a[1..], b[1..], c[1..]);
    }
  }

  /** Each element is below the next one. */
  predicate StrictlySorted(xs: seq<string>) {
    forall i :: 0 < i < |xs| ==> LexLess(xs[i - 1], xs[i])
  }

  /** A strictly sorted list is ordered pairwise, so it has no repetition. */
  lemma {:induction false} SortedPairwise(xs: seq<string>)
    requires StrictlySorted(xs)
    ensures forall i, j :: 0 <= i < j < |xs| ==> LexLess(xs[i], xs[j])
    ensures Distinct(xs)
  {
    forall i, j | 0 <= i < j < |xs|
      ensures LexLess(xs[i], xs[j])
    {
      SortedFrom(xs, i, j);
    }
    forall i, j | 0 <= i < j < |xs|
      ensures xs[i] != xs[j]
    {
      SortedFrom(xs, i, j);
      LexIrreflexive(xs[i]);
    }
  }

  lemma {:induction false} SortedFrom(xs: seq<string>, i: nat, j: nat)
    requires StrictlySorted(xs) && i < j < |xs|
    ensures LexLess(xs[i], xs[j])
    decreases j - i
  {
    if i + 1 < j {
      SortedFrom(xs, i + 1, j);
      LexTransitive(xs[i], xs[i + 1], xs[j]);
    }
  }

  /** Adding `x` to a strictly sorted list of distinct strings. */
  function InsertSorted(xs: seq<string>, x: string): (r: seq<string>)
    requires StrictlySorted(xs)
    ensures StrictlySorted(r)
    ensures forall y :: y in r <==> y in xs || y == x
    ensures r != [] && (r[0] == x || (xs != [] && r[0] == xs[0]))
    decreases |xs|
  {
    if xs == [] then [x]
    else if x == xs[0] then xs
    else if LexLess(x, xs[0]) then [x] + xs
    else
      LexTotal(x, xs[0]);
      [xs[0]] + InsertSorted(xs[1..], x)
  }

  /** `sorted(set(xs))`. */
  function SortedSet(xs: seq<string>): (r: seq<string>)
    ensures StrictlySorted(r)
    ensures forall y :: y in r <==> y in xs
    decreases |xs|
  {
    if xs == [] then []
    else
      var r := InsertSorted(SortedSet(xs[..|xs| - 1]), xs[|xs| - 1]);
      assert forall y :: y in xs <==> y in xs[..|xs| - 1] || y == xs[|xs| - 1] by {
        assert xs == xs[..|xs| - 1] + [xs[|xs| - 1]];
      }
      r
  }

  /**
   * Sorting a set has only one answer: two strictly sorted lists with the
   * same elements are equal.
   */
  lemma {:induction false} SortedUnique(a: seq<string>, b: seq<string>)
    requires StrictlySorted(a) && StrictlySorted(b)
    requires forall y :: y in a <==> y in b
    ensures a == b
    decreases |a|
  {
    SortedPairwise(a);
    SortedPairwise(b);
    if b != [] {
      assert b[0] in a;
    }
    if a != [] {
      assert b != [] by { assert a[0] in b; }
      if a[0] != b[0] {
        assert b[0] in a && a[0] in b;
        var i :| 0 <= i < |a| && a[i] == b[0];
        var j :| 0 <= j < |b| && b[j] == a[0];
        assert LexLess(a[0], b[0]);
        assert LexLess(b[0], a[0]);
        LexTransitive(a[0], b[0], a[0]);
        LexIrreflexive(a[0]);
        assert false;
      }
      forall y
        ensures y in a[1..] <==> y in b[1..]
      {
        if y in a[1..] {
          var i :| 1 <= i < |a| && a[i] == y;
          assert y in a;
          var j :| 0 <= j < |b| && b[j] == y;
          assert j != 0;
          assert b[1..][j - 1] == y;
        }
        if y in b[1..] {
          var j :| 1 <= j < |b| && b[j] == y;
          assert y in b;
          var i :| 0 <= i < |a| && a[i] == y;
          assert i != 0;
          assert a[1..][i - 1] == y;
        }
      }
      SortedUnique(a[1..], b[1..]);
      assert a == [a[0]] + a[1..] && b == [b[0]] + b[1..];
    }
  }
  // ---------------------------------------------------------------------
  // Filtering
  // ---------------------------------------------------------------------

  /** `xs.filter(p)`: the elements satisfying `p`, in their order. */
  function Where<T(==,!new)>(xs: seq<T>, p: T -> bool): (r: seq<T>)
    ensures |r| <= |xs|
    ensures forall x :: x in r <==> x in xs && p(x)
    decreases |xs|
  {
    if xs == [] then []
    else if p(xs[0]) then [xs[0]] + Where(xs[1..], p)
    else Where(xs[1..], p)
  }

  /** `a` is `b` with some elements left out, the rest in their order. */
  predicate IsSubsequence<T(==)>(a: seq<T>, b: seq<T>)
    decreases |b|
  {
    a == [] || (b != [] && if a[0] == b[0] then IsSubsequence(a[1..], b[1..]) else IsSubsequence(a, b[1..]))
  }

  /** Filtering keeps the survivors in their original order. */
  lemma {:induction false} WhereSubsequence<T(!new)>(xs: seq<T>, p: T -> bool)
    ensures IsSubsequence(Where(xs, p), xs)
    decreases |xs|
  {
    if xs != [] {
      WhereSubsequence(xs[1..], p);
      if p(xs[0]) {
        assert Where(xs, p)[1..] == Where(xs[1..], p);
      }
    }
  }

  /** A filter every element passes changes nothing. */
  lemma {:induction false} WhereAll<T(!new)>(xs: seq<T>, p: T -> bool)
    requires forall i :: 0 <= i < |xs| ==> p(xs[i])
    ensures Where(xs, p) == xs
    decreases |xs|
  {
    if xs != [] {
      WhereAll(xs[1..], p);
    }
  }

  /** Filtering twice by the same predicate is filtering once. */
  lemma WhereIdempotent<T(!new)>(xs: seq<T>, p: T -> bool)
    ensures Where(Where(xs, p), p) == Where(xs, p)
  {
    var r := Where(xs, p);
    forall i | 0 <= i < |r|
      ensures p(r[i])
    {
      assert r[i] in r;
    }
    WhereAll(r, p);
  }

  /** Two filters in a row are one filter by the conjunction. */
  lemma {:induction false} WhereWhere<T(!new)>(xs: seq<T>, p: T -> bool, q: T -> bool, both: T -> bool)
    requires forall x :: both(x) == (p(x) && q(x))
    ensures Where(Where(xs, p), q) == Where(xs, both)
    decreases |xs|
  {
    if xs != [] {
      WhereWhere(xs[1..], p, q, both);
      if p(xs[0]) {
        assert ([xs[0]] + Where(xs[1..], p))[1..] == Where(xs[1..], p);
      }
    }
  }

  /** Each element is kept by `p` or by its negation, never both. */
  lemma {:induction false} WhereSplits<T(!new)>(xs: seq<T>, p: T -> bool)
    ensures |Where(xs, p)| + |Where(xs, x => !p(x))| == |xs|
    decreases |xs|
  {
    if xs != [] {
      WhereSplits(xs[1..], p);
    }
  }
  /** Predicates that agree everywhere filter alike. */
  lemma {:induction false} WhereSame<T(!new)>(xs: seq<T>, p: T -> bool, q: T -> bool)
    requires forall x :: p(x) == q(x)
    ensures Where(xs, p) == Where(xs, q)
    decreases |xs|
  {
    if xs != [] {
      WhereSame(xs[1..], p, q);
    }
  }
}

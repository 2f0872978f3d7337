/**
 * Frequency computations of pandas as pure functions: `Series.mode()[0]`,
 * `Series.value_counts()`, and the extremes `sort_values().head(1)` reports.
 */
module Frequency {
  import opened Orders
  import opened Seqs

  /** No value occurs more often than the sequence is long. */
  lemma CountAtMostLength<T>(s: seq<T>, x: T)
    ensures Count(s, x) <= |s|
  {
  }

  // ---------------------------------------------------------------- mode

  /**
   * `m` is what `s.mode()[0]` returns: a value of `s` occurring at least as
   * often as every other, and the smallest (by `less`) among those that tie.
   */
  ghost predicate IsMode<T>(s: seq<T>, m: T, less: (T, T) -> bool) {
    && m in s
    && (forall x :: x in s ==> Count(s, x) <= Count(s, m))
    && (forall x :: x in s && x != m && Count(s, x) == Count(s, m) ==> less(m, x))
  }

  /** `x` ranks before `y` in the mode's order: more frequent, or as frequent and smaller. */
  predicate Beats<T(==)>(s: seq<T>, less: (T, T) -> bool, x: T, y: T) {
    Count(s, x) > Count(s, y) || (Count(s, x) == Count(s, y) && less(x, y))
  }

  /** A value of `s` that ranks before every other value of `s` is its mode. */
  lemma RankedFirstIsMode<T(!new)>(s: seq<T>, less: (T, T) -> bool, best: T)
    requires best in s
    requires forall i :: 0 <= i < |s| && s[i] != best ==> Beats(s, less, best, s[i])
    ensures IsMode(s, best, less)
  {
  }

  /** One step of the scan: the candidate at `k` either takes over or is beaten. */
  lemma ScanStep<T(!new)>(s: seq<T>, less: (T, T) -> bool, k: nat, best: T)
    requires StrictTotalOrder(less)
    requires k < |s|
    requires forall i :: 0 <= i < k && s[i] != best ==> Beats(s, less, best, s[i])
    ensures s[k] != best && Beats(s, less, s[k], best) ==>
      forall i :: 0 <= i < k + 1 && s[i] != s[k] ==> Beats(s, less, s[k], s[i])
    ensures !(s[k] != best && Beats(s, less, s[k], best)) ==>
      forall i :: 0 <= i < k + 1 && s[i] != best ==> Beats(s, less, best, s[i])
  {
  }

  /** Scans `s[k..]`, where `best` already ranks first among the values of `s[..k]`. */
  function ModeFrom<T(==,!new)>(s: seq<T>, less: (T, T) -> bool, k: nat, best: T): (m: T)
    requires StrictTotalOrder(less)
    requires 0 < k <= |s|
    requires best in s
    requires forall i :: 0 <= i < k && s[i] != best ==> Beats(s, less, best, s[i])
    ensures IsMode(s, m, less)
    decreases |s| - k
  {
    if k == |s| then
      RankedFirstIsMode(s, less, best);
      best
    else
      ScanStep(s, less, k, best);
      if s[k] != best && Beats(s, less, s[k], best) then ModeFrom(s, less, k + 1, s[k])
      else ModeFrom(s, less, k + 1, best)
  }

  /** `s.mode()[0]`; pandas raises on an empty column, hence the precondition. */
  function Mode<T(==,!new)>(s: seq<T>, less: (T, T) -> bool): (m: T)
    requires |s| > 0
    requires StrictTotalOrder(less)
    ensures IsMode(s, m, less)
  {
    ModeFrom(s, less, 1, s[0])
  }

  /** The mode is determined by the column alone: the tie-break leaves no choice. */
  lemma ModeUnique<T(!new)>(s: seq<T>, less: (T, T) -> bool, a: T, b: T)
    requires StrictTotalOrder(less)
    requires IsMode(s, a, less) && IsMode(s, b, less)
    ensures a == b
  {
  }

  /** A column holding one value twice has that value as its mode. */
  lemma ModeOfRepeat<T(!new)>(a: T, less: (T, T) -> bool)
    requires StrictTotalOrder(less)
    ensures Mode([a, a], less) == a
  {
  }

  /** Two values seen once each tie, and the tie goes to the smaller one whatever their order. */
  lemma ModeOfTie<T(!new)>(a: T, b: T, less: (T, T) -> bool)
    requires StrictTotalOrder(less)
    requires less(a, b)
    ensures Mode([a, b], less) == a && Mode([b, a], less) == a
  {
  }

  // ------------------------------------------------------------- extremes

  /** The first row of `sort_values(ascending=True)`. */
  function Min(s: seq<int>): (m: int)
    requires |s| > 0
    ensures m in s
    ensures forall x :: x in s ==> m <= x
    decreases |s|
  {
    if |s| == 1 then s[0]
    else
      assert s == [s[0]] + s[1..];
      var rest := Min(s[1..]);
      if s[0] <= rest then s[0] else rest
  }

  /** The first row of `sort_values(ascending=False)`. */
  function Max(s: seq<int>): (m: int)
    requires |s| > 0
    ensures m in s
    ensures forall x :: x in s ==> x <= m
    decreases |s|
  {
    if |s| == 1 then s[0]
    else
      assert s == [s[0]] + s[1..];
      var rest := Max(s[1..]);
      if s[0] >= rest then s[0] else rest
  }

  // ------------------------------------------------------- value counts

  /** One row of a `value_counts()` table. */
  datatype Entry<T> = Entry(key: T, count: nat)

  function Keys<T>(t: seq<Entry<T>>): seq<T>
    decreases |t|
  {
    if t == [] then [] else [t[0].key] + Keys(t[1..])
  }

  /** The sum of the counts of a table. */
  function Total<T>(t: seq<Entry<T>>): nat
    decreases |t|
  {
    if t == [] then 0 else t[0].count + Total(t[1..])
  }

  /** `s` with every occurrence of `x` removed. */
  function Without<T(==,!new)>(s: seq<T>, x: T): (r: seq<T>)
    ensures |r| == |s| - Count(s, x)
    ensures forall y :: Count(r, y) == if y == x then 0 else Count(s, y)
    ensures forall y :: y in r <==> y in s && y != x
    decreases |s|
  {
    if s == [] then []
    else
      assert s == [s[0]] + s[1..];
      var rest := Without(s[1..], x);
      if s[0] == x then rest
      else
        assert multiset([s[0]] + rest) == multiset{s[0]} + multiset(rest);
        [s[0]] + rest
  }

  /**
   * `s.value_counts()`: one row per distinct value of `s`, holding how often it
   * occurs; the rows are listed in order of first occurrence.
   */
  function Tally<T(==,!new)>(s: seq<T>): (t: seq<Entry<T>>)
    ensures Total(t) == |s|
    ensures forall x :: x in s <==> x in Keys(t)
    ensures forall i :: 0 <= i < |t| ==> t[i].count == Count(s, t[i].key) && t[i].count >= 1
    ensures forall i, j :: 0 <= i < j < |t| ==> t[i].key != t[j].key
    decreases |s|
  {
    if s == [] then []
    else
      assert s == [s[0]] + s[1..];
      var rest := Tally(Without(s[1..], s[0]));
      var t := [Entry(s[0], Count(s, s[0]))] + rest;
      assert t[1..] == rest;
      assert Keys(t) == [s[0]] + Keys(rest);
      t
  }
}

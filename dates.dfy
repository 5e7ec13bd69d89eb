/** Option, as returned by every step of the pipeline that can fail. */
module Wrappers {
  datatype Option<+T> = None | Some(value: T)
}

/**
 * Timezone-naive calendar days, the index type of every statement and
 * series in the pipeline, together with the index operations pandas
 * performs on them: ordering, sorting, union and the forward-fill lookup.
 */
module Dates {
  import opened Wrappers

  datatype Date = Date(year: int, month: int, day: int)

  /** Strict chronological order (lexicographic on year, month, day). */
  predicate Before(a: Date, b: Date) {
    a.year < b.year ||
    (a.year == b.year && (a.month < b.month || (a.month == b.month && a.day < b.day)))
  }

  predicate AtOrBefore(a: Date, b: Date) {
    a == b || Before(a, b)
  }

  /** Last day a month can have; February is given 29 days in every year. */
  function LastDay(month: int): int {
    if month == 2 then 29 else if month == 4 || month == 6 || month == 9 || month == 11 then 30 else 31
  }

  /** A day a pandas Timestamp can hold. */
  predicate ValidDate(d: Date) {
    1 <= d.month <= 12 && 1 <= d.day <= LastDay(d.month)
  }

  predicate AllValid(s: seq<Date>) {
    forall i :: 0 <= i < |s| ==> ValidDate(s[i])
  }

  /** Every date drawn from a sequence of valid dates is valid. */
  lemma AllValidSubset(a: seq<Date>, b: seq<Date>)
    requires AllValid(a) && forall d :: d in b ==> d in a
    ensures AllValid(b)
  {
    forall i | 0 <= i < |b|
      ensures ValidDate(b[i])
    {
      assert b[i] in a;
      var j :| 0 <= j < |a| && a[j] == b[i];
    }
  }

  predicate Distinct(s: seq<Date>) {
    forall i, j :: 0 <= i < j < |s| ==> s[i] != s[j]
  }

  /** Strictly increasing: pandas' is_monotonic_increasing without duplicates. */
  predicate Ascending(s: seq<Date>) {
    forall i, j :: 0 <= i < j < |s| ==> Before(s[i], s[j])
  }

  predicate Descending(s: seq<Date>) {
    forall i, j :: 0 <= i < j < |s| ==> Before(s[j], s[i])
  }

  lemma AscendingIsDistinct(s: seq<Date>)
    requires Ascending(s)
    ensures Distinct(s)
  {
  }

  /** Position of the first occurrence of d in s. */
  function IndexOf(s: seq<Date>, d: Date): (r: Option<nat>)
    ensures r.None? <==> d !in s
    ensures r.Some? ==> r.value < |s| && s[r.value] == d
    ensures r.Some? ==> forall k :: 0 <= k < r.value ==> s[k] != d
  {
    if s == [] then None
    else if s[0] == d then Some(0)
    else match IndexOf(s[1..], d)
      case None => None
      case Some(k) => Some(k + 1)
  }

  /** Inserts x into an ascending sequence, dropping it if already present. */
  function Insert(x: Date, s: seq<Date>): (r: seq<Date>)
    requires Ascending(s)
    ensures Ascending(r)
    ensures forall y :: y in r <==> y == x || y in s
    ensures |r| == if x in s then |s| else |s| + 1
  {
    if s == [] then [x]
    else if x == s[0] then s
    else if Before(x, s[0]) then [x] + s
    else
      var rest := Insert(x, s[1..]);
      assert forall y :: y in rest ==> Before(s[0], y);
      [s[0]] + rest
  }

  /**
   * The ascending arrangement of the dates of s: what pandas' sort_values
   * and sort_index produce on an index without duplicates.
   */
  function SortDistinct(s: seq<Date>): (r: seq<Date>)
    ensures Ascending(r)
    ensures forall y :: y in r <==> y in s
    ensures Distinct(s) ==> |r| == |s|
  {
    if s == [] then []
    else
      var prefix := s[..|s| - 1];
      assert forall y :: y in s <==> y in prefix || y == s[|s| - 1];
      Insert(s[|s| - 1], SortDistinct(prefix))
  }

  /** Two ascending sequences with the same elements are the same sequence. */
  lemma {:induction false} AscendingUnique(a: seq<Date>, b: seq<Date>)
    requires Ascending(a) && Ascending(b)
    requires forall y :: y in a <==> y in b
    ensures a == b
  {
    assert a != [] ==> a[0] in b;
    assert b != [] ==> b[0] in a;
    if a != [] && b != [] {
      assert a[0] == b[0];
      forall y
        ensures y in a[1..] <==> y in b[1..]
      {
        if y in a[1..] {
          assert y in b && y != b[0];
        }
        if y in b[1..] {
          assert y in a && y != a[0];
        }
      }
      AscendingUnique(a[1..], b[1..]);
    }
  }

  /** Sorting an index that is already ascending leaves it as it is. */
  lemma SortAscendingIsIdentity(s: seq<Date>)
    requires Ascending(s)
    ensures SortDistinct(s) == s
  {
    AscendingUnique(SortDistinct(s), s);
  }

  /**
   * Index.union as pandas applies it while building a DataFrame from a dict
   * of Series: an empty or identical operand leaves the other one as it is,
   * otherwise the result is the sorted union.
   */
  function Union(a: seq<Date>, b: seq<Date>): (r: seq<Date>)
    ensures forall y :: y in r <==> y in a || y in b
    ensures Distinct(a) && Distinct(b) ==> Distinct(r)
    ensures a == b || a == [] || b == [] || Ascending(r)
  {
    if b == [] || a == b then a
    else if a == [] then b
    else
      var r := SortDistinct(a + b);
      AscendingIsDistinct(r);
      r
  }

  /**
   * Position of the latest date of s that is on or before t: the position
   * reindex(method="ffill") takes its value from.
   */
  function LatestAtOrBefore(s: seq<Date>, t: Date): (r: Option<nat>)
    ensures r.Some? ==> r.value < |s| && AtOrBefore(s[r.value], t)
    ensures r.Some? ==> forall k :: 0 <= k < |s| && AtOrBefore(s[k], t) ==> AtOrBefore(s[k], s[r.value])
    ensures r.None? <==> forall k :: 0 <= k < |s| ==> Before(t, s[k])
  {
    if s == [] then None
    else
      var last := s[|s| - 1];
      var earlier := LatestAtOrBefore(s[..|s| - 1], t);
      if AtOrBefore(last, t) && (earlier.None? || AtOrBefore(s[earlier.value], last)) then Some(|s| - 1)
      else earlier
  }

  /**
   * Position of the earliest date of s that is on or after t: the position
   * pandas pads from when the index is decreasing, the neighbour that
   * precedes t in the index's own order.
   */
  function EarliestAtOrAfter(s: seq<Date>, t: Date): (r: Option<nat>)
    ensures r.Some? ==> r.value < |s| && AtOrBefore(t, s[r.value])
    ensures r.Some? ==> forall k :: 0 <= k < |s| && AtOrBefore(t, s[k]) ==> AtOrBefore(s[r.value], s[k])
    ensures r.None? <==> forall k :: 0 <= k < |s| ==> Before(s[k], t)
  {
    if s == [] then None
    else
      var last := s[|s| - 1];
      var earlier := EarliestAtOrAfter(s[..|s| - 1], t);
      if AtOrBefore(t, last) && (earlier.None? || AtOrBefore(last, s[earlier.value])) then Some(|s| - 1)
      else earlier
  }

  /**
   * In an ascending index whose dates up to position m are on or before t
   * and the rest after it, the forward-fill position for t is m.
   */
  lemma LatestInAscending(s: seq<Date>, t: Date, m: int)
    requires Ascending(s) && -1 <= m < |s|
    requires forall i :: 0 <= i < |s| ==> (AtOrBefore(s[i], t) <==> i <= m)
    ensures LatestAtOrBefore(s, t) == if m < 0 then None else Some(m)
  {
    var r := LatestAtOrBefore(s, t);
    if m >= 0 {
      assert AtOrBefore(s[m], t);
      assert AtOrBefore(s[m], s[r.value]);
    }
  }
}

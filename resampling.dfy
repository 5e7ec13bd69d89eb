/**
 * Dividend bucketing: `dividends.resample("QE"|"YE").sum()` followed by
 * `.reindex(dates, method="ffill")`, as data_processor.py and
 * financial_utils.py both apply it.
 */
module Resampling {
  import opened Wrappers
  import opened Dates
  import opened Frames
  import opened Constants

  /** One dividend event: ex-dividend date and amount per share. */
  datatype Dividend = Dividend(date: Date, amount: Cell)

  /** The two resampling rules: calendar quarter ends and calendar year ends. */
  datatype Frequency = QuarterEnd | YearEnd

  /** "QE" for the quarterly period and "YE" for any other period string. */
  function FrequencyFor(period: string): (f: Frequency)
    ensures f == QuarterEnd <==> period == PERIOD_QUARTERLY
  {
    if period == PERIOD_QUARTERLY then QuarterEnd else YearEnd
  }

  /** Number of the bucket a date falls in: quarters and years counted from year 0. */
  function PeriodOf(d: Date, f: Frequency): int {
    match f
    case QuarterEnd => d.year * 4 + (d.month - 1) / 3
    case YearEnd => d.year
  }

  /** The label of bucket k: its last day (03-31, 06-30, 09-30, 12-31, or 12-31 for years). */
  function PeriodEnd(k: int, f: Frequency): Date {
    match f
    case QuarterEnd =>
      var q := k % 4;
      Date(k / 4, 3 * q + 3, if q == 0 || q == 3 then 31 else 30)
    case YearEnd => Date(k, 12, 31)
  }

  /** Every label is a real calendar day and lies in its own bucket. */
  lemma PeriodEndInBucket(k: int, f: Frequency)
    ensures ValidDate(PeriodEnd(k, f)) && PeriodOf(PeriodEnd(k, f), f) == k
  {
  }

  lemma PeriodEndsAscend(k: int, l: int, f: Frequency)
    requires k < l
    ensures Before(PeriodEnd(k, f), PeriodEnd(l, f))
  {
  }

  /** A date lies after the end of the previous bucket and no later than the end of its own. */
  lemma PeriodBounds(d: Date, f: Frequency)
    requires ValidDate(d)
    ensures AtOrBefore(d, PeriodEnd(PeriodOf(d, f), f))
    ensures Before(PeriodEnd(PeriodOf(d, f) - 1, f), d)
  {
  }

  /** The latest bucket that has ended by date t. */
  function LastEnded(t: Date, f: Frequency): int {
    var k := PeriodOf(t, f);
    if IsPeriodEnd(t, f) then k else k - 1
  }

  /** t is the last day of its bucket. */
  predicate IsPeriodEnd(t: Date, f: Frequency) {
    match f
    case QuarterEnd =>
      (t.month == 3 && t.day == 31) || (t.month == 6 && t.day == 30) ||
      (t.month == 9 && t.day == 30) || (t.month == 12 && t.day == 31)
    case YearEnd => t.month == 12 && t.day == 31
  }

  /** The latest bucket up to hi that has ended by t. */
  function LatestEnded(t: Date, f: Frequency, hi: int): (k: int)
    ensures k <= hi && k <= LastEnded(t, f)
    ensures k == hi || k == LastEnded(t, f)
  {
    if LastEnded(t, f) < hi then LastEnded(t, f) else hi
  }

  /** Bucket k has ended by t exactly when k is at most LastEnded(t). */
  lemma {:induction false} EndedBy(t: Date, k: int, f: Frequency)
    requires ValidDate(t)
    ensures AtOrBefore(PeriodEnd(k, f), t) <==> k <= LastEnded(t, f)
  {
    var p := PeriodOf(t, f);
    PeriodBounds(t, f);
    if k < p {
      if k < p - 1 {
        PeriodEndsAscend(k, p - 1, f);
      }
    } else if k > p {
      PeriodEndsAscend(p, k, f);
    }
  }

  /** Amount of one event counted towards bucket k; pandas' sum skips NaN. */
  function Contribution(e: Dividend, k: int, f: Frequency): real {
    if PeriodOf(e.date, f) == k && e.amount.Num? then e.amount.value else 0.0
  }

  /** Sum of the amounts paid in bucket k. */
  function PeriodTotal(events: seq<Dividend>, k: int, f: Frequency): real {
    if events == [] then 0.0
    else PeriodTotal(events[..|events| - 1], k, f) + Contribution(events[|events| - 1], k, f)
  }

  /** Sum of all defined amounts. */
  function TotalAmount(events: seq<Dividend>): real {
    if events == [] then 0.0
    else
      var e := events[|events| - 1];
      TotalAmount(events[..|events| - 1]) + (if e.amount.Num? then e.amount.value else 0.0)
  }

  /** Bucket of the earliest event. */
  function FirstPeriod(events: seq<Dividend>, f: Frequency): (k: int)
    requires events != []
    ensures forall i :: 0 <= i < |events| ==> k <= PeriodOf(events[i].date, f)
    ensures exists i :: 0 <= i < |events| && k == PeriodOf(events[i].date, f)
  {
    if |events| == 1 then PeriodOf(events[0].date, f)
    else
      var front := events[..|events| - 1];
      var k := FirstPeriod(front, f);
      var p := PeriodOf(events[|events| - 1].date, f);
      assert forall i :: 0 <= i < |front| ==> events[i] == front[i];
      if p < k then p else k
  }

  /** Bucket of the latest event. */
  function LastPeriod(events: seq<Dividend>, f: Frequency): (k: int)
    requires events != []
    ensures forall i :: 0 <= i < |events| ==> PeriodOf(events[i].date, f) <= k
    ensures exists i :: 0 <= i < |events| && k == PeriodOf(events[i].date, f)
  {
    if |events| == 1 then PeriodOf(events[0].date, f)
    else
      var front := events[..|events| - 1];
      var k := LastPeriod(front, f);
      var p := PeriodOf(events[|events| - 1].date, f);
      assert forall i :: 0 <= i < |front| ==> events[i] == front[i];
      if p > k then p else k
  }

  /** The labels of the n buckets starting at bucket lo. */
  function Labels(lo: int, n: nat, f: Frequency): (r: seq<Date>)
    ensures |r| == n && Ascending(r)
    ensures forall i :: 0 <= i < n ==> r[i] == PeriodEnd(lo + i, f)
  {
    var r := seq(n, i requires 0 <= i < n => PeriodEnd(lo + i, f));
    forall i, j | 0 <= i < j < n
      ensures Before(r[i], r[j])
    {
      PeriodEndsAscend(lo + i, lo + j, f);
    }
    r
  }

  /** The totals of the n buckets starting at bucket lo. */
  function Totals(events: seq<Dividend>, lo: int, n: nat, f: Frequency): (r: seq<Cell>)
    ensures |r| == n
    ensures forall i :: 0 <= i < n ==> r[i] == Num(PeriodTotal(events, lo + i, f))
  {
    seq(n, i requires 0 <= i < n => Num(PeriodTotal(events, lo + i, f)))
  }

  /** The n consecutive buckets starting at bucket lo: their labels and totals. */
  function Buckets(events: seq<Dividend>, lo: int, n: nat, f: Frequency): (s: Series)
    ensures |s.index| == n && |s.values| == n && Ascending(s.index)
    ensures forall i :: 0 <= i < n ==> s.index[i] == PeriodEnd(lo + i, f) && s.values[i] == Num(PeriodTotal(events, lo + i, f))
  {
    Series(Labels(lo, n, f), Totals(events, lo, n, f))
  }

  /**
   * `dividends.resample(rule).sum()`: one bucket per period from the
   * earliest event's to the latest event's, labelled by the period's last
   * day; a period without events sums to 0.
   */
  function Resample(events: seq<Dividend>, f: Frequency): (s: Series)
    ensures |s.index| == |s.values| && Ascending(s.index)
    ensures events == [] <==> s.index == []
  {
    if events == [] then Series([], [])
    else
      var lo := FirstPeriod(events, f);
      assert lo <= PeriodOf(events[0].date, f) <= LastPeriod(events, f);
      Buckets(events, lo, LastPeriod(events, f) - lo + 1, f)
  }

  /** A non-empty list resamples to the run of buckets from its first period to its last. */
  lemma ResampleIsBuckets(events: seq<Dividend>, f: Frequency)
    requires events != []
    ensures var lo := FirstPeriod(events, f);
            Resample(events, f) == Buckets(events, lo, LastPeriod(events, f) - lo + 1, f)
  {
    var lo, hi := FirstPeriod(events, f), LastPeriod(events, f);
    assert lo <= PeriodOf(events[0].date, f) <= hi;
  }

  /**
   * When lo and hi are the earliest and the latest period any event falls
   * in, the resampled series has one bucket for each period from lo to hi,
   * with no gap; bucket i is labelled by the last day of period lo + i and
   * holds that period's total, 0 when no event falls in it.
   */
  lemma ResampleBuckets(events: seq<Dividend>, f: Frequency, lo: int, hi: int)
    requires forall i :: 0 <= i < |events| ==> lo <= PeriodOf(events[i].date, f) <= hi
    requires exists i :: 0 <= i < |events| && PeriodOf(events[i].date, f) == lo
    requires exists i :: 0 <= i < |events| && PeriodOf(events[i].date, f) == hi
    ensures var s := Resample(events, f);
            |s.index| == hi - lo + 1 &&
            forall i :: 0 <= i < |s.index| ==>
              s.index[i] == PeriodEnd(lo + i, f) && s.values[i] == Num(PeriodTotal(events, lo + i, f))
  {
    assert events != [];
    assert lo == FirstPeriod(events, f);
    assert hi == LastPeriod(events, f);
    ResampleIsBuckets(events, f);
  }

  /** On date t, the total of the latest of n buckets from lo that has ended by t. */
  function BucketOn(events: seq<Dividend>, lo: int, n: nat, f: Frequency, t: Date): Cell {
    var k := LatestEnded(t, f, lo + n - 1);
    if k < lo then Undefined else Num(PeriodTotal(events, k, f))
  }

  /**
   * Independent statement of what forward-filling the buckets onto date t
   * yields: the total of the latest bucket that has ended by t, never a
   * later one, and Undefined before the first bucket has ended.
   */
  function DividendOn(events: seq<Dividend>, f: Frequency, t: Date): Cell {
    if events == [] then Undefined
    else
      var lo := FirstPeriod(events, f);
      BucketOn(events, lo, LastPeriod(events, f) - lo + 1, f, t)
  }

  /** The buckets that have ended by t are exactly those up to LastEnded(t). */
  lemma {:induction false} LabelsEndedBy(lo: int, n: nat, f: Frequency, t: Date)
    requires ValidDate(t)
    ensures forall i :: 0 <= i < n ==> (AtOrBefore(Labels(lo, n, f)[i], t) <==> lo + i <= LastEnded(t, f))
  {
    var labels := Labels(lo, n, f);
    forall i | 0 <= i < n
      ensures AtOrBefore(labels[i], t) <==> lo + i <= LastEnded(t, f)
    {
      EndedBy(t, lo + i, f);
    }
  }

  /** The forward-fill position for t among n consecutive bucket labels. */
  lemma {:induction false} LatestLabel(lo: int, n: nat, f: Frequency, t: Date)
    requires ValidDate(t)
    ensures var k := LatestEnded(t, f, lo + n - 1);
            LatestAtOrBefore(Labels(lo, n, f), t) == if k < lo then None else Some(k - lo)
  {
    var k := LatestEnded(t, f, lo + n - 1);
    LabelsEndedBy(lo, n, f, t);
    LatestInAscending(Labels(lo, n, f), t, if k < lo then -1 else k - lo);
  }

  /** Forward-filling n consecutive buckets onto t picks the latest one ended by t. */
  lemma FfillLabels(lo: int, n: nat, values: seq<Cell>, f: Frequency, t: Date)
    requires ValidDate(t) && |values| == n
    ensures var k := LatestEnded(t, f, lo + n - 1);
            FfillAt(Series(Labels(lo, n, f), values), t) == if k < lo then Undefined else values[k - lo]
  {
    var k := LatestEnded(t, f, lo + n - 1);
    var r := LatestAtOrBefore(Labels(lo, n, f), t);
    LatestLabel(lo, n, f, t);
    assert r == if k < lo then None else Some(k - lo);
  }

  /** Forward-filling a run of buckets onto t gives BucketOn(t). */
  lemma FfillBuckets(events: seq<Dividend>, lo: int, n: nat, f: Frequency, t: Date)
    requires ValidDate(t)
    ensures FfillAt(Buckets(events, lo, n, f), t) == BucketOn(events, lo, n, f, t)
  {
    var totals := Totals(events, lo, n, f);
    FfillLabels(lo, n, totals, f, t);
    var k := LatestEnded(t, f, lo + n - 1);
    if k >= lo {
      assert totals[k - lo] == Num(PeriodTotal(events, k, f));
    }
  }

  /** Forward-filling the resampled buckets onto t gives DividendOn(t). */
  lemma ResampleFfill(events: seq<Dividend>, f: Frequency, t: Date)
    requires ValidDate(t)
    ensures FfillAt(Resample(events, f), t) == DividendOn(events, f, t)
  {
    if events != [] {
      var lo, hi := FirstPeriod(events, f), LastPeriod(events, f);
      ResampleIsBuckets(events, f);
      FfillBuckets(events, lo, hi - lo + 1, f, t);
    }
  }

  /**
   * `dividends.resample(rule).sum().reindex(dates, method="ffill").values`
   * with the rule chosen from the period: on every statement date, the
   * total of the latest bucket that has ended by then.
   */
  function BucketedDividends(events: seq<Dividend>, period: string, dates: seq<Date>): (r: seq<Cell>)
    requires AllValid(dates)
    ensures |r| == |dates|
    ensures forall i :: 0 <= i < |dates| ==> r[i] == DividendOn(events, FrequencyFor(period), dates[i])
  {
    var f := FrequencyFor(period);
    var s := Resample(events, f);
    var r := ReindexFfill(s, dates).value;
    forall i | 0 <= i < |dates|
      ensures r[i] == DividendOn(events, f, dates[i])
    {
      ResampleFfill(events, f, dates[i]);
    }
    r
  }

  /** Sum of the defined cells of a column. */
  function SumDefined(vs: seq<Cell>): real {
    if vs == [] then 0.0
    else SumDefined(vs[..|vs| - 1]) + (if vs[|vs| - 1].Num? then vs[|vs| - 1].value else 0.0)
  }

  /** Sum of the totals of the n buckets starting at lo. */
  function RangeTotal(events: seq<Dividend>, lo: int, n: nat, f: Frequency): real {
    if n == 0 then 0.0 else RangeTotal(events, lo, n - 1, f) + PeriodTotal(events, lo + n - 1, f)
  }

  lemma {:induction false} RangeTotalSplit(events: seq<Dividend>, lo: int, n: nat, f: Frequency)
    requires events != []
    ensures var e := events[|events| - 1];
            RangeTotal(events, lo, n, f) ==
            RangeTotal(events[..|events| - 1], lo, n, f) +
            (if lo <= PeriodOf(e.date, f) < lo + n && e.amount.Num? then e.amount.value else 0.0)
  {
    if n > 0 {
      RangeTotalSplit(events, lo, n - 1, f);
    }
  }

  lemma {:induction false} RangeTotalIsTotal(events: seq<Dividend>, lo: int, n: nat, f: Frequency)
    requires forall i :: 0 <= i < |events| ==> lo <= PeriodOf(events[i].date, f) < lo + n
    ensures RangeTotal(events, lo, n, f) == TotalAmount(events)
  {
    if events == [] {
      RangeTotalOfNothing(lo, n, f);
    } else {
      RangeTotalSplit(events, lo, n, f);
      RangeTotalIsTotal(events[..|events| - 1], lo, n, f);
    }
  }

  lemma {:induction false} RangeTotalOfNothing(lo: int, n: nat, f: Frequency)
    ensures RangeTotal([], lo, n, f) == 0.0
  {
    if n > 0 {
      RangeTotalOfNothing(lo, n - 1, f);
    }
  }

  /** The defined totals of n consecutive buckets add up to their range total. */
  lemma {:induction false} SumOfBuckets(events: seq<Dividend>, lo: int, n: nat, f: Frequency)
    ensures SumDefined(Totals(events, lo, n, f)) == RangeTotal(events, lo, n, f)
  {
    if n > 0 {
      var t := Totals(events, lo, n, f);
      assert t[..n - 1] == Totals(events, lo, n - 1, f);
      SumOfBuckets(events, lo, n - 1, f);
    }
  }

  /** Bucketing neither loses nor invents dividends: the buckets add up to the events. */
  lemma ResampleConservesTotal(events: seq<Dividend>, f: Frequency)
    ensures SumDefined(Resample(events, f).values) == TotalAmount(events)
  {
    if events != [] {
      var lo := FirstPeriod(events, f);
      var n := LastPeriod(events, f) - lo + 1;
      assert Resample(events, f).values == Totals(events, lo, n, f);
      SumOfBuckets(events, lo, n, f);
      RangeTotalIsTotal(events, lo, n, f);
    }
  }

  /** A date in one of n buckets from lo lies after the previous label and no later than its own. */
  lemma LabelBounds(lo: int, n: nat, f: Frequency, d: Date)
    requires ValidDate(d) && lo <= PeriodOf(d, f) < lo + n
    ensures var labels, j := Labels(lo, n, f), PeriodOf(d, f) - lo;
            AtOrBefore(d, labels[j]) && (j > 0 ==> Before(labels[j - 1], d))
  {
    PeriodBounds(d, f);
  }

  /** Every event lies in the bucket whose label is the first period end on or after it. */
  lemma EventInItsBucket(events: seq<Dividend>, f: Frequency, i: nat)
    requires i < |events| && ValidDate(events[i].date)
    ensures var s := Resample(events, f);
            var j := PeriodOf(events[i].date, f) - FirstPeriod(events, f);
            0 <= j < |s.index| && AtOrBefore(events[i].date, s.index[j]) &&
            (j > 0 ==> Before(s.index[j - 1], events[i].date))
  {
    var lo := FirstPeriod(events, f);
    var n := LastPeriod(events, f) - lo + 1;
    assert Resample(events, f).index == Labels(lo, n, f);
    LabelBounds(lo, n, f, events[i].date);
  }

  /** Dividends of 0.20 on 2023-01-15 and 2023-02-15 and of 0.25 on 2023-04-15. */
  function ScenarioEvents(): seq<Dividend> {
    [Dividend(Date(2023, 1, 15), Num(0.20)), Dividend(Date(2023, 2, 15), Num(0.20)),
     Dividend(Date(2023, 4, 15), Num(0.25))]
  }

  /** The scenario's events fall in the first two quarters of 2023. */
  lemma ScenarioPeriods()
    ensures FirstPeriod(ScenarioEvents(), QuarterEnd) == 2023 * 4
    ensures LastPeriod(ScenarioEvents(), QuarterEnd) == 2023 * 4 + 1
  {
    var events := ScenarioEvents();
    var q1 := 2023 * 4;
    assert PeriodOf(events[0].date, QuarterEnd) == q1;
    assert PeriodOf(events[1].date, QuarterEnd) == q1;
    assert PeriodOf(events[2].date, QuarterEnd) == q1 + 1;
    var e1, e2 := events[..1], events[..2];
    assert e2[..1] == e1 && e1[0] == events[0] && e2[1] == events[1];
    assert FirstPeriod(e2, QuarterEnd) == q1 && LastPeriod(e2, QuarterEnd) == q1;
  }

  /** The scenario's first quarter sums to 0.40 and its second to 0.25. */
  lemma ScenarioTotals()
    ensures PeriodTotal(ScenarioEvents(), 2023 * 4, QuarterEnd) == 0.40
    ensures PeriodTotal(ScenarioEvents(), 2023 * 4 + 1, QuarterEnd) == 0.25
  {
    var events := ScenarioEvents();
    var q1 := 2023 * 4;
    var e1, e2 := events[..1], events[..2];
    assert e2[..1] == e1 && e1[..0] == [] && e1[0] == events[0] && e2[1] == events[1];
    assert Contribution(events[0], q1 + 1, QuarterEnd) == 0.0;
    assert Contribution(events[1], q1 + 1, QuarterEnd) == 0.0;
    assert Contribution(events[2], q1, QuarterEnd) == 0.0;
    assert PeriodTotal(e1[..0], q1 + 1, QuarterEnd) == 0.0;
    assert PeriodTotal(e1, q1 + 1, QuarterEnd) ==
           PeriodTotal(e1[..0], q1 + 1, QuarterEnd) + Contribution(e1[0], q1 + 1, QuarterEnd);
    assert PeriodTotal(e1, q1, QuarterEnd) == 0.20 && PeriodTotal(e1, q1 + 1, QuarterEnd) == 0.0;
    assert PeriodTotal(e2, q1, QuarterEnd) == 0.40 && PeriodTotal(e2, q1 + 1, QuarterEnd) == 0.0;
  }

  /**
   * Two events in one quarter are summed and the next quarter stands alone:
   * the scenario gives 0.40 on 2023-03-31 and 0.25 on 2023-06-30.
   */
  lemma QuarterlyScenario()
    ensures FfillAt(Resample(ScenarioEvents(), QuarterEnd), Date(2023, 3, 31)) == Num(0.40)
    ensures FfillAt(Resample(ScenarioEvents(), QuarterEnd), Date(2023, 6, 30)) == Num(0.25)
  {
    ScenarioPeriods();
    ScenarioTotals();
    assert LastEnded(Date(2023, 3, 31), QuarterEnd) == 2023 * 4;
    assert LastEnded(Date(2023, 6, 30), QuarterEnd) == 2023 * 4 + 1;
    ResampleFfill(ScenarioEvents(), QuarterEnd, Date(2023, 3, 31));
    ResampleFfill(ScenarioEvents(), QuarterEnd, Date(2023, 6, 30));
  }
}

/**
 * The pandas semantics the pipeline relies on: value cells with an
 * "undefined" marker, elementwise arithmetic, date-indexed Series,
 * statement tables, DataFrames built from a dict of Series, label lookup,
 * alignment, forward-fill reindexing and sorting by the date index.
 */
module Frames {
  import opened Wrappers
  import opened Dates

  /**
   * One numeric cell. Undefined stands for pandas' NaN (alignment gaps,
   * missing values) and for the ±inf and NaN a division by zero yields.
   */
  datatype Cell = Num(value: real) | Undefined

  /** Elementwise division: undefined operands or a zero divisor give Undefined. */
  function Div(a: Cell, b: Cell): (r: Cell)
    ensures r.Num? <==> a.Num? && b.Num? && b.value != 0.0
  {
    if a.Num? && b.Num? && b.value != 0.0 then Num(a.value / b.value) else Undefined
  }

  /** A defined quotient, multiplied by the divisor, gives back the dividend. */
  lemma DivInverse(a: Cell, b: Cell)
    ensures Div(a, b).Num? ==> Div(a, b).value * b.value == a.value
  {
  }

  /** Elementwise subtraction; an undefined operand gives Undefined. */
  function Sub(a: Cell, b: Cell): (r: Cell)
    ensures r.Num? <==> a.Num? && b.Num?
    ensures r.Num? ==> r.value + b.value == a.value
  {
    if a.Num? && b.Num? then Num(a.value - b.value) else Undefined
  }

  /** part / whole * 100, with no clamping of the result. */
  function Percent(part: Cell, whole: Cell): (r: Cell)
    ensures r.Num? <==> part.Num? && whole.Num? && whole.value != 0.0
  {
    match Div(part, whole)
    case Num(q) => Num(q * 100.0)
    case Undefined => Undefined
  }

  /** A defined percentage, multiplied by the whole, gives a hundred times the part. */
  lemma PercentInverse(part: Cell, whole: Cell)
    ensures Percent(part, whole).Num? ==> Percent(part, whole).value * whole.value == part.value * 100.0
  {
    DivInverse(part, whole);
  }

  /** A date-indexed pandas Series. */
  datatype Series = Series(index: seq<Date>, values: seq<Cell>)

  predicate ValidSeries(s: Series) {
    |s.index| == |s.values| && Distinct(s.index)
  }

  /** A statement table: one column per period-end date, one row per line-item label. */
  datatype Table = Table(dates: seq<Date>, rows: map<string, seq<Cell>>)

  predicate ValidTable(t: Table) {
    Distinct(t.dates) && AllValid(t.dates) && forall item :: item in t.rows ==> |t.rows[item]| == |t.dates|
  }

  /** DataFrame.empty: no columns or no rows. */
  predicate IsEmpty(t: Table) {
    |t.dates| == 0 || |t.rows| == 0
  }

  /** `table.loc[item] if item in table.index else None`. */
  function Loc(t: Table, item: string): (r: Option<Series>)
    requires ValidTable(t)
    ensures r.Some? <==> item in t.rows
    ensures r.Some? ==> ValidSeries(r.value) && r.value.index == t.dates
  {
    if item in t.rows then Some(Series(t.dates, t.rows[item])) else None
  }

  /** The value of a statement row on date d; Undefined where the row has no such date. */
  function RowOn(t: Table, item: string, d: Date): Cell
    requires ValidTable(t) && item in t.rows
  {
    At(Loc(t, item).value, d)
  }

  /** The value a Series holds for date d once aligned onto an index containing d. */
  function At(s: Series, d: Date): (c: Cell)
    requires ValidSeries(s)
    ensures d !in s.index ==> c == Undefined
    ensures forall j :: 0 <= j < |s.index| && s.index[j] == d ==> c == s.values[j]
  {
    match IndexOf(s.index, d)
    case None => Undefined
    case Some(j) => s.values[j]
  }

  /** series.reindex(index): aligns a Series onto an index, gaps become Undefined. */
  function Align(s: Series, index: seq<Date>): (r: seq<Cell>)
    requires ValidSeries(s)
    ensures |r| == |index|
    ensures forall i :: 0 <= i < |index| ==> r[i] == At(s, index[i])
  {
    seq(|index|, i requires 0 <= i < |index| => At(s, index[i]))
  }

  /**
   * The value forward-filling s onto date t yields. On an increasing index
   * pandas pads from the latest date on or before t. On a decreasing one it
   * pads from the entry just before t's place in the index's own order: the
   * earliest date on or after t. An index that is both (at most one date)
   * counts as increasing; one that is neither cannot be filled.
   */
  function FfillAt(s: Series, t: Date): Cell
    requires |s.index| == |s.values|
  {
    if Ascending(s.index) then
      match LatestAtOrBefore(s.index, t)
      case None => Undefined
      case Some(j) => s.values[j]
    else if Descending(s.index) then
      match EarliestAtOrAfter(s.index, t)
      case None => Undefined
      case Some(j) => s.values[j]
    else Undefined
  }

  /**
   * On an increasing index forward-filling never looks ahead: a value comes
   * from a date on or before t, the latest such date, and there is none
   * when every date of s is after t.
   */
  lemma FfillNeverLooksAhead(s: Series, t: Date)
    requires |s.index| == |s.values| && Ascending(s.index)
    ensures var c := FfillAt(s, t);
            (c.Num? ==> exists j :: 0 <= j < |s.index| && AtOrBefore(s.index[j], t) && c == s.values[j] &&
                          forall i :: 0 <= i < |s.index| && AtOrBefore(s.index[i], t) ==> AtOrBefore(s.index[i], s.index[j])) &&
            ((forall j :: 0 <= j < |s.index| ==> Before(t, s.index[j])) ==> c == Undefined)
  {
    var r := LatestAtOrBefore(s.index, t);
    if r.Some? {
      var j := r.value;
      assert AtOrBefore(s.index[j], t) && FfillAt(s, t) == s.values[j];
    }
  }

  /**
   * On a decreasing index of two or more dates forward-filling looks ahead:
   * a value comes from the earliest date on or after t, and there is none
   * when every date of s is before t.
   */
  lemma FfillDescendingLooksAhead(s: Series, t: Date)
    requires |s.index| == |s.values| && Descending(s.index) && |s.index| >= 2
    ensures var c := FfillAt(s, t);
            (c.Num? ==> exists j :: 0 <= j < |s.index| && AtOrBefore(t, s.index[j]) && c == s.values[j] &&
                          forall i :: 0 <= i < |s.index| && AtOrBefore(t, s.index[i]) ==> AtOrBefore(s.index[j], s.index[i])) &&
            ((forall j :: 0 <= j < |s.index| ==> Before(s.index[j], t)) ==> c == Undefined)
  {
    assert Before(s.index[1], s.index[0]);
    assert !Ascending(s.index);
    var r := EarliestAtOrAfter(s.index, t);
    if r.Some? {
      var j := r.value;
      assert AtOrBefore(t, s.index[j]) && FfillAt(s, t) == s.values[j];
    }
  }

  /**
   * A share history listed newest first: a date between the two entries
   * takes the later entry's value, a date before both the earlier entry's,
   * and a date after both nothing.
   */
  lemma DescendingPadScenario()
    ensures ReindexFfill(Series([Date(2023, 6, 30), Date(2023, 3, 31)], [Num(200.0), Num(100.0)]),
                         [Date(2023, 5, 15), Date(2023, 1, 1), Date(2023, 7, 15)])
            == Some([Num(200.0), Num(100.0), Undefined])
  {
    var s := Series([Date(2023, 6, 30), Date(2023, 3, 31)], [Num(200.0), Num(100.0)]);
    assert Before(s.index[1], s.index[0]);
    assert Descending(s.index) && !Ascending(s.index);
    assert EarliestAtOrAfter(s.index, Date(2023, 5, 15)) == Some(0);
    assert EarliestAtOrAfter(s.index, Date(2023, 1, 1)) == Some(1);
    assert EarliestAtOrAfter(s.index, Date(2023, 7, 15)) == None;
    var targets := [Date(2023, 5, 15), Date(2023, 1, 1), Date(2023, 7, 15)];
    var r := ReindexFfill(s, targets).value;
    assert r[0] == Num(200.0) && r[1] == Num(100.0) && r[2] == Undefined;
    assert r == [Num(200.0), Num(100.0), Undefined];
  }

  /**
   * series.reindex(target, method="ffill"): each target date takes the value
   * FfillAt gives it. pandas raises unless the index is monotonic and free
   * of duplicates; that failure is None.
   */
  function ReindexFfill(s: Series, target: seq<Date>): (r: Option<seq<Cell>>)
    requires |s.index| == |s.values|
    ensures r.Some? <==> Ascending(s.index) || Descending(s.index)
    ensures r.Some? ==> |r.value| == |target|
    ensures r.Some? ==> forall i :: 0 <= i < |target| ==> r.value[i] == FfillAt(s, target[i])
  {
    if Ascending(s.index) || Descending(s.index) then
      Some(seq(|target|, i requires 0 <= i < |target| => FfillAt(s, target[i])))
    else None
  }

  /** Elementwise division of two equally long columns. */
  function DivColumns(a: seq<Cell>, b: seq<Cell>): (r: seq<Cell>)
    requires |a| == |b|
    ensures |r| == |a|
    ensures forall i :: 0 <= i < |a| ==> r[i] == Div(a[i], b[i])
  {
    seq(|a|, i requires 0 <= i < |a| => Div(a[i], b[i]))
  }

  /** Elementwise `part / whole * 100`. */
  function PercentColumns(part: seq<Cell>, whole: seq<Cell>): (r: seq<Cell>)
    requires |part| == |whole|
    ensures |r| == |part|
    ensures forall i :: 0 <= i < |part| ==> r[i] == Percent(part[i], whole[i])
  {
    seq(|part|, i requires 0 <= i < |part| => Percent(part[i], whole[i]))
  }

  /**
   * Series subtraction: the operands are aligned on the union of their
   * indexes and subtracted elementwise.
   */
  function SubSeries(a: Series, b: Series): (r: Series)
    requires ValidSeries(a) && ValidSeries(b)
    ensures ValidSeries(r)
    ensures forall d :: At(r, d) == Sub(At(a, d), At(b, d))
  {
    var index := Union(a.index, b.index);
    var r := Series(index, seq(|index|, i requires 0 <= i < |index| => Sub(At(a, index[i]), At(b, index[i]))));
    assert forall d :: d !in index ==> d !in a.index && d !in b.index;
    r
  }

  /** A DataFrame: a date index and named columns of equal length. */
  datatype Frame = Frame(index: seq<Date>, columns: map<string, seq<Cell>>)

  predicate ValidFrame(f: Frame) {
    Distinct(f.index) && forall name :: name in f.columns ==> |f.columns[name]| == |f.index|
  }

  /** `df.loc[d, name]`: the value column `name` holds on the row of date d. */
  function ValueAt(f: Frame, name: string, d: Date): (c: Cell)
    requires ValidFrame(f) && name in f.columns && d in f.index
    ensures forall j :: 0 <= j < |f.index| && f.index[j] == d ==> c == f.columns[name][j]
  {
    f.columns[name][IndexOf(f.index, d).value]
  }

  /** Date d occurs in the index of one of the given Series. */
  predicate InSomeIndex(data: seq<(string, Series)>, d: Date) {
    data != [] && (InSomeIndex(data[..|data| - 1], d) || d in data[|data| - 1].1.index)
  }

  /** The names of a dict's entries. */
  function Names(data: seq<(string, Series)>): (r: set<string>)
    ensures forall k :: 0 <= k < |data| ==> data[k].0 in r
  {
    if data == [] then {}
    else
      var front := data[..|data| - 1];
      assert forall k :: 0 <= k < |front| ==> data[k] == front[k];
      Names(front) + {data[|data| - 1].0}
  }

  /** A name no entry carries is not among the names. */
  lemma {:induction false} NotInNames(data: seq<(string, Series)>, name: string)
    requires forall k :: 0 <= k < |data| ==> data[k].0 != name
    ensures name !in Names(data)
  {
    if data != [] {
      var front := data[..|data| - 1];
      assert forall k :: 0 <= k < |front| ==> front[k] == data[k];
      NotInNames(front, name);
    }
  }

  /** A dict literal: no name occurs twice. */
  predicate UniqueNames(data: seq<(string, Series)>) {
    forall k, l :: 0 <= k < l < |data| ==> data[k].0 != data[l].0
  }

  /** The union of the indexes of the given Series, taken left to right. */
  function IndexUnion(data: seq<(string, Series)>): (r: seq<Date>)
    requires forall k :: 0 <= k < |data| ==> ValidSeries(data[k].1)
    ensures Distinct(r)
    ensures forall d :: d in r <==> InSomeIndex(data, d)
  {
    if data == [] then []
    else if |data| == 1 then
      assert ValidSeries(data[0].1);
      data[0].1.index
    else
      var front := data[..|data| - 1];
      assert ValidSeries(data[|data| - 1].1);
      Union(IndexUnion(front), data[|data| - 1].1.index)
  }

  /** Every Series of a dict aligned onto index. */
  function AlignAll(data: seq<(string, Series)>, index: seq<Date>): (cols: map<string, seq<Cell>>)
    requires forall k :: 0 <= k < |data| ==> ValidSeries(data[k].1)
    requires UniqueNames(data)
    ensures cols.Keys == Names(data)
    ensures forall name :: name in cols ==> |cols[name]| == |index|
    ensures forall k :: 0 <= k < |data| ==> cols[data[k].0] == Align(data[k].1, index)
  {
    if data == [] then map[]
    else
      var front := data[..|data| - 1];
      var last := data[|data| - 1];
      var cols := AlignAll(front, index);
      var r := cols[last.0 := Align(last.1, index)];
      forall k | 0 <= k < |data|
        ensures r[data[k].0] == Align(data[k].1, index)
      {
        if k < |front| {
          assert data[k] == front[k] && front[k].0 != last.0;
        }
      }
      r
  }

  /** pd.DataFrame(data) for a dict of Series. */
  function DataFrame(data: seq<(string, Series)>): (f: Frame)
    requires forall k :: 0 <= k < |data| ==> ValidSeries(data[k].1)
    requires UniqueNames(data)
    ensures ValidFrame(f)
    ensures f.index == IndexUnion(data)
    ensures f.columns == AlignAll(data, f.index)
  {
    Frame(IndexUnion(data), AlignAll(data, IndexUnion(data)))
  }

  /** `df[name] = values`: adds or replaces a column. */
  function WithColumn(f: Frame, name: string, values: seq<Cell>): (r: Frame)
    requires ValidFrame(f) && |values| == |f.index|
    ensures ValidFrame(r) && r.index == f.index
    ensures r.columns.Keys == f.columns.Keys + {name}
    ensures r.columns[name] == values
    ensures forall other :: other in f.columns && other != name ==> r.columns[other] == f.columns[other]
  {
    Frame(f.index, f.columns[name := values])
  }

  /** df.sort_index(ascending=True): rows reordered by ascending date. */
  function SortIndex(f: Frame): (r: Frame)
    requires ValidFrame(f)
    ensures ValidFrame(r)
    ensures r.index == SortDistinct(f.index) && |r.index| == |f.index|
    ensures r.columns.Keys == f.columns.Keys
    ensures forall d :: d in r.index <==> d in f.index
    ensures forall name, i :: name in r.columns && 0 <= i < |r.index| ==>
              r.columns[name][i] == ValueAt(f, name, r.index[i])
  {
    var sorted := SortDistinct(f.index);
    AscendingIsDistinct(sorted);
    var cols := map name | name in f.columns ::
      seq(|sorted|, i requires 0 <= i < |sorted| => ValueAt(f, name, sorted[i]));
    Frame(sorted, cols)
  }

  /** Column `name` of f holds g(d) in the row of every date d. */
  ghost predicate Follows(f: Frame, name: string, g: Date -> Cell) {
    name in f.columns && |f.columns[name]| == |f.index| &&
    forall j :: 0 <= j < |f.index| ==> f.columns[name][j] == g(f.index[j])
  }

  /** Sorting the rows keeps every column attached to its own date. */
  lemma SortIndexFollows(f: Frame, name: string, g: Date -> Cell)
    requires ValidFrame(f) && Follows(f, name, g)
    ensures Follows(SortIndex(f), name, g)
  {
    var r := SortIndex(f);
    forall i | 0 <= i < |r.index|
      ensures r.columns[name][i] == g(r.index[i])
    {
      var j := IndexOf(f.index, r.index[i]).value;
      assert r.columns[name][i] == f.columns[name][j];
    }
  }

  /** A column aligned from a Series holds, in each row, the Series' value on that row's date. */
  lemma AlignFollows(f: Frame, name: string, s: Series, g: Date -> Cell)
    requires ValidSeries(s) && name in f.columns && f.columns[name] == Align(s, f.index)
    requires forall d :: g(d) == At(s, d)
    ensures Follows(f, name, g)
  {
  }

  /**
   * `series / df[name]` assigned as a column of df: the division aligns the
   * Series with the column by date, and the assignment keeps df's rows.
   */
  function DivByColumn(num: Series, f: Frame, name: string): (r: seq<Cell>)
    requires ValidSeries(num) && ValidFrame(f) && name in f.columns
    ensures |r| == |f.index|
    ensures forall i :: 0 <= i < |f.index| ==> r[i] == Div(At(num, f.index[i]), f.columns[name][i])
  {
    seq(|f.index|, i requires 0 <= i < |f.index| => Div(At(num, f.index[i]), f.columns[name][i]))
  }

  /** Adding another column leaves a column's rows as they were. */
  lemma WithColumnFollows(f: Frame, name: string, g: Date -> Cell, other: string, values: seq<Cell>)
    requires ValidFrame(f) && |values| == |f.index| && Follows(f, name, g) && other != name
    ensures Follows(WithColumn(f, other, values), name, g)
  {
  }

  /** A column computed by elementwise division follows the quotient of its operands' rows. */
  lemma DivColumnsFollows(f: Frame, a: string, ga: Date -> Cell, b: string, gb: Date -> Cell,
                          name: string, g: Date -> Cell)
    requires ValidFrame(f) && Follows(f, a, ga) && Follows(f, b, gb)
    requires forall d :: g(d) == Div(ga(d), gb(d))
    ensures Follows(WithColumn(f, name, DivColumns(f.columns[a], f.columns[b])), name, g)
  {
  }

  /** The same for `a / b * 100`. */
  lemma PercentColumnsFollows(f: Frame, a: string, ga: Date -> Cell, b: string, gb: Date -> Cell,
                              name: string, g: Date -> Cell)
    requires ValidFrame(f) && Follows(f, a, ga) && Follows(f, b, gb)
    requires forall d :: g(d) == Percent(ga(d), gb(d))
    ensures Follows(WithColumn(f, name, PercentColumns(f.columns[a], f.columns[b])), name, g)
  {
  }

  /** The same for a Series divided by a column. */
  lemma DivByColumnFollows(f: Frame, num: Series, b: string, gb: Date -> Cell, name: string, g: Date -> Cell)
    requires ValidFrame(f) && ValidSeries(num) && Follows(f, b, gb)
    requires forall d :: g(d) == Div(At(num, d), gb(d))
    ensures Follows(WithColumn(f, name, DivByColumn(num, f, b)), name, g)
  {
  }
}

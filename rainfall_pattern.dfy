/**
 * The rainfall pattern page: the inclusive year-range filter, the yearly
 * totals, their 5-year trailing moving average, the long-term average line
 * and the monthly distribution, for the whole country and for one state.
 */
module RainfallPattern {
  import opened Wrappers
  import opened Stats
  import opened Records

  // ---------------------------------------------------------------
  // Year range
  // ---------------------------------------------------------------

  /** df[(YEAR >= lo) & (YEAR <= hi)]: both ends inclusive, order kept. */
  function InYearRange(rs: seq<Record>, lo: int, hi: int): (out: seq<Record>)
    ensures forall r :: r in out <==> r in rs && lo <= r.year <= hi
  {
    if rs == [] then []
    else
      assert rs == [rs[0]] + rs[1..];
      (if lo <= rs[0].year <= hi then [rs[0]] else []) + InYearRange(rs[1..], lo, hi)
  }

  /** The filter keeps every in-range record as often as it occurs, and nothing else. */
  lemma {:induction false} InYearRangeMultiplicity(rs: seq<Record>, lo: int, hi: int)
    ensures forall r :: multiset(InYearRange(rs, lo, hi))[r] == if lo <= r.year <= hi then multiset(rs)[r] else 0
  {
    if rs != [] {
      InYearRangeMultiplicity(rs[1..], lo, hi);
      assert rs == [rs[0]] + rs[1..];
    }
  }

  /** The year filter keeps record order, like OfStateKeepsOrder for the state mask. */
  lemma {:induction false} InYearRangeKeepsOrder(a: seq<Record>, b: seq<Record>, lo: int, hi: int)
    ensures InYearRange(a + b, lo, hi) == InYearRange(a, lo, hi) + InYearRange(b, lo, hi)
  {
    if a == [] {
      assert a + b == b;
    } else {
      assert (a + b)[0] == a[0];
      assert (a + b)[1..] == a[1..] + b;
      InYearRangeKeepsOrder(a[1..], b, lo, hi);
    }
  }

  /** df["YEAR"].min(): the slider's lower end. */
  function MinYear(rs: seq<Record>): (y: int)
    requires rs != []
    ensures exists r :: r in rs && r.year == y
    ensures forall r :: r in rs ==> y <= r.year
  {
    if |rs| == 1 then rs[0].year
    else
      assert forall r :: r in rs <==> r == rs[0] || r in rs[1..];
      var rest := MinYear(rs[1..]);
      if rs[0].year <= rest then rs[0].year else rest
  }

  /** df["YEAR"].max(): the slider's upper end. */
  function MaxYear(rs: seq<Record>): (y: int)
    requires rs != []
    ensures exists r :: r in rs && r.year == y
    ensures forall r :: r in rs ==> r.year <= y
  {
    if |rs| == 1 then rs[0].year
    else
      assert forall r :: r in rs <==> r == rs[0] || r in rs[1..];
      var rest := MaxYear(rs[1..]);
      if rs[0].year >= rest then rs[0].year else rest
  }

  lemma {:induction false} InYearRangeKeepsAllInside(rs: seq<Record>, lo: int, hi: int)
    requires forall r :: r in rs ==> lo <= r.year <= hi
    ensures InYearRange(rs, lo, hi) == rs
  {
    if rs != [] {
      assert rs[0] in rs;
      assert forall r :: r in rs[1..] ==> r in rs;
      InYearRangeKeepsAllInside(rs[1..], lo, hi);
      assert InYearRange(rs, lo, hi) == [rs[0]] + InYearRange(rs[1..], lo, hi);
      assert rs == [rs[0]] + rs[1..];
    }
  }

  /** The slider's default (min year, max year) keeps every record. */
  lemma DefaultRangeKeepsAll(rs: seq<Record>)
    requires rs != []
    ensures InYearRange(rs, MinYear(rs), MaxYear(rs)) == rs
  {
    InYearRangeKeepsAllInside(rs, MinYear(rs), MaxYear(rs));
  }

  // ---------------------------------------------------------------
  // Yearly totals, moving average, long-term average
  // ---------------------------------------------------------------

  /** One row of groupby("YEAR")["TOTAL_ANNUAL"].sum(). */
  datatype YearTotal = YearTotal(year: int, total: real)

  /** The yearly rows for the listed years, in that order. */
  function TotalsFor(rs: seq<Record>, ys: seq<int>): (rows: seq<YearTotal>)
    ensures |rows| == |ys|
    ensures forall i :: 0 <= i < |ys| ==> rows[i].year == ys[i]
    ensures forall i :: 0 <= i < |ys| ==> rows[i].total == Sum(Column(rs, Year, ys[i], TotalAnnual))
  {
    if ys == [] then [] else [YearTotal(ys[0], GroupSum(rs, Year, ys[0], TotalAnnual))] + TotalsFor(rs, ys[1..])
  }

  /**
   * groupby("YEAR")["TOTAL_ANNUAL"].sum(): one row per year present,
   * years ascending, each the sum of that year's annual totals.
   */
  function YearlyTotals(rs: seq<Record>): (rows: seq<YearTotal>)
    ensures forall i, j :: 0 <= i < j < |rows| ==> rows[i].year < rows[j].year
    ensures forall y :: y in YearsOf(rows) <==> exists r :: r in rs && r.year == y
    ensures forall i :: 0 <= i < |rows| ==> rows[i].total == Sum(Column(rs, Year, rows[i].year, TotalAnnual))
  {
    var ys := DistinctYears(rs);
    var rows := TotalsFor(rs, ys);
    assert YearsOf(rows) == ys;
    rows
  }

  /** The x values of the yearly series. */
  function YearsOf(rows: seq<YearTotal>): (ys: seq<int>)
    ensures |ys| == |rows|
    ensures forall i :: 0 <= i < |rows| ==> ys[i] == rows[i].year
  {
    if rows == [] then [] else [rows[0].year] + YearsOf(rows[1..])
  }

  /** The y values of the yearly series. */
  function Totals(rows: seq<YearTotal>): (ts: seq<real>)
    ensures |ts| == |rows|
    ensures forall i :: 0 <= i < |rows| ==> ts[i] == rows[i].total
  {
    if rows == [] then [] else [rows[0].total] + Totals(rows[1..])
  }

  lemma {:induction false} TotalsForSum(rs: seq<Record>, ys: seq<int>)
    ensures Sum(Totals(TotalsFor(rs, ys))) == SumOver(rs, Year, ys, TotalAnnual)
  {
    if ys != [] {
      TotalsForSum(rs, ys[1..]);
      assert TotalsFor(rs, ys)[1..] == TotalsFor(rs, ys[1..]);
      assert Totals(TotalsFor(rs, ys))[1..] == Totals(TotalsFor(rs, ys[1..]));
    }
  }

  /**
   * Grouping by year loses and duplicates nothing: the yearly totals add up
   * to the sum of every selected record's annual total.
   */
  lemma YearlyTotalsConserveRainfall(rs: seq<Record>)
    ensures Sum(Totals(YearlyTotals(rs))) == Sum(Values(rs, TotalAnnual))
  {
    var ys := DistinctYears(rs);
    IncreasingNoDuplicates(ys);
    TotalsForSum(rs, ys);
    SumPartition(rs, Year, ys, TotalAnnual);
  }

  /** The rolling window ending at i: at most 5 values, fewer at the start (min_periods=1). */
  function Window5(v: seq<real>, i: nat): (w: seq<real>)
    requires i < |v|
    ensures w != [] && |w| <= 5 && w[|w| - 1] == v[i]
  {
    if i >= 4 then v[i - 4..i + 1] else v[..i + 1]
  }

  /** rolling(5, min_periods=1).mean(): the mean of each trailing window. */
  function MovingAverage5(v: seq<real>): (ma: seq<real>)
    ensures |ma| == |v|
  {
    seq(|v|, i requires 0 <= i < |v| => Mean(Window5(v, i)))
  }

  /**
   * The moving average has an entry for every year: the first is the
   * first total itself, and every entry lies between the smallest and
   * largest values of its window.
   */
  lemma MovingAverage5Bounds(v: seq<real>, i: nat)
    requires i < |v|
    ensures i == 0 ==> MovingAverage5(v)[0] == v[0]
    ensures Min(Window5(v, i)) <= MovingAverage5(v)[i] <= Max(Window5(v, i))
  {
    MeanBetweenMinMax(Window5(v, i));
    if i == 0 {
      assert Window5(v, 0) == [v[0]];
    }
  }

  /** Once five years are available, MA5 is the plain mean of the last five. */
  lemma MovingAverage5FullWindow(v: seq<real>, i: nat)
    requires 4 <= i < |v|
    ensures MovingAverage5(v)[i] == (v[i - 4] + v[i - 3] + v[i - 2] + v[i - 1] + v[i]) / 5.0
  {
    var w := Window5(v, i);
    assert w[1..][1..][1..][1..][1..] == [];
    assert Sum(w[1..][1..][1..][1..]) == v[i];
    assert Sum(w[1..][1..][1..]) == v[i - 1] + v[i];
    assert Sum(w[1..][1..]) == v[i - 2] + v[i - 1] + v[i];
    assert Sum(w[1..]) == v[i - 3] + v[i - 2] + v[i - 1] + v[i];
    assert Sum(w) == v[i - 4] + v[i - 3] + v[i - 2] + v[i - 1] + v[i];
  }

  /** Before that, MA5 averages all the values so far. */
  lemma MovingAverage5PartialWindow(v: seq<real>, i: nat)
    requires i < 4 && i < |v|
    ensures MovingAverage5(v)[i] == Sum(v[..i + 1]) / (i + 1) as real
  {
  }

  /**
   * The dotted "Long-Term Average" line: the mean of the yearly totals. A
   * range with no records has no mean (pandas gives NaN), modelled as None.
   */
  function LongTermAverage(rows: seq<YearTotal>): (avg: Option<real>)
    ensures avg.None? <==> rows == []
    ensures avg.Some? ==> avg.value == Sum(Totals(rows)) / |rows| as real
    ensures avg.Some? ==> Min(Totals(rows)) <= avg.value <= Max(Totals(rows))
  {
    if rows == [] then None
    else
      var ts := Totals(rows);
      var m := Mean(ts);
      MeanBetweenMinMax(ts);
      Some(m)
  }

  // ---------------------------------------------------------------
  // The two tabs
  // ---------------------------------------------------------------

  /** What one tab plots: the yearly series, its MA5, and the twelve month totals. */
  datatype PatternView = PatternView(yearly: seq<YearTotal>, ma5: seq<real>, monthly: Months)

  /** The overall tab: everything is computed from the year-filtered records. */
  function OverallView(rs: seq<Record>, lo: int, hi: int): (view: PatternView)
    ensures |view.ma5| == |view.yearly|
  {
    var sel := InYearRange(rs, lo, hi);
    var yearly := YearlyTotals(sel);
    PatternView(yearly, MovingAverage5(Totals(yearly)), MonthlyTotals(sel))
  }

  /**
   * The state tab: the yearly series and MA5 use the state's records in the
   * state year range, but the monthly chart uses all of the state's records.
   */
  function StateView(rs: seq<Record>, state: string, lo: int, hi: int): (view: PatternView)
    ensures |view.ma5| == |view.yearly|
  {
    var dfState := OfState(rs, state);
    var yearly := YearlyTotals(InYearRange(dfState, lo, hi));
    PatternView(yearly, MovingAverage5(Totals(yearly)), MonthlyTotals(dfState))
  }

  /** Every year on a yearly series built from a range-filtered selection lies in the range. */
  lemma YearlyTotalsWithinRange(rs: seq<Record>, lo: int, hi: int)
    ensures forall i :: 0 <= i < |YearlyTotals(InYearRange(rs, lo, hi))| ==>
              lo <= YearlyTotals(InYearRange(rs, lo, hi))[i].year <= hi
  {
    var rows := YearlyTotals(InYearRange(rs, lo, hi));
    forall i | 0 <= i < |rows|
      ensures lo <= rows[i].year <= hi
    {
      assert rows[i].year in YearsOf(rows);
    }
  }

  /**
   * The overall tab is consistent: its yearly series and its monthly
   * distribution both account for exactly the rainfall of the records in
   * the selected range, and every plotted year lies in that range.
   */
  lemma OverallViewAccountsForRange(rs: seq<Record>, lo: int, hi: int)
    ensures var view := OverallView(rs, lo, hi);
            Sum(Totals(view.yearly)) == Sum(view.monthly) == Sum(Values(InYearRange(rs, lo, hi), TotalAnnual)) &&
            forall i :: 0 <= i < |view.yearly| ==> lo <= view.yearly[i].year <= hi
  {
    var sel := InYearRange(rs, lo, hi);
    var view := OverallView(rs, lo, hi);
    assert view.yearly == YearlyTotals(sel) && view.monthly == MonthlyTotals(sel);
    YearlyTotalsConserveRainfall(sel);
    MonthlyTotalsConserveRainfall(sel);
    YearlyTotalsWithinRange(rs, lo, hi);
  }

  /**
   * The state tab is not: its yearly series covers the state's records in
   * the range, while its monthly distribution adds up to all of the state's
   * rainfall, whatever range is selected.
   */
  lemma StateViewMonthlyIgnoresRange(rs: seq<Record>, state: string, lo: int, hi: int)
    ensures var view := StateView(rs, state, lo, hi);
            Sum(Totals(view.yearly)) == Sum(Values(InYearRange(OfState(rs, state), lo, hi), TotalAnnual)) &&
            Sum(view.monthly) == Sum(Values(OfState(rs, state), TotalAnnual)) &&
            forall i :: 0 <= i < |view.yearly| ==> lo <= view.yearly[i].year <= hi
  {
    var dfState := OfState(rs, state);
    var view := StateView(rs, state, lo, hi);
    assert view.yearly == YearlyTotals(InYearRange(dfState, lo, hi)) && view.monthly == MonthlyTotals(dfState);
    YearlyTotalsConserveRainfall(InYearRange(dfState, lo, hi));
    MonthlyTotalsConserveRainfall(dfState);
    YearlyTotalsWithinRange(dfState, lo, hi);
  }
}

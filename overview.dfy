/**
 * The overview page: the headline figures (flood total, average annual
 * rainfall, most flooded state, wettest district), the flood-count
 * rankings, the per-year statistics and the per-state monthly totals in
 * long form, for the whole country and for one state.
 */
module Overview {
  import opened Wrappers
  import opened Stats
  import opened Records

  // ---------------------------------------------------------------
  // Headline figures
  // ---------------------------------------------------------------

  /**
   * round(df["TOTAL_ANNUAL"].mean(), 1). An empty selection has no mean
   * (pandas gives NaN), modelled as None.
   */
  function AverageRainfall(rs: seq<Record>): (avg: Option<real>)
    ensures avg.None? <==> rs == []
    ensures avg.Some? ==> Mean(Values(rs, TotalAnnual)) - 0.05 <= avg.value <= Mean(Values(rs, TotalAnnual)) + 0.05
    ensures avg.Some? ==> Min(Values(rs, TotalAnnual)) - 0.05 <= avg.value <= Max(Values(rs, TotalAnnual)) + 0.05
  {
    if rs == [] then None
    else
      MeanBetweenMinMax(Values(rs, TotalAnnual));
      Some(Round1(Mean(Values(rs, TotalAnnual))))
  }

  /** A key has a positive flood count exactly when some flooded record carries it. */
  lemma {:induction false} FloodsOfPositive(rs: seq<Record>, key: Record -> string, k: string)
    ensures FloodsOf(rs, key, k) > 0 <==> exists r :: r in rs && r.flood == 1 && key(r) == k
  {
    if rs != [] {
      FloodsOfPositive(rs[1..], key, k);
      assert forall r :: r in rs <==> r == rs[0] || r in rs[1..];
    }
  }

  // ---------------------------------------------------------------
  // Flood-count rankings (groupby(key).size() on the flooded rows,
  // sorted by count, largest first)
  // ---------------------------------------------------------------

  /** One row of a ranking: a state or district and its number of flooded records. */
  datatype KeyCount = KeyCount(key: string, count: nat)

  predicate NonIncreasing(xs: seq<KeyCount>)
  {
    forall i, j :: 0 <= i < j < |xs| ==> xs[i].count >= xs[j].count
  }

  function KeysOf(xs: seq<KeyCount>): (ks: seq<string>)
    ensures |ks| == |xs|
    ensures forall i :: 0 <= i < |xs| ==> ks[i] == xs[i].key
  {
    seq(|xs|, i requires 0 <= i < |xs| => xs[i].key)
  }

  /** The counts of a ranking, added up. */
  function CountSum(xs: seq<KeyCount>): nat
  {
    if xs == [] then 0 else xs[0].count + CountSum(xs[1..])
  }

  /** Inserts one row into a ranking in front of the first row with a count no larger. */
  function InsertByCount(x: KeyCount, xs: seq<KeyCount>): seq<KeyCount>
  {
    if xs == [] || x.count >= xs[0].count then [x] + xs
    else [xs[0]] + InsertByCount(x, xs[1..])
  }

  /** sort_values(count, ascending=False) as an insertion sort. */
  function SortByCount(xs: seq<KeyCount>): seq<KeyCount>
  {
    if xs == [] then [] else InsertByCount(xs[0], SortByCount(xs[1..]))
  }

  lemma {:induction false} InsertByCountPermutes(x: KeyCount, xs: seq<KeyCount>)
    ensures multiset(InsertByCount(x, xs)) == multiset(xs) + multiset{x}
  {
    if xs != [] && x.count < xs[0].count {
      InsertByCountPermutes(x, xs[1..]);
      assert xs == [xs[0]] + xs[1..];
    }
  }

  lemma NonIncreasingTail(xs: seq<KeyCount>)
    requires xs != [] && NonIncreasing(xs)
    ensures NonIncreasing(xs[1..])
  {
    forall i, j | 0 <= i < j < |xs| - 1
      ensures xs[1..][i].count >= xs[1..][j].count
    {
      assert xs[1..][i] == xs[i + 1] && xs[1..][j] == xs[j + 1];
    }
  }

  /** A row no smaller than every row of a sorted ranking can go in front of it. */
  lemma ConsNonIncreasing(h: KeyCount, rest: seq<KeyCount>)
    requires NonIncreasing(rest)
    requires forall y :: y in rest ==> y.count <= h.count
    ensures NonIncreasing([h] + rest)
  {
    var ys := [h] + rest;
    forall i, j | 0 <= i < j < |ys|
      ensures ys[i].count >= ys[j].count
    {
      assert ys[j] == rest[j - 1];
      if i > 0 {
        assert ys[i] == rest[i - 1];
      } else {
        assert rest[j - 1] in rest;
      }
    }
  }

  /** Inserting into a ranking sorted by count keeps it sorted. */
  lemma {:induction false} InsertByCountSorted(x: KeyCount, xs: seq<KeyCount>)
    requires NonIncreasing(xs)
    ensures NonIncreasing(InsertByCount(x, xs))
  {
    if xs == [] || x.count >= xs[0].count {
      if xs != [] {
        assert forall y :: y in xs ==> y.count <= xs[0].count;
      }
      ConsNonIncreasing(x, xs);
    } else {
      NonIncreasingTail(xs);
      InsertByCountSorted(x, xs[1..]);
      var rest := InsertByCount(x, xs[1..]);
      InsertByCountPermutes(x, xs[1..]);
      forall y | y in rest
        ensures y.count <= xs[0].count
      {
        assert y in multiset(rest);
        if y != x {
          assert y in xs[1..];
        }
      }
      ConsNonIncreasing(xs[0], rest);
    }
  }

  /** The sorted ranking is ordered by count, largest first. */
  lemma {:induction false} SortByCountSorted(xs: seq<KeyCount>)
    ensures NonIncreasing(SortByCount(xs))
  {
    if xs != [] {
      SortByCountSorted(xs[1..]);
      InsertByCountSorted(xs[0], SortByCount(xs[1..]));
    }
  }

  /** The sorted ranking holds the same rows as its input. */
  lemma {:induction false} SortByCountPermutes(xs: seq<KeyCount>)
    ensures multiset(SortByCount(xs)) == multiset(xs)
  {
    if xs != [] {
      SortByCountPermutes(xs[1..]);
      InsertByCountPermutes(xs[0], SortByCount(xs[1..]));
      assert xs == [xs[0]] + xs[1..];
    }
  }

  lemma KeysOfCons(h: KeyCount, t: seq<KeyCount>)
    ensures multiset(KeysOf([h] + t)) == multiset{h.key} + multiset(KeysOf(t))
  {
    assert KeysOf([h] + t) == [h.key] + KeysOf(t);
  }

  lemma {:induction false} InsertByCountKeys(x: KeyCount, xs: seq<KeyCount>)
    ensures multiset(KeysOf(InsertByCount(x, xs))) == multiset(KeysOf(xs)) + multiset{x.key}
  {
    if xs == [] || x.count >= xs[0].count {
      KeysOfCons(x, xs);
    } else {
      InsertByCountKeys(x, xs[1..]);
      KeysOfCons(xs[0], InsertByCount(x, xs[1..]));
      assert xs == [xs[0]] + xs[1..];
      KeysOfCons(xs[0], xs[1..]);
    }
  }

  lemma {:induction false} InsertByCountSum(x: KeyCount, xs: seq<KeyCount>)
    ensures CountSum(InsertByCount(x, xs)) == x.count + CountSum(xs)
  {
    if xs == [] || x.count >= xs[0].count {
      assert ([x] + xs)[1..] == xs;
    } else {
      InsertByCountSum(x, xs[1..]);
      assert ([xs[0]] + InsertByCount(x, xs[1..]))[1..] == InsertByCount(x, xs[1..]);
    }
  }

  /** Sorting keeps the ranking's keys (with their multiplicities) and its total. */
  lemma {:induction false} SortByCountKeysAndSum(xs: seq<KeyCount>)
    ensures multiset(KeysOf(SortByCount(xs))) == multiset(KeysOf(xs))
    ensures CountSum(SortByCount(xs)) == CountSum(xs)
  {
    if xs != [] {
      SortByCountKeysAndSum(xs[1..]);
      InsertByCountKeys(xs[0], SortByCount(xs[1..]));
      InsertByCountSum(xs[0], SortByCount(xs[1..]));
      assert xs == [xs[0]] + xs[1..];
      KeysOfCons(xs[0], xs[1..]);
    }
  }

  /** The unsorted ranking rows for the listed keys. */
  function CountsFor(rs: seq<Record>, key: Record -> string, ks: seq<string>): (xs: seq<KeyCount>)
    ensures KeysOf(xs) == ks
    ensures forall x :: x in xs ==> x.key in ks && x.count == FloodsOf(rs, key, x.key)
    ensures CountSum(xs) == FloodsOver(rs, key, ks)
  {
    if ks == [] then []
    else
      var rest := CountsFor(rs, key, ks[1..]);
      assert KeysOf([KeyCount(ks[0], FloodsOf(rs, key, ks[0]))] + rest) == [ks[0]] + KeysOf(rest);
      [KeyCount(ks[0], FloodsOf(rs, key, ks[0]))] + rest
  }

  /**
   * flood_by_state / district_floods: the flooded records grouped by key and
   * counted, largest count first.
   */
  function FloodRanking(rs: seq<Record>, key: Record -> string): (ranking: seq<KeyCount>)
    ensures NonIncreasing(ranking)
  {
    SortByCountSorted(CountsFor(rs, key, DistinctKeys(Flooded(rs), key)));
    SortByCount(CountsFor(rs, key, DistinctKeys(Flooded(rs), key)))
  }

  /**
   * The ranking has one row per key that has at least one flooded record,
   * and no other rows.
   */
  lemma FloodRankingKeys(rs: seq<Record>, key: Record -> string)
    ensures NoDuplicates(KeysOf(FloodRanking(rs, key)))
    ensures forall k :: k in KeysOf(FloodRanking(rs, key)) <==> exists r :: r in rs && r.flood == 1 && key(r) == k
  {
    var ks := DistinctKeys(Flooded(rs), key);
    SortByCountKeysAndSum(CountsFor(rs, key, ks));
    var keys := KeysOf(FloodRanking(rs, key));
    assert multiset(keys) == multiset(ks);
    forall k
      ensures k in keys <==> k in ks
    {
      assert k in keys <==> k in multiset(keys);
    }
  }

  /** Each row counts exactly that key's flooded records, and at least one. */
  lemma FloodRankingCounts(rs: seq<Record>, key: Record -> string)
    ensures forall x :: x in FloodRanking(rs, key) ==> x.count == FloodsOf(rs, key, x.key) && x.count >= 1
  {
    var ks := DistinctKeys(Flooded(rs), key);
    SortByCountPermutes(CountsFor(rs, key, ks));
    forall x | x in FloodRanking(rs, key)
      ensures x.count == FloodsOf(rs, key, x.key) && x.count >= 1
    {
      assert x in multiset(FloodRanking(rs, key));
      assert x in CountsFor(rs, key, ks);
      var r :| r in Flooded(rs) && key(r) == x.key;
      FloodsOfPositive(rs, key, x.key);
    }
  }

  /** The ranking's counts add up to the flood total: every flood is counted once. */
  lemma FloodRankingSumsToTotal(rs: seq<Record>, key: Record -> string)
    ensures CountSum(FloodRanking(rs, key)) == TotalFloods(rs)
  {
    var ks := DistinctKeys(Flooded(rs), key);
    SortByCountKeysAndSum(CountsFor(rs, key, ks));
    assert forall r :: r in rs && r.flood == 1 ==> r in Flooded(rs);
    FloodsPartition(rs, key, ks);
  }

  /**
   * value_counts().idxmax() over the flooded rows: the key with the most
   * flooded records. With no flooded record at all pandas raises, modelled
   * as Err.
   */
  function MostFlooded(rs: seq<Record>, key: Record -> string): (res: Result<string, string>)
    ensures res.Err? <==> forall r :: r in rs ==> r.flood == 0
    ensures res.Ok? ==> (FloodsOf(rs, key, res.value) >= 1 &&
                         forall k :: FloodsOf(rs, key, k) <= FloodsOf(rs, key, res.value))
  {
    var ranking := FloodRanking(rs, key);
    RankingEmptyIffNoFloods(rs, key);
    if ranking == [] then Err("attempt to get argmax of an empty sequence")
    else
      RankingHeadIsMax(rs, key);
      Ok(ranking[0].key)
  }

  /** The ranking is empty exactly when nothing flooded. */
  lemma RankingEmptyIffNoFloods(rs: seq<Record>, key: Record -> string)
    ensures FloodRanking(rs, key) == [] <==> forall r :: r in rs ==> r.flood == 0
  {
    var keys := KeysOf(FloodRanking(rs, key));
    FloodRankingKeys(rs, key);
    if keys == [] {
      forall r | r in rs
        ensures r.flood == 0
      {
        assert key(r) !in keys;
      }
    } else {
      assert keys[0] in keys;
    }
  }

  /** The first row of a non-empty ranking holds the largest flood count of any key. */
  lemma RankingHeadIsMax(rs: seq<Record>, key: Record -> string)
    requires FloodRanking(rs, key) != []
    ensures FloodsOf(rs, key, FloodRanking(rs, key)[0].key) >= 1
    ensures forall k :: FloodsOf(rs, key, k) <= FloodsOf(rs, key, FloodRanking(rs, key)[0].key)
  {
    var ranking := FloodRanking(rs, key);
    var keys := KeysOf(ranking);
    FloodRankingKeys(rs, key);
    FloodRankingCounts(rs, key);
    assert ranking[0] in ranking;
    forall k
      ensures FloodsOf(rs, key, k) <= FloodsOf(rs, key, ranking[0].key)
    {
      FloodsOfPositive(rs, key, k);
      if FloodsOf(rs, key, k) > 0 {
        assert k in keys;
        var j :| 0 <= j < |ranking| && keys[j] == k;
        assert ranking[j] in ranking;
      }
    }
  }

  /** The first of the listed districts with the highest mean annual total. */
  function ArgMaxMean(rs: seq<Record>, ks: seq<string>): (k: string)
    requires ks != []
    ensures k in ks
    ensures forall k' :: k' in ks ==> GroupMean(rs, DistrictName, k', TotalAnnual) <= GroupMean(rs, DistrictName, k, TotalAnnual)
  {
    if |ks| == 1 then ks[0]
    else
      var best := ArgMaxMean(rs, ks[1..]);
      assert forall k' :: k' in ks <==> k' == ks[0] || k' in ks[1..];
      if GroupMean(rs, DistrictName, ks[0], TotalAnnual) >= GroupMean(rs, DistrictName, best, TotalAnnual) then ks[0]
      else best
  }

  /**
   * groupby("DISTRICT_NAME")["TOTAL_ANNUAL"].mean().idxmax(): a district
   * whose mean annual total is at least every other district's. An empty
   * record set makes pandas raise, modelled as Err.
   */
  function WettestDistrict(rs: seq<Record>): (res: Result<string, string>)
    ensures res.Err? <==> rs == []
    ensures res.Ok? ==> (exists r :: r in rs && r.district == res.value)
    ensures res.Ok? ==> forall r :: r in rs ==>
              GroupMean(rs, DistrictName, r.district, TotalAnnual) <= GroupMean(rs, DistrictName, res.value, TotalAnnual)
  {
    var ks := DistinctKeys(rs, DistrictName);
    if rs == [] then Err("attempt to get argmax of an empty sequence")
    else
      assert rs[0] in rs && DistrictName(rs[0]) == rs[0].district;
      Ok(ArgMaxMean(rs, ks))
  }

  // ---------------------------------------------------------------
  // Per-year statistics
  // ---------------------------------------------------------------

  /** One row of the yearly table: Avg_Rainfall and Flood_Events for a year. */
  datatype YearStat = YearStat(year: int, avgRainfall: real, floodEvents: nat)

  /**
   * groupby("YEAR").agg(Avg_Rainfall = mean TOTAL_ANNUAL, Flood_Events =
   * sum FLOOD): years ascending, one row per year present.
   */
  function YearlyStats(rs: seq<Record>): (rows: seq<YearStat>)
    ensures |rows| == |DistinctYears(rs)|
    ensures forall i :: 0 <= i < |rows| ==>
              rows[i].year == DistinctYears(rs)[i] &&
              rows[i].avgRainfall == YearlyMeans(rs)[i].mean &&
              rows[i].floodEvents == FloodsOf(rs, Year, rows[i].year)
  {
    var means := YearlyMeans(rs);
    seq(|means|, i requires 0 <= i < |means| => YearStat(means[i].year, means[i].mean, FloodsOf(rs, Year, means[i].year)))
  }

  /** Flood_Events added up over the rows. */
  function EventSum(rows: seq<YearStat>): nat
  {
    if rows == [] then 0 else rows[0].floodEvents + EventSum(rows[1..])
  }

  lemma {:induction false} EventSumOver(rs: seq<Record>, rows: seq<YearStat>, ys: seq<int>)
    requires |rows| == |ys|
    requires forall i :: 0 <= i < |ys| ==> rows[i].floodEvents == FloodsOf(rs, Year, ys[i])
    ensures EventSum(rows) == FloodsOver(rs, Year, ys)
  {
    if ys != [] {
      EventSumOver(rs, rows[1..], ys[1..]);
    }
  }

  /** The yearly flood events add up to the flood total. */
  lemma YearlyFloodEventsSumToTotal(rs: seq<Record>)
    ensures EventSum(YearlyStats(rs)) == TotalFloods(rs)
  {
    var ys := DistinctYears(rs);
    IncreasingNoDuplicates(ys);
    EventSumOver(rs, YearlyStats(rs), ys);
    FloodsPartition(rs, Year, ys);
  }

  // ---------------------------------------------------------------
  // Per-state monthly totals and their long form
  // ---------------------------------------------------------------

  /** One row of groupby("STATE_NAME")[monthly_cols].sum(). */
  datatype StateMonths = StateMonths(state: string, totals: Months)

  function StatesOf(rows: seq<StateMonths>): (ss: seq<string>)
    ensures |ss| == |rows|
    ensures forall i :: 0 <= i < |rows| ==> ss[i] == rows[i].state
  {
    if rows == [] then [] else [rows[0].state] + StatesOf(rows[1..])
  }

  /** One row per state present, holding the twelve month sums over that state's records. */
  function StateMonthlyTotals(rs: seq<Record>): (rows: seq<StateMonths>)
    ensures NoDuplicates(StatesOf(rows))
    ensures forall s :: s in StatesOf(rows) <==> exists r :: r in rs && r.state == s
    ensures forall i :: 0 <= i < |rows| ==> rows[i].totals == MonthlyTotals(OfState(rs, rows[i].state))
  {
    var ss := DistinctKeys(rs, StateName);
    var rows := seq(|ss|, i requires 0 <= i < |ss| => StateMonths(ss[i], MonthlyTotals(OfState(rs, ss[i]))));
    assert StatesOf(rows) == ss;
    rows
  }

  /** One row of the melted table: a state, a month (0 = JAN) and its total. */
  datatype LongRow = LongRow(state: string, month: nat, rainfall: real)

  /** The melted rows of one month column, one per state, in state order. */
  function MeltMonth(rows: seq<StateMonths>, m: nat): (long: seq<LongRow>)
    requires m < 12
    ensures |long| == |rows|
    ensures forall i :: 0 <= i < |rows| ==> long[i] == LongRow(rows[i].state, m, rows[i].totals[m])
  {
    seq(|rows|, i requires 0 <= i < |rows| => LongRow(rows[i].state, m, rows[i].totals[m]))
  }

  /** The month columns from m on, stacked column after column. */
  function MeltFrom(rows: seq<StateMonths>, m: nat): (long: seq<LongRow>)
    requires m <= 12
    decreases 12 - m
  {
    if m == 12 then [] else MeltMonth(rows, m) + MeltFrom(rows, m + 1)
  }

  /** melt(id_vars="STATE_NAME"): every (state, month) pair as its own row. */
  function Melt(rows: seq<StateMonths>): (long: seq<LongRow>)
    ensures |long| == 12 * |rows|
  {
    MeltFromLength(rows, 12);
    MeltFrom(rows, 0)
  }

  lemma {:induction false} MeltFromLength(rows: seq<StateMonths>, k: nat)
    requires k <= 12
    ensures |MeltFrom(rows, 12 - k)| == k * |rows|
  {
    if k > 0 {
      MeltFromLength(rows, k - 1);
      assert MeltFrom(rows, 12 - k) == MeltMonth(rows, 12 - k) + MeltFrom(rows, 12 - (k - 1));
      MulPred(k, |rows|);
    }
  }

  /** The start of the d-th block of n rows, written as repeated addition. */
  function BlockStart(d: nat, n: nat): (start: nat)
    ensures start == d * n
  {
    if d == 0 then 0 else MulPred(d, n); n + BlockStart(d - 1, n)
  }

  /**
   * The month columns are stacked in column order: the block for month m
   * starts m - m0 blocks in, and holds state i's total for m at offset i.
   */
  lemma {:induction false} MeltFromAt(rows: seq<StateMonths>, m0: nat, m: nat, i: nat)
    requires m0 <= m < 12 && i < |rows|
    ensures BlockStart(m - m0, |rows|) + i < |MeltFrom(rows, m0)|
    ensures MeltFrom(rows, m0)[BlockStart(m - m0, |rows|) + i] == LongRow(rows[i].state, m, rows[i].totals[m])
    decreases 12 - m0
  {
    var head, tail := MeltMonth(rows, m0), MeltFrom(rows, m0 + 1);
    assert MeltFrom(rows, m0) == head + tail;
    if m == m0 {
      assert (head + tail)[i] == head[i];
    } else {
      MeltFromAt(rows, m0 + 1, m, i);
      var j := BlockStart(m - (m0 + 1), |rows|) + i;
      assert BlockStart(m - m0, |rows|) + i == |head| + j;
      assert (head + tail)[|head| + j] == tail[j];
    }
  }

  /**
   * melt stacks the twelve month columns in order: row m * |rows| + i of the
   * long form is state i's total for month m.
   */
  lemma MeltAt(rows: seq<StateMonths>, m: nat, i: nat)
    requires m < 12 && i < |rows|
    ensures m * |rows| + i < |Melt(rows)|
    ensures Melt(rows)[m * |rows| + i] == LongRow(rows[i].state, m, rows[i].totals[m])
  {
    MeltFromAt(rows, 0, m, i);
  }

  /** Every melted row carries a month from m on and that month's total of one of the states. */
  lemma {:induction false} MeltFromProvenance(rows: seq<StateMonths>, m: nat, j: nat)
    requires m <= 12 && j < |MeltFrom(rows, m)|
    ensures var row := MeltFrom(rows, m)[j];
            m <= row.month < 12 &&
            exists i :: 0 <= i < |rows| && row.state == rows[i].state && row.rainfall == rows[i].totals[row.month]
    decreases 12 - m
  {
    var head, tail := MeltMonth(rows, m), MeltFrom(rows, m + 1);
    assert MeltFrom(rows, m) == head + tail;
    if j < |head| {
      assert (head + tail)[j] == head[j];
    } else {
      assert (head + tail)[j] == tail[j - |head|];
      MeltFromProvenance(rows, m + 1, j - |head|);
    }
  }

  /** Every row of the long table is one state's total for one of the twelve months. */
  lemma MeltProvenance(rows: seq<StateMonths>, j: nat)
    requires j < |Melt(rows)|
    ensures Melt(rows)[j].month < 12
    ensures exists i :: 0 <= i < |rows| && Melt(rows)[j].state == rows[i].state &&
                        Melt(rows)[j].rainfall == rows[i].totals[Melt(rows)[j].month]
  {
    MeltFromProvenance(rows, 0, j);
  }

  /** Number of rows of the long table that belong to state s. */
  function RowsOf(long: seq<LongRow>, s: string): nat
  {
    if long == [] then 0 else (if long[0].state == s then 1 else 0) + RowsOf(long[1..], s)
  }

  lemma {:induction false} RowsOfAppend(a: seq<LongRow>, b: seq<LongRow>, s: string)
    ensures RowsOf(a + b, s) == RowsOf(a, s) + RowsOf(b, s)
  {
    if a == [] {
      assert a + b == b;
    } else {
      assert (a + b)[0] == a[0] && (a + b)[1..] == a[1..] + b;
      RowsOfAppend(a[1..], b, s);
    }
  }

  lemma {:induction false} MeltMonthRows(rows: seq<StateMonths>, m: nat, s: string)
    requires m < 12
    ensures RowsOf(MeltMonth(rows, m), s) == multiset(StatesOf(rows))[s]
  {
    if rows != [] {
      var long := MeltMonth(rows, m);
      MeltMonthRows(rows[1..], m, s);
      assert long[1..] == MeltMonth(rows[1..], m);
      assert RowsOf(long, s) == (if rows[0].state == s then 1 else 0) + RowsOf(long[1..], s);
      assert StatesOf(rows) == [rows[0].state] + StatesOf(rows[1..]);
    }
  }

  /** The last k month columns hold k rows for each occurrence of s among the states. */
  lemma {:induction false} MeltFromRows(rows: seq<StateMonths>, k: nat, s: string)
    requires k <= 12
    ensures RowsOf(MeltFrom(rows, 12 - k), s) == k * multiset(StatesOf(rows))[s]
  {
    var c := multiset(StatesOf(rows))[s];
    if k > 0 {
      var m := 12 - k;
      MeltFromRows(rows, k - 1, s);
      MeltMonthRows(rows, m, s);
      assert MeltFrom(rows, m) == MeltMonth(rows, m) + MeltFrom(rows, 12 - (k - 1));
      RowsOfAppend(MeltMonth(rows, m), MeltFrom(rows, 12 - (k - 1)), s);
      var rest := RowsOf(MeltFrom(rows, 12 - (k - 1)), s);
      assert rest == (k - 1) * c;
      assert RowsOf(MeltFrom(rows, m), s) == c + rest;
      MulPred(k, c);
    } else {
      assert MeltFrom(rows, 12) == [];
    }
  }

  lemma MulPred(k: nat, c: nat)
    requires k >= 1
    ensures k * c == c + (k - 1) * c
  {
  }

  /**
   * The long form of the per-state monthly totals has exactly twelve rows
   * for each state in the data, and none for any other name.
   */
  lemma TwelveRowsPerState(rs: seq<Record>, s: string)
    ensures RowsOf(Melt(StateMonthlyTotals(rs)), s) == if exists r :: r in rs && r.state == s then 12 else 0
  {
    var rows := StateMonthlyTotals(rs);
    MeltFromRows(rows, 12, s);
    NoDuplicatesCount(StatesOf(rows), s);
  }

  // ---------------------------------------------------------------
  // The two tabs
  // ---------------------------------------------------------------

  /** What the overall tab shows once all its figures exist. */
  datatype OverallSummary = OverallSummary(
    totalFloods: nat,
    avgRainfall: real,
    mostFloodState: string,
    wettestDistrict: string,
    floodByState: seq<KeyCount>,
    yearly: seq<YearStat>,
    monthlyLong: seq<LongRow>)

  /**
   * The overall tab. When no record is flooded, idxmax at line 76 raises
   * and the script stops before any card or chart is drawn: Err.
   */
  function OverallTab(rs: seq<Record>): (res: Result<OverallSummary, string>)
    ensures res.Err? <==> forall r :: r in rs ==> r.flood == 0
    ensures res.Ok? ==> res.value.totalFloods == |Flooded(rs)| >= 1
    ensures res.Ok? ==> CountSum(res.value.floodByState) == res.value.totalFloods
    ensures res.Ok? ==> EventSum(res.value.yearly) == res.value.totalFloods
    ensures res.Ok? ==> forall k :: FloodsOf(rs, StateName, k) <= FloodsOf(rs, StateName, res.value.mostFloodState)
  {
    var most := MostFlooded(rs, StateName);
    if most.Err? then Err(most.error)
    else
      var wettest := WettestDistrict(rs);
      var avg := AverageRainfall(rs);
      FloodsOfPositive(rs, StateName, most.value);
      FloodRankingSumsToTotal(rs, StateName);
      YearlyFloodEventsSumToTotal(rs);
      Ok(OverallSummary(TotalFloods(rs), avg.value, most.value, wettest.value,
                        FloodRanking(rs, StateName), YearlyStats(rs), Melt(StateMonthlyTotals(rs))))
  }

  /** What the state tab computes for the selected state. */
  datatype StateSummary = StateSummary(
    stateFloods: nat,
    stateAvgRain: Option<real>,
    worstDistrict: Result<string, string>,
    districtFloods: seq<KeyCount>,
    monthlySum: Months,
    floodTrend: seq<YearStat>)

  /**
   * Every figure of the state tab, computed whether or not the state has a
   * flooded record; worstDistrict is Err when it has none. This is the tab
   * as evidently intended: it renders for every state the select box offers.
   */
  function GuardedStateTab(rs: seq<Record>, state: string): (t: StateSummary)
    ensures t.stateFloods == |Flooded(OfState(rs, state))|
    ensures t.worstDistrict.Err? <==> t.stateFloods == 0
  {
    var dfState := OfState(rs, state);
    var worst := MostFlooded(dfState, DistrictName);
    var flooded := Flooded(dfState);
    assert flooded != [] ==> flooded[0] in flooded;
    StateSummary(TotalFloods(dfState), AverageRainfall(dfState), worst,
                 FloodRanking(dfState, DistrictName), MonthlyTotals(dfState), YearlyStats(dfState))
  }

  /**
   * The state tab as written: worst_district's idxmax (line 241) raises for
   * a state without a flooded record, and the script stops before its cards
   * and charts are drawn.
   */
  function StateTab(rs: seq<Record>, state: string): (res: Result<StateSummary, string>)
    ensures res.Err? <==> forall r :: r in rs && r.state == state ==> r.flood == 0
    ensures res.Ok? ==> res.value == GuardedStateTab(rs, state) && res.value.stateFloods >= 1
  {
    var t := GuardedStateTab(rs, state);
    var flooded := Flooded(OfState(rs, state));
    assert flooded != [] ==> flooded[0] in flooded;
    if t.worstDistrict.Err? then Err(t.worstDistrict.error) else Ok(t)
  }

  /** A state whose only record is not flooded: the state tab aborts. */
  lemma StateTabAbortsWithoutFloods()
    ensures var r := Record("A", "d", 2000, [0.0, 0.0, 0.0, 0.0, 0.0, 0.0, 0.0, 0.0, 0.0, 0.0, 0.0, 0.0], 0.0, 0);
            StateTab([r], "A").Err? && GuardedStateTab([r], "A").stateFloods == 0
  {
    var r := Record("A", "d", 2000, [0.0, 0.0, 0.0, 0.0, 0.0, 0.0, 0.0, 0.0, 0.0, 0.0, 0.0, 0.0], 0.0, 0);
    assert forall x :: x in [r] ==> x == r;
  }

  /**
   * district_floods lists only districts of the selected state with at
   * least one flooded record there, and the yearly flood trend adds up to
   * the state's flood count.
   */
  lemma StateTabFloods(rs: seq<Record>, state: string)
    ensures forall d :: d in KeysOf(GuardedStateTab(rs, state).districtFloods) <==>
              exists r :: r in rs && r.state == state && r.flood == 1 && r.district == d
    ensures EventSum(GuardedStateTab(rs, state).floodTrend) == GuardedStateTab(rs, state).stateFloods
  {
    var dfState := OfState(rs, state);
    var t := GuardedStateTab(rs, state);
    assert t.districtFloods == FloodRanking(dfState, DistrictName);
    assert t.floodTrend == YearlyStats(dfState);
    assert t.stateFloods == TotalFloods(dfState);
    FloodRankingKeys(dfState, DistrictName);
    YearlyFloodEventsSumToTotal(dfState);
  }
}

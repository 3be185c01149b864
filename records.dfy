/**
 * The rainfall record set every page loads, and the grouping and
 * reduction operations (pandas filter, groupby-sum, groupby-mean,
 * value_counts) the pages apply to it.
 */
module Records {
  import opened Stats

  /** The twelve monthly magnitudes JAN..DEC, in millimetres. */
  type Months = s: seq<real> | |s| == 12
    witness [0.0, 0.0, 0.0, 0.0, 0.0, 0.0, 0.0, 0.0, 0.0, 0.0, 0.0, 0.0]

  /** The binary FLOOD column. */
  type Flag = x: int | 0 <= x <= 1

  /**
   * One row of the dataset: STATE_NAME, DISTRICT_NAME, YEAR, JAN..DEC,
   * the dataset's own "ANNUAL RAINFALL" column, and FLOOD.
   */
  datatype Record = Record(
    state: string,
    district: string,
    year: int,
    months: Months,
    annualRainfall: real,
    flood: Flag)

  function StateName(r: Record): string { r.state }
  function DistrictName(r: Record): string { r.district }
  function Year(r: Record): int { r.year }
  function AnnualColumn(r: Record): real { r.annualRainfall }

  lemma SumFrom(s: seq<real>, k: nat)
    requires k < |s|
    ensures Sum(s[k..]) == s[k] + Sum(s[k + 1..])
  {
    assert s[k..][1..] == s[k + 1..];
  }

  /**
   * TOTAL_ANNUAL (ANNUAL_RAINFALL on the prediction page): JAN + FEB + ...
   * + DEC, term by term.
   */
  function TotalAnnual(r: Record): (t: real)
    ensures t == r.months[0] + r.months[1] + r.months[2] + r.months[3] + r.months[4] + r.months[5] +
                 r.months[6] + r.months[7] + r.months[8] + r.months[9] + r.months[10] + r.months[11]
  {
    var s := r.months;
    assert s[0..] == s;
    assert s[12..] == [];
    SumFrom(s, 0); SumFrom(s, 1); SumFrom(s, 2); SumFrom(s, 3); SumFrom(s, 4); SumFrom(s, 5);
    SumFrom(s, 6); SumFrom(s, 7); SumFrom(s, 8); SumFrom(s, 9); SumFrom(s, 10); SumFrom(s, 11);
    Sum(s)
  }

  /** A numeric column of the record set, in record order. */
  function Values(rs: seq<Record>, value: Record -> real): (vs: seq<real>)
    ensures |vs| == |rs|
    ensures forall i :: 0 <= i < |rs| ==> vs[i] == value(rs[i])
  {
    if rs == [] then [] else [value(rs[0])] + Values(rs[1..], value)
  }

  // ---------------------------------------------------------------
  // Boolean-mask filters
  // ---------------------------------------------------------------

  /** df[df["STATE_NAME"] == s] */
  function OfState(rs: seq<Record>, s: string): (out: seq<Record>)
    ensures forall r :: multiset(out)[r] == if r.state == s then multiset(rs)[r] else 0
    ensures forall r :: r in out <==> r in rs && r.state == s
  {
    if rs == [] then []
    else
      assert rs == [rs[0]] + rs[1..];
      (if rs[0].state == s then [rs[0]] else []) + OfState(rs[1..], s)
  }

  /**
   * The state mask keeps record order: filtering a concatenation filters
   * each part and keeps the parts in sequence.
   */
  lemma {:induction false} OfStateKeepsOrder(a: seq<Record>, b: seq<Record>, s: string)
    ensures OfState(a + b, s) == OfState(a, s) + OfState(b, s)
  {
    if a == [] {
      assert a + b == b;
    } else {
      assert (a + b)[0] == a[0];
      assert (a + b)[1..] == a[1..] + b;
      OfStateKeepsOrder(a[1..], b, s);
    }
  }

  /** df[df["YEAR"] == y] */
  function OfYear(rs: seq<Record>, y: int): (out: seq<Record>)
    ensures forall r :: multiset(out)[r] == if r.year == y then multiset(rs)[r] else 0
    ensures forall r :: r in out <==> r in rs && r.year == y
  {
    if rs == [] then []
    else
      assert rs == [rs[0]] + rs[1..];
      (if rs[0].year == y then [rs[0]] else []) + OfYear(rs[1..], y)
  }

  /** df[df["FLOOD"] == 1] */
  function Flooded(rs: seq<Record>): (out: seq<Record>)
    ensures forall r :: multiset(out)[r] == if r.flood == 1 then multiset(rs)[r] else 0
    ensures forall r :: r in out <==> r in rs && r.flood == 1
  {
    if rs == [] then []
    else
      assert rs == [rs[0]] + rs[1..];
      (if rs[0].flood == 1 then [rs[0]] else []) + Flooded(rs[1..])
  }

  // ---------------------------------------------------------------
  // Flood counts
  // ---------------------------------------------------------------

  /**
   * df["FLOOD"].sum(). Since FLOOD is 0 or 1, summing the flags counts the
   * flooded records.
   */
  function TotalFloods(rs: seq<Record>): (total: nat)
    ensures total == |Flooded(rs)|
  {
    if rs == [] then 0 else rs[0].flood + TotalFloods(rs[1..])
  }

  /** Number of flooded records whose key is k (one entry of value_counts on the flooded rows). */
  function FloodsOf<K(==)>(rs: seq<Record>, key: Record -> K, k: K): nat
  {
    if rs == [] then 0
    else (if rs[0].flood == 1 && key(rs[0]) == k then 1 else 0) + FloodsOf(rs[1..], key, k)
  }

  /** FloodsOf summed over a list of keys. */
  function FloodsOver<K(==)>(rs: seq<Record>, key: Record -> K, ks: seq<K>): nat
  {
    if ks == [] then 0 else FloodsOf(rs, key, ks[0]) + FloodsOver(rs, key, ks[1..])
  }

  lemma {:induction false} FloodsOverCons<K>(r: Record, rest: seq<Record>, key: Record -> K, ks: seq<K>)
    ensures FloodsOver([r] + rest, key, ks)
         == FloodsOver(rest, key, ks) + (if r.flood == 1 then multiset(ks)[key(r)] else 0)
  {
    assert ([r] + rest)[1..] == rest;
    if ks != [] {
      assert ks == [ks[0]] + ks[1..];
      FloodsOverCons(r, rest, key, ks[1..]);
    }
  }

  lemma NoDuplicatesCount<T>(ks: seq<T>, k: T)
    requires NoDuplicates(ks)
    ensures multiset(ks)[k] == if k in ks then 1 else 0
  {
  }

  /**
   * Grouping the flooded records by a key partitions them: over a list of
   * distinct keys that covers every flooded record, the per-key counts add
   * up to the flag total.
   */
  lemma {:induction false} FloodsPartition<K>(rs: seq<Record>, key: Record -> K, ks: seq<K>)
    requires NoDuplicates(ks)
    requires forall r :: r in rs && r.flood == 1 ==> key(r) in ks
    ensures FloodsOver(rs, key, ks) == TotalFloods(rs)
  {
    if rs == [] {
      FloodsOverEmpty(key, ks);
    } else {
      assert rs == [rs[0]] + rs[1..];
      FloodsOverCons(rs[0], rs[1..], key, ks);
      NoDuplicatesCount(ks, key(rs[0]));
      assert forall r :: r in rs[1..] ==> r in rs;
      FloodsPartition(rs[1..], key, ks);
    }
  }

  lemma {:induction false} FloodsOverEmpty<K>(key: Record -> K, ks: seq<K>)
    ensures FloodsOver([], key, ks) == 0
  {
    if ks != [] {
      FloodsOverEmpty(key, ks[1..]);
    }
  }

  // ---------------------------------------------------------------
  // Groups and group reductions
  // ---------------------------------------------------------------

  /** The values of one group (records with key k), in record order. */
  function Column<K(==)>(rs: seq<Record>, key: Record -> K, k: K, value: Record -> real): (col: seq<real>)
    ensures |col| <= |rs|
    ensures col != [] <==> exists r :: r in rs && key(r) == k
  {
    if rs == [] then []
    else
      assert forall r :: r in rs <==> r == rs[0] || r in rs[1..];
      (if key(rs[0]) == k then [value(rs[0])] else []) + Column(rs[1..], key, k, value)
  }

  /** groupby(key)[value].sum() at key k. */
  function GroupSum<K(==)>(rs: seq<Record>, key: Record -> K, k: K, value: Record -> real): real
  {
    Sum(Column(rs, key, k, value))
  }

  /**
   * groupby(key)[value].mean() at key k. pandas only forms groups for keys
   * that occur, so the empty case is never read; it is given 0.0 here.
   */
  function GroupMean<K(==)>(rs: seq<Record>, key: Record -> K, k: K, value: Record -> real): real
  {
    var col := Column(rs, key, k, value);
    if col == [] then 0.0 else Mean(col)
  }

  /** The keys occurring in the record set, each once, in order of first appearance. */
  function DistinctKeys<K(==,!new)>(rs: seq<Record>, key: Record -> K): (ks: seq<K>)
    ensures NoDuplicates(ks)
    ensures forall k :: k in ks <==> exists r :: r in rs && key(r) == k
  {
    if rs == [] then []
    else
      var front := rs[..|rs| - 1];
      var last := rs[|rs| - 1];
      assert forall r :: r in rs <==> r in front || r == last by {
        assert rs == front + [last];
      }
      var ks := DistinctKeys(front, key);
      if key(last) in ks then ks else ks + [key(last)]
  }

  /** GroupSum summed over a list of keys. */
  function SumOver<K(==)>(rs: seq<Record>, key: Record -> K, ks: seq<K>, value: Record -> real): real
  {
    if ks == [] then 0.0 else GroupSum(rs, key, ks[0], value) + SumOver(rs, key, ks[1..], value)
  }

  lemma {:induction false} SumOverCons<K>(r: Record, rest: seq<Record>, key: Record -> K, ks: seq<K>, value: Record -> real)
    requires NoDuplicates(ks)
    ensures SumOver([r] + rest, key, ks, value)
         == SumOver(rest, key, ks, value) + (if key(r) in ks then value(r) else 0.0)
  {
    if ks != [] {
      NoDuplicatesTail(ks);
      GroupSumCons(r, rest, key, ks[0], value);
      SumOverCons(r, rest, key, ks[1..], value);
      assert key(r) in ks <==> key(r) == ks[0] || key(r) in ks[1..];
    }
  }

  lemma GroupSumCons<K>(r: Record, rest: seq<Record>, key: Record -> K, k: K, value: Record -> real)
    ensures GroupSum([r] + rest, key, k, value)
         == (if key(r) == k then value(r) else 0.0) + GroupSum(rest, key, k, value)
  {
    assert ([r] + rest)[1..] == rest;
    var c := Column(rest, key, k, value);
    if key(r) == k {
      assert ([value(r)] + c)[1..] == c;
    } else {
      assert [] + c == c;
    }
  }

  lemma NoDuplicatesTail<T>(ks: seq<T>)
    requires ks != [] && NoDuplicates(ks)
    ensures NoDuplicates(ks[1..]) && ks[0] !in ks[1..]
  {
    assert ks == [ks[0]] + ks[1..];
    assert multiset(ks)[ks[0]] == 1;
    forall x | x in ks[1..]
      ensures multiset(ks[1..])[x] == 1
    {
      assert x in ks;
    }
  }

  lemma {:induction false} SumOverEmpty<K>(key: Record -> K, ks: seq<K>, value: Record -> real)
    ensures SumOver([], key, ks, value) == 0.0
  {
    if ks != [] {
      SumOverEmpty(key, ks[1..], value);
    }
  }

  /**
   * A groupby-sum keeps the grand total: over distinct keys covering every
   * record, the group sums add up to the sum of the whole column.
   */
  lemma {:induction false} SumPartition<K>(rs: seq<Record>, key: Record -> K, ks: seq<K>, value: Record -> real)
    requires NoDuplicates(ks)
    requires forall r :: r in rs ==> key(r) in ks
    ensures SumOver(rs, key, ks, value) == Sum(Values(rs, value))
  {
    if rs == [] {
      SumOverEmpty(key, ks, value);
    } else {
      assert rs == [rs[0]] + rs[1..];
      SumOverCons(rs[0], rs[1..], key, ks, value);
      assert forall r :: r in rs[1..] ==> r in rs;
      SumPartition(rs[1..], key, ks, value);
    }
  }

  // ---------------------------------------------------------------
  // Years in ascending order (groupby("YEAR") sorts its keys)
  // ---------------------------------------------------------------

  predicate Increasing(ys: seq<int>)
  {
    forall i, j :: 0 <= i < j < |ys| ==> ys[i] < ys[j]
  }

  function InsertYear(ys: seq<int>, y: int): (zs: seq<int>)
    requires Increasing(ys)
    ensures Increasing(zs)
    ensures forall x :: x in zs <==> x in ys || x == y
  {
    if ys == [] then [y]
    else if y < ys[0] then [y] + ys
    else if y == ys[0] then ys
    else
      assert forall x :: x in ys <==> x == ys[0] || x in ys[1..];
      IncreasingTail(ys);
      var tail := InsertYear(ys[1..], y);
      assert forall x :: x in tail ==> ys[0] < x;
      ConsIncreasing(ys[0], tail);
      [ys[0]] + tail
  }

  lemma IncreasingTail(ys: seq<int>)
    requires ys != [] && Increasing(ys)
    ensures Increasing(ys[1..])
    ensures forall x :: x in ys[1..] ==> ys[0] < x
  {
    forall i, j | 0 <= i < j < |ys| - 1
      ensures ys[1..][i] < ys[1..][j]
    {
      assert ys[1..][i] == ys[i + 1] && ys[1..][j] == ys[j + 1];
    }
  }

  /** A year below every year of an ascending list can go in front of it. */
  lemma ConsIncreasing(h: int, tail: seq<int>)
    requires Increasing(tail)
    requires forall x :: x in tail ==> h < x
    ensures Increasing([h] + tail)
  {
    var zs := [h] + tail;
    forall i, j | 0 <= i < j < |zs|
      ensures zs[i] < zs[j]
    {
      assert zs[j] == tail[j - 1];
      if i > 0 {
        assert zs[i] == tail[i - 1];
      } else {
        assert tail[j - 1] in tail;
      }
    }
  }

  /** The distinct years of the record set, ascending. */
  function DistinctYears(rs: seq<Record>): (ys: seq<int>)
    ensures Increasing(ys)
    ensures forall y :: y in ys <==> exists r :: r in rs && r.year == y
  {
    if rs == [] then []
    else
      assert forall r :: r in rs <==> r == rs[0] || r in rs[1..];
      InsertYear(DistinctYears(rs[1..]), rs[0].year)
  }

  lemma {:induction false} IncreasingNoDuplicates(ys: seq<int>)
    requires Increasing(ys)
    ensures NoDuplicates(ys)
  {
    if ys != [] {
      assert ys == [ys[0]] + ys[1..];
      IncreasingNoDuplicates(ys[1..]);
      assert ys[0] !in ys[1..];
    }
  }

  /** One row of groupby("YEAR")[annual total].mean(). */
  datatype YearMean = YearMean(year: int, mean: real)

  /** The per-year mean annual total for each listed year, in that order. */
  function MeansFor(rs: seq<Record>, ys: seq<int>): (rows: seq<YearMean>)
    ensures |rows| == |ys|
    ensures forall i :: 0 <= i < |ys| ==> rows[i] == YearMean(ys[i], GroupMean(rs, Year, ys[i], TotalAnnual))
  {
    if ys == [] then [] else [YearMean(ys[0], GroupMean(rs, Year, ys[0], TotalAnnual))] + MeansFor(rs, ys[1..])
  }

  /**
   * groupby("YEAR")[annual total].mean(): one row per year present, years
   * ascending, each the mean of that year's annual totals and so between
   * the smallest and largest of them.
   */
  function YearlyMeans(rs: seq<Record>): (rows: seq<YearMean>)
    ensures |rows| == |DistinctYears(rs)|
    ensures forall i :: 0 <= i < |rows| ==> rows[i].year == DistinctYears(rs)[i]
    ensures forall i :: 0 <= i < |rows| ==>
              var col := Column(rs, Year, rows[i].year, TotalAnnual);
              col != [] && rows[i].mean == Mean(col) && Min(col) <= rows[i].mean <= Max(col)
  {
    var ys := DistinctYears(rs);
    var rows := MeansFor(rs, ys);
    forall i | 0 <= i < |rows|
      ensures var col := Column(rs, Year, rows[i].year, TotalAnnual);
              col != [] && rows[i].mean == Mean(col) && Min(col) <= rows[i].mean <= Max(col)
    {
      assert ys[i] in ys;
      MeanBetweenMinMax(Column(rs, Year, ys[i], TotalAnnual));
    }
    rows
  }

  // ---------------------------------------------------------------
  // Month columns
  // ---------------------------------------------------------------

  /** df[monthly_cols].sum() for the column of month m (0 = JAN). */
  function MonthTotal(rs: seq<Record>, m: nat): real
    requires m < 12
  {
    if rs == [] then 0.0 else rs[0].months[m] + MonthTotal(rs[1..], m)
  }

  /** df[monthly_cols].sum(): the twelve column totals, JAN..DEC. */
  function MonthlyTotals(rs: seq<Record>): (totals: Months)
  {
    seq(12, m requires 0 <= m < 12 => MonthTotal(rs, m))
  }

  lemma {:induction false} SumPointwise(a: seq<real>, b: seq<real>, c: seq<real>)
    requires |a| == |b| == |c|
    requires forall i :: 0 <= i < |c| ==> c[i] == a[i] + b[i]
    ensures Sum(c) == Sum(a) + Sum(b)
  {
    if c != [] {
      SumPointwise(a[1..], b[1..], c[1..]);
    }
  }

  /**
   * The monthly distribution and the annual totals account for the same
   * rainfall: the twelve column totals add up to the sum of TOTAL_ANNUAL.
   */
  lemma {:induction false} MonthlyTotalsConserveRainfall(rs: seq<Record>)
    ensures Sum(MonthlyTotals(rs)) == Sum(Values(rs, TotalAnnual))
  {
    if rs == [] {
      SumBounds(MonthlyTotals(rs), 0.0, 0.0);
    } else {
      MonthlyTotalsConserveRainfall(rs[1..]);
      SumPointwise(rs[0].months, MonthlyTotals(rs[1..]), MonthlyTotals(rs));
    }
  }
}

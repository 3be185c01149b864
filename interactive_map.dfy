/**
 * The interactive map page: the annual flood-risk rule, the popup
 * colours, the per-(state, district) yearly mean, the state selection
 * with its map focus, and the boundary features kept for drawing.
 */
module InteractiveMap {
  import opened Wrappers
  import opened Stats
  import opened Records

  // ---------------------------------------------------------------
  // Annual risk rule and popup colours
  // ---------------------------------------------------------------

  /** assign_flood_risk: tiers of annual rainfall, lower bounds closed. */
  function AssignFloodRisk(rainfall: real): (risk: string)
    ensures risk == "High" <==> rainfall >= 3000.0
    ensures risk == "Medium" <==> 2500.0 <= rainfall < 3000.0
    ensures risk == "Low" <==> rainfall < 2500.0
  {
    if rainfall >= 3000.0 then "High"
    else if rainfall >= 2500.0 then "Medium"
    else "Low"
  }

  /** Position of a tier in Low < Medium < High. */
  function RiskRank(risk: string): nat
  {
    if risk == "High" then 2 else if risk == "Medium" then 1 else 0
  }

  /** More rainfall never gives a lower tier. */
  lemma AssignFloodRiskMonotone(r1: real, r2: real)
    requires r1 <= r2
    ensures RiskRank(AssignFloodRisk(r1)) <= RiskRank(AssignFloodRisk(r2))
  {
  }

  /** popup_bg: the dictionary lookup with "#ffffff" as the fallback. */
  function PopupBg(risk: string): (bg: string)
    ensures risk == "High" ==> bg == "#f8d7da"
    ensures risk == "Medium" ==> bg == "#fff3cd"
    ensures risk == "Low" ==> bg == "#d4edda"
    ensures risk != "High" && risk != "Medium" && risk != "Low" ==> bg == "#ffffff"
  {
    var colors := map["High" := "#f8d7da", "Medium" := "#fff3cd", "Low" := "#d4edda"];
    if risk in colors then colors[risk] else "#ffffff"
  }

  /** A tier produced by AssignFloodRisk never falls back to the white popup. */
  lemma PopupBgOfAssignedRisk(rainfall: real)
    ensures PopupBg(AssignFloodRisk(rainfall)) != "#ffffff"
  {
  }

  // ---------------------------------------------------------------
  // State selection and map focus
  // ---------------------------------------------------------------

  datatype LatLon = LatLon(lat: real, lon: real)

  datatype Focus = Focus(center: LatLon, zoom: nat)

  const AllStates: string := "All States"

  const StateCenters: map<string, LatLon> := map[
    "Johor" := LatLon(1.85, 103.5),
    "Kedah" := LatLon(6.1, 100.4),
    "Kelantan" := LatLon(5.3, 102.0),
    "Melaka" := LatLon(2.2, 102.3),
    "Negeri Sembilan" := LatLon(2.7, 102.1),
    "Pahang" := LatLon(3.8, 102.4),
    "Perak" := LatLon(4.8, 101.0),
    "Perlis" := LatLon(6.6, 100.2),
    "Pulau Pinang" := LatLon(5.4, 100.3),
    "Sabah" := LatLon(5.5, 117.0),
    "Sarawak" := LatLon(2.5, 113.0),
    "Selangor" := LatLon(3.1, 101.6),
    "Terengganu" := LatLon(5.2, 103.1),
    "Wilayah Persekutuan" := LatLon(3.15, 101.7)
  ]

  /** Where the map opens and how far it is zoomed for a state choice. */
  function MapFocus(choice: string): (f: Focus)
    ensures f.zoom == 7 <==> choice != AllStates
    ensures f.zoom == 6 <==> choice == AllStates
    ensures choice == AllStates ==> f.center == LatLon(4.2105, 101.9758)
    ensures choice in StateCenters ==> f.center == StateCenters[choice]
    ensures choice != AllStates && choice !in StateCenters ==> f.center == LatLon(4.2, 101.9)
  {
    assert AllStates !in StateCenters;
    if choice != AllStates then
      Focus(if choice in StateCenters then StateCenters[choice] else LatLon(4.2, 101.9), 7)
    else
      Focus(LatLon(4.2105, 101.9758), 6)
  }

  // ---------------------------------------------------------------
  // Yearly aggregation per (state, district)
  // ---------------------------------------------------------------

  datatype DistrictMean = DistrictMean(state: string, district: string, rainfall: real)

  function StateDistrict(r: Record): (string, string) { (r.state, r.district) }

  function Pairs(rows: seq<DistrictMean>): (ps: seq<(string, string)>)
    ensures |ps| == |rows|
    ensures forall i :: 0 <= i < |rows| ==> ps[i] == (rows[i].state, rows[i].district)
  {
    if rows == [] then [] else [(rows[0].state, rows[0].district)] + Pairs(rows[1..])
  }

  function MeansOf(yr: seq<Record>, ks: seq<(string, string)>): (rows: seq<DistrictMean>)
    ensures Pairs(rows) == ks
    ensures forall i :: 0 <= i < |rows| ==> rows[i].rainfall == GroupMean(yr, StateDistrict, ks[i], AnnualColumn)
  {
    if ks == [] then []
    else
      [DistrictMean(ks[0].0, ks[0].1, GroupMean(yr, StateDistrict, ks[0], AnnualColumn))] + MeansOf(yr, ks[1..])
  }

  /**
   * df[df["YEAR"] == year].groupby(["STATE_NAME", "DISTRICT_NAME"]).agg({"ANNUAL RAINFALL": "mean"}):
   * one row per (state, district) pair recorded in that year, carrying the
   * mean of that pair's "ANNUAL RAINFALL" values for the year.
   */
  function AggregateYear(rs: seq<Record>, year: int): (rows: seq<DistrictMean>)
    ensures NoDuplicates(Pairs(rows))
    ensures forall st, d :: (st, d) in Pairs(rows) <==>
              exists r :: r in rs && r.year == year && r.state == st && r.district == d
    ensures forall i :: 0 <= i < |rows| ==>
              rows[i].rainfall == GroupMean(OfYear(rs, year), StateDistrict, (rows[i].state, rows[i].district), AnnualColumn)
  {
    var yr := OfYear(rs, year);
    var ks := DistinctKeys(yr, StateDistrict);
    var rows := MeansOf(yr, ks);
    PairsOfMeans(yr, ks);
    PairsInYear(rs, year, ks);
    rows
  }

  lemma PairsOfMeans(yr: seq<Record>, ks: seq<(string, string)>)
    ensures var rows := MeansOf(yr, ks);
            forall i :: 0 <= i < |rows| ==>
              rows[i].rainfall == GroupMean(yr, StateDistrict, (rows[i].state, rows[i].district), AnnualColumn)
  {
    var rows := MeansOf(yr, ks);
    forall i | 0 <= i < |rows|
      ensures rows[i].rainfall == GroupMean(yr, StateDistrict, (rows[i].state, rows[i].district), AnnualColumn)
    {
      assert Pairs(rows)[i] == ks[i];
    }
  }

  lemma PairsInYear(rs: seq<Record>, year: int, ks: seq<(string, string)>)
    requires forall k :: k in ks <==> exists r :: r in OfYear(rs, year) && StateDistrict(r) == k
    ensures forall st, d :: (st, d) in ks <==>
              exists r :: r in rs && r.year == year && r.state == st && r.district == d
  {
    forall st, d
      ensures (st, d) in ks <==> exists r :: r in rs && r.year == year && r.state == st && r.district == d
    {
      if (st, d) in ks {
        var r :| r in OfYear(rs, year) && StateDistrict(r) == (st, d);
        assert r in rs && r.year == year && r.state == st && r.district == d;
      }
      if exists r :: r in rs && r.year == year && r.state == st && r.district == d {
        var r :| r in rs && r.year == year && r.state == st && r.district == d;
        assert r in OfYear(rs, year) && StateDistrict(r) == (st, d);
      }
    }
  }

  /** A pair's yearly mean lies between its smallest and largest recorded value that year. */
  lemma AggregateMeanWithinRecords(rs: seq<Record>, year: int, i: nat)
    requires i < |AggregateYear(rs, year)|
    ensures var row := AggregateYear(rs, year)[i];
            var col := Column(OfYear(rs, year), StateDistrict, (row.state, row.district), AnnualColumn);
            col != [] && Min(col) <= row.rainfall <= Max(col)
  {
    var row := AggregateYear(rs, year)[i];
    assert (row.state, row.district) in Pairs(AggregateYear(rs, year));
    MeanBetweenMinMax(Column(OfYear(rs, year), StateDistrict, (row.state, row.district), AnnualColumn));
  }

  // ---------------------------------------------------------------
  // The map table (map_df) with its flood_risk column
  // ---------------------------------------------------------------

  /** A row of map_df; floodRisk is None until the flood_risk column is added. */
  datatype MapRow = MapRow(state: string, district: string, rainfall: real, floodRisk: Option<string>)

  function Unrated(rows: seq<DistrictMean>): (table: seq<MapRow>)
    ensures |table| == |rows|
    ensures forall i :: 0 <= i < |rows| ==>
              table[i] == MapRow(rows[i].state, rows[i].district, rows[i].rainfall, None)
  {
    if rows == [] then [] else [MapRow(rows[0].state, rows[0].district, rows[0].rainfall, None)] + Unrated(rows[1..])
  }

  /** map_df["flood_risk"] = map_df["ANNUAL RAINFALL"].apply(assign_flood_risk) */
  function WithFloodRisk(table: seq<MapRow>): (rated: seq<MapRow>)
    ensures |rated| == |table|
    ensures forall i :: 0 <= i < |table| ==>
              rated[i] == table[i].(floodRisk := Some(AssignFloodRisk(table[i].rainfall)))
  {
    if table == [] then []
    else [table[0].(floodRisk := Some(AssignFloodRisk(table[0].rainfall)))] + WithFloodRisk(table[1..])
  }

  /** map_df[map_df["STATE_NAME"] == s] */
  function RowsOfState(table: seq<MapRow>, s: string): (out: seq<MapRow>)
    ensures |out| <= |table|
    ensures forall row :: row in out <==> row in table && row.state == s
  {
    if table == [] then []
    else
      assert forall row :: row in table <==> row == table[0] || row in table[1..];
      (if table[0].state == s then [table[0]] else []) + RowsOfState(table[1..], s)
  }

  /** The rows kept for a state choice ("All States" keeps every row). */
  function Selected(table: seq<MapRow>, choice: string): seq<MapRow>
  {
    if choice != AllStates then RowsOfState(table, choice) else table
  }

  function Districts(table: seq<MapRow>): (ds: seq<string>)
    ensures |ds| == |table|
    ensures forall i :: 0 <= i < |table| ==> ds[i] == table[i].district
  {
    if table == [] then [] else [table[0].district] + Districts(table[1..])
  }

  /** set(map_df["DISTRICT_NAME"]) */
  function DistrictSet(table: seq<MapRow>): (valid: set<string>)
    ensures forall d :: d in valid <==> exists row :: row in table && row.district == d
  {
    set row | row in table :: row.district
  }

  /**
   * map_df.set_index("DISTRICT_NAME").to_dict("index"): fails, as pandas
   * does, when a district name occurs in two rows.
   */
  function Lookup(table: seq<MapRow>): (lookup: Result<map<string, MapRow>, string>)
    ensures lookup.Ok? <==> NoDuplicates(Districts(table))
    ensures lookup.Ok? ==> lookup.value.Keys == DistrictSet(table)
    ensures lookup.Ok? ==> forall row :: row in table ==> lookup.value[row.district] == row
  {
    if table == [] then Ok(map[])
    else
      assert Districts(table) == [table[0].district] + Districts(table[1..]);
      NoDuplicatesCons(table[0].district, Districts(table[1..]));
      assert forall row :: row in table <==> row == table[0] || row in table[1..];
      match Lookup(table[1..])
      case Err(e) => Err(e)
      case Ok(m) =>
        if table[0].district in m then Err("DataFrame index must be unique for orient='index'.")
        else
          assert table[0].district !in Districts(table[1..]);
          Ok(m[table[0].district := table[0]])
  }

  // ---------------------------------------------------------------
  // Boundary features
  // ---------------------------------------------------------------

  /** A district polygon of the boundary file, named by its NAME_2 property. */
  datatype Feature = Feature(name2: string, boundary: seq<LatLon>)

  /** [f for f in features if f["properties"]["NAME_2"] in valid] */
  function KeptFeatures(fs: seq<Feature>, valid: set<string>): (kept: seq<Feature>)
    ensures |kept| <= |fs|
    ensures forall f :: f in kept <==> f in fs && f.name2 in valid
  {
    if fs == [] then []
    else
      assert forall f :: f in fs <==> f == fs[0] || f in fs[1..];
      (if fs[0].name2 in valid then [fs[0]] else []) + KeptFeatures(fs[1..], valid)
  }

  /** Filtering features commutes with concatenation, so kept features stay in file order. */
  lemma {:induction false} KeptFeaturesKeepOrder(a: seq<Feature>, b: seq<Feature>, valid: set<string>)
    ensures KeptFeatures(a + b, valid) == KeptFeatures(a, valid) + KeptFeatures(b, valid)
  {
    if a == [] {
      assert a + b == b;
    } else {
      assert (a + b)[0] == a[0];
      assert (a + b)[1..] == a[1..] + b;
      KeptFeaturesKeepOrder(a[1..], b, valid);
    }
  }

  /** Every kept feature has a lookup entry for its popup when the lookup succeeds. */
  lemma KeptFeaturesHaveLookupEntries(fs: seq<Feature>, table: seq<MapRow>)
    requires Lookup(table).Ok?
    ensures forall f :: f in KeptFeatures(fs, DistrictSet(table)) ==> f.name2 in Lookup(table).value
  {
  }

  /**
   * The page's state: map_df (`table`) and the feature list of the loaded
   * boundary file (`features`), both updated in place as the script runs.
   */
  class FloodMap {
    var table: seq<MapRow>
    var features: seq<Feature>

    /** Lines 132-138: map_df is the yearly aggregate; features is the loaded file. */
    constructor (rs: seq<Record>, year: int, geo: seq<Feature>)
      ensures table == Unrated(AggregateYear(rs, year))
      ensures features == geo
    {
      table := Unrated(AggregateYear(rs, year));
      features := geo;
    }

    /** Line 140: adds the flood_risk column. */
    method AddFloodRisk()
      modifies this
      ensures table == WithFloodRisk(old(table))
      ensures features == old(features)
    {
      table := WithFloodRisk(table);
    }

    /** Lines 142-148: keeps the chosen state's rows and picks the map focus. */
    method SelectState(choice: string) returns (focus: Focus)
      modifies this
      ensures table == Selected(old(table), choice)
      ensures features == old(features)
      ensures focus == MapFocus(choice)
    {
      if choice != AllStates {
        table := RowsOfState(table, choice);
      }
      focus := MapFocus(choice);
    }

    /** Lines 156-160: keeps the features whose NAME_2 is a district of the table. */
    method KeepMappedFeatures()
      modifies this
      ensures features == KeptFeatures(old(features), DistrictSet(old(table)))
      ensures table == old(table)
    {
      features := KeptFeatures(features, DistrictSet(table));
    }
  }

  /** The table the page ends with, from the records, the year and the state choice. */
  function MapTable(rs: seq<Record>, year: int, choice: string): (table: seq<MapRow>)
    ensures choice != AllStates ==> forall row :: row in table ==> row.state == choice
    ensures forall row :: row in table ==> row.floodRisk == Some(AssignFloodRisk(row.rainfall))
  {
    Selected(WithFloodRisk(Unrated(AggregateYear(rs, year))), choice)
  }

  /**
   * Running the page's steps in order yields MapTable, and the kept features
   * are exactly those named by its districts.
   */
  method BuildMap(rs: seq<Record>, year: int, choice: string, geo: seq<Feature>)
    returns (m: FloodMap, focus: Focus)
    ensures fresh(m)
    ensures m.table == MapTable(rs, year, choice)
    ensures m.features == KeptFeatures(geo, DistrictSet(MapTable(rs, year, choice)))
    ensures focus == MapFocus(choice)
  {
    m := new FloodMap(rs, year, geo);
    m.AddFloodRisk();
    focus := m.SelectState(choice);
    m.KeepMappedFeatures();
  }

  /**
   * Every row of the final table, and so every popup reached through the
   * lookup, carries the tier AssignFloodRisk gives its yearly mean, and that
   * mean belongs to a (state, district) pair recorded in the year; when a
   * state is chosen, every row belongs to it.
   */
  lemma MapTableRows(rs: seq<Record>, year: int, choice: string, row: MapRow)
    requires row in MapTable(rs, year, choice)
    ensures row.floodRisk == Some(AssignFloodRisk(row.rainfall))
    ensures choice != AllStates ==> row.state == choice
    ensures exists r :: r in rs && r.year == year && r.state == row.state && r.district == row.district
    ensures row.rainfall == GroupMean(OfYear(rs, year), StateDistrict, (row.state, row.district), AnnualColumn)
  {
    var agg := AggregateYear(rs, year);
    var unrated := Unrated(agg);
    var rated := WithFloodRisk(unrated);
    assert MapTable(rs, year, choice) == Selected(rated, choice);
    assert row in rated by {
      if choice != AllStates {
        assert row in RowsOfState(rated, choice);
      }
    }
    var i :| 0 <= i < |rated| && rated[i] == row;
    assert unrated[i] == MapRow(agg[i].state, agg[i].district, agg[i].rainfall, None);
    AggregatedRowRecorded(rs, year, i);
  }

  /** The i-th aggregate row names a pair recorded in the year. */
  lemma AggregatedRowRecorded(rs: seq<Record>, year: int, i: nat)
    requires i < |AggregateYear(rs, year)|
    ensures var row := AggregateYear(rs, year)[i];
            exists r :: r in rs && r.year == year && r.state == row.state && r.district == row.district
  {
    var agg := AggregateYear(rs, year);
    assert Pairs(agg)[i] == (agg[i].state, agg[i].district);
    assert (agg[i].state, agg[i].district) in Pairs(agg);
  }

  /** Through the lookup, each kept feature's popup shows its own district's row. */
  lemma PopupRowOfFeature(rs: seq<Record>, year: int, choice: string, geo: seq<Feature>, f: Feature)
    requires Lookup(MapTable(rs, year, choice)).Ok?
    requires f in KeptFeatures(geo, DistrictSet(MapTable(rs, year, choice)))
    ensures f.name2 in Lookup(MapTable(rs, year, choice)).value
    ensures var row := Lookup(MapTable(rs, year, choice)).value[f.name2];
            row in MapTable(rs, year, choice) && row.district == f.name2 &&
            row.floodRisk == Some(AssignFloodRisk(row.rainfall))
  {
    var table := MapTable(rs, year, choice);
    var row :| row in table && row.district == f.name2;
    MapTableRows(rs, year, choice, row);
  }
}

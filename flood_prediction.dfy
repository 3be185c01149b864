/**
 * The prediction page: the monthly flood-risk rule and its colours, the
 * risk bands drawn behind the charts, the recursive multi-step
 * forecaster, and the result table and month axis built from a forecast.
 */
module FloodPrediction {
  import opened Wrappers
  import opened Stats
  import InteractiveMap

  /** Slider bounds for the number of input months and of predicted months. */
  const MinInputMonths: nat := 6
  const MaxInputMonths: nat := 11
  const MinHorizon: nat := 1
  const MaxHorizon: nat := 12

  // ---------------------------------------------------------------
  // Monthly risk rule
  // ---------------------------------------------------------------

  /** flood_risk_label: tiers of a monthly magnitude, lower bounds closed. */
  function FloodRiskLabel(v: real): (tier: string)
    ensures tier == "High Risk" <==> v >= 350.0
    ensures tier == "Medium Risk" <==> 250.0 <= v < 350.0
    ensures tier == "Low Risk" <==> v < 250.0
  {
    if v >= 350.0 then "High Risk"
    else if v >= 250.0 then "Medium Risk"
    else "Low Risk"
  }

  /** flood_risk_color: the same thresholds, mapped to the three tier colours. */
  function FloodRiskColor(v: real): (color: string)
    ensures color == "#d62828" <==> v >= 350.0
    ensures color == "#f77f00" <==> 250.0 <= v < 350.0
    ensures color == "#2a9d8f" <==> v < 250.0
  {
    if v >= 350.0 then "#d62828"
    else if v >= 250.0 then "#f77f00"
    else "#2a9d8f"
  }

  /** Position of a label in Low < Medium < High. */
  function LabelRank(tier: string): nat
  {
    if tier == "High Risk" then 2 else if tier == "Medium Risk" then 1 else 0
  }

  /** The colour that goes with each label. */
  function LabelColor(tier: string): string
  {
    if tier == "High Risk" then "#d62828"
    else if tier == "Medium Risk" then "#f77f00"
    else "#2a9d8f"
  }

  /** More rainfall never gives a lower tier. */
  lemma FloodRiskLabelMonotone(v: real, w: real)
    requires v <= w
    ensures LabelRank(FloodRiskLabel(v)) <= LabelRank(FloodRiskLabel(w))
  {
  }

  /** For one and the same value, the colour is the colour of the label. */
  lemma FloodRiskColorMatchesLabel(v: real)
    ensures FloodRiskColor(v) == LabelColor(FloodRiskLabel(v))
  {
  }

  // ---------------------------------------------------------------
  // Risk bands behind the charts
  // ---------------------------------------------------------------

  /** A shaded horizontal band y0..y1 of a chart, with its fill colour. */
  datatype Band = Band(lo: real, hi: real, color: string)

  /**
   * monthly_risk_shapes: three bands stacked without gap from 0 to 800,
   * their inner edges at the label thresholds 250 and 350, each painted in
   * the colour flood_risk_color gives its lower edge.
   */
  function MonthlyRiskShapes(): (b: seq<Band>)
    ensures |b| == 3
    ensures b[2].lo == 0.0 && b[2].hi == b[1].lo && b[1].hi == b[0].lo && b[0].hi == 800.0
    ensures b[1].lo == 250.0 && b[0].lo == 350.0
    ensures forall i :: 0 <= i < 3 ==> b[i].lo < b[i].hi && b[i].color == FloodRiskColor(b[i].lo)
  {
    [Band(350.0, 800.0, "#d62828"), Band(250.0, 350.0, "#f77f00"), Band(0.0, 250.0, "#2a9d8f")]
  }

  /**
   * annual_risk_shapes: three bands stacked without gap from 0 to 4000,
   * their lower edges rated High, Medium and Low by assign_flood_risk, in
   * the same three colours as the monthly bands.
   */
  function AnnualRiskShapes(): (b: seq<Band>)
    ensures |b| == 3
    ensures b[2].lo == 0.0 && b[2].hi == b[1].lo && b[1].hi == b[0].lo && b[0].hi == 4000.0
    ensures b[1].lo == 2500.0 && b[0].lo == 3000.0
    ensures InteractiveMap.AssignFloodRisk(b[0].lo) == "High" && InteractiveMap.AssignFloodRisk(b[1].lo) == "Medium" &&
            InteractiveMap.AssignFloodRisk(b[2].lo) == "Low"
    ensures forall i :: 0 <= i < 3 ==> b[i].lo < b[i].hi && b[i].color == MonthlyRiskShapes()[i].color
  {
    [Band(3000.0, 4000.0, "#d62828"), Band(2500.0, 3000.0, "#f77f00"), Band(0.0, 2500.0, "#2a9d8f")]
  }

  /**
   * The monthly bands tile the chart's y range [0, 800) without overlap
   * (taking each band with its lower edge), and each band is painted in the
   * colour flood_risk_color gives every value inside it.
   */
  lemma MonthlyBandsAgreeWithRule(v: real)
    requires 0.0 <= v < 800.0
    ensures exists i :: 0 <= i < 3 && MonthlyRiskShapes()[i].lo <= v < MonthlyRiskShapes()[i].hi
    ensures forall i :: 0 <= i < 3 && MonthlyRiskShapes()[i].lo <= v < MonthlyRiskShapes()[i].hi ==>
              MonthlyRiskShapes()[i].color == FloodRiskColor(v) &&
              forall j :: 0 <= j < 3 && j != i ==> !(MonthlyRiskShapes()[j].lo <= v < MonthlyRiskShapes()[j].hi)
  {
    var b := MonthlyRiskShapes();
    if v >= 350.0 {
      assert b[0].lo <= v < b[0].hi;
    } else if v >= 250.0 {
      assert b[1].lo <= v < b[1].hi;
    } else {
      assert b[2].lo <= v < b[2].hi;
    }
  }

  /**
   * The annual bands drawn on the yearly charts sit on the annual tiers of
   * assign_flood_risk: High, Medium and Low from top to bottom.
   */
  lemma AnnualBandsAgreeWithRule(v: real)
    requires 0.0 <= v < 4000.0
    ensures var b := AnnualRiskShapes();
            (b[0].lo <= v < b[0].hi <==> InteractiveMap.AssignFloodRisk(v) == "High") &&
            (b[1].lo <= v < b[1].hi <==> InteractiveMap.AssignFloodRisk(v) == "Medium") &&
            (b[2].lo <= v < b[2].hi <==> InteractiveMap.AssignFloodRisk(v) == "Low")
  {
  }

  // ---------------------------------------------------------------
  // The recursive forecaster
  // ---------------------------------------------------------------

  /** Python's xs[-n:] for 1 <= n <= len(xs): the last n elements. */
  function LastN(xs: seq<real>, n: nat): seq<real>
    requires 1 <= n <= |xs|
  {
    xs[|xs| - n..]
  }

  /**
   * The working sequence after `steps` steps: the history, then one value
   * per step, each the model applied to the last n values before it.
   */
  function Rollout(model: seq<real> -> real, history: seq<real>, n: nat, steps: nat): (s: seq<real>)
    requires 1 <= n <= |history|
    ensures |s| == |history| + steps
    ensures s[..|history|] == history
  {
    if steps == 0 then history
    else
      var prev := Rollout(model, history, n, steps - 1);
      prev + [model(LastN(prev, n))]
  }

  /** The m values the forecaster appends after the inputs. */
  function Predictions(model: seq<real> -> real, inputs: seq<real>, n: nat, m: nat): (preds: seq<real>)
    requires 1 <= n <= |inputs|
    ensures |preds| == m
  {
    Rollout(model, inputs, n, m)[|inputs|..]
  }

  lemma {:induction false} RolloutPrefix(model: seq<real> -> real, history: seq<real>, n: nat, j: nat, k: nat)
    requires 1 <= n <= |history| && j <= k
    ensures Rollout(model, history, n, k)[..|history| + j] == Rollout(model, history, n, j)
  {
    if j < k {
      RolloutPrefix(model, history, n, j, k - 1);
      var prev := Rollout(model, history, n, k - 1);
      assert Rollout(model, history, n, k) == prev + [model(LastN(prev, n))];
      assert (prev + [model(LastN(prev, n))])[..|history| + j] == prev[..|history| + j];
    }
  }

  lemma RolloutSplits(model: seq<real> -> real, inputs: seq<real>, n: nat, m: nat)
    requires 1 <= n <= |inputs|
    ensures Rollout(model, inputs, n, m) == inputs + Predictions(model, inputs, n, m)
  {
    var full := Rollout(model, inputs, n, m);
    assert full == full[..|inputs|] + full[|inputs|..];
  }

  /**
   * Step k sees exactly n values: elements k .. k+n-1 of the inputs
   * followed by the predictions, i.e. the n values immediately before it.
   */
  lemma PredictionWindow(model: seq<real> -> real, inputs: seq<real>, n: nat, m: nat, k: nat)
    requires 1 <= n == |inputs| && k < m
    ensures var preds := Predictions(model, inputs, n, m);
            |(inputs + preds)[k..k + n]| == n &&
            preds[k] == model((inputs + preds)[k..k + n])
  {
    var full := Rollout(model, inputs, n, m);
    RolloutSplits(model, inputs, n, m);
    RolloutPrefix(model, inputs, n, k + 1, m);
    RolloutPrefix(model, inputs, n, k, m);
    var prev := Rollout(model, inputs, n, k);
    assert Rollout(model, inputs, n, k + 1) == prev + [model(LastN(prev, n))];
    assert full[n + k] == Rollout(model, inputs, n, k + 1)[n + k];
    assert full[k..k + n] == prev[k..k + n];
  }

  /**
   * The window rule determines the forecast: any sequence of values each of
   * which is the model applied to the n values before it is the forecast.
   */
  lemma {:induction false} WindowRuleDeterminesPredictions(model: seq<real> -> real, inputs: seq<real>, n: nat, preds: seq<real>)
    requires 1 <= n == |inputs|
    requires forall k :: 0 <= k < |preds| ==> preds[k] == model((inputs + preds)[k..k + n])
    ensures preds == Predictions(model, inputs, n, |preds|)
  {
    if preds != [] {
      var front := preds[..|preds| - 1];
      forall k | 0 <= k < |front|
        ensures front[k] == model((inputs + front)[k..k + n])
      {
        assert (inputs + front)[k..k + n] == (inputs + preds)[k..k + n];
      }
      WindowRuleDeterminesPredictions(model, inputs, n, front);
      LastPredictionFollows(model, inputs, n, preds);
    }
  }

  /** If all but the last value are the forecast and the last obeys the window rule, all are. */
  lemma LastPredictionFollows(model: seq<real> -> real, inputs: seq<real>, n: nat, preds: seq<real>)
    requires 1 <= n == |inputs| && preds != []
    requires preds[..|preds| - 1] == Predictions(model, inputs, n, |preds| - 1)
    requires preds[|preds| - 1] == model((inputs + preds)[|preds| - 1..|preds| - 1 + n])
    ensures preds == Predictions(model, inputs, n, |preds|)
  {
    var m := |preds|;
    var prev := Rollout(model, inputs, n, m - 1);
    RolloutSplits(model, inputs, n, m - 1);
    assert prev == inputs + preds[..m - 1];
    assert inputs + preds == prev + [preds[m - 1]];
    assert (inputs + preds)[m - 1..m - 1 + n] == prev[m - 1..];
    assert Rollout(model, inputs, n, m) == inputs + preds;
  }

  /** The first prediction sees only the user's inputs. */
  lemma FirstPredictionUsesInputs(model: seq<real> -> real, inputs: seq<real>, n: nat, m: nat)
    requires 1 <= n == |inputs| && m >= 1
    ensures Predictions(model, inputs, n, m)[0] == model(inputs)
  {
    PredictionWindow(model, inputs, n, m, 0);
    assert (inputs + Predictions(model, inputs, n, m))[0..n] == inputs;
  }

  /** A longer horizon only adds values: the earlier predictions do not change. */
  lemma LongerHorizonExtends(model: seq<real> -> real, inputs: seq<real>, n: nat, m1: nat, m2: nat)
    requires 1 <= n <= |inputs| && m1 <= m2
    ensures Predictions(model, inputs, n, m1) == Predictions(model, inputs, n, m2)[..m1]
  {
    RolloutPrefix(model, inputs, n, m1, m2);
    var full := Rollout(model, inputs, n, m2);
    assert full[..|inputs| + m1][|inputs|..] == full[|inputs|..][..m1];
  }

  /** A model that always answers c makes every prediction c. */
  lemma {:induction false} ConstantModelForecast(model: seq<real> -> real, c: real, inputs: seq<real>, n: nat, m: nat)
    requires 1 <= n <= |inputs|
    requires forall w :: model(w) == c
    ensures forall k :: 0 <= k < m ==> Predictions(model, inputs, n, m)[k] == c
  {
    if m > 0 {
      ConstantModelForecast(model, c, inputs, n, m - 1);
      LongerHorizonExtends(model, inputs, n, m - 1, m);
      var prev := Rollout(model, inputs, n, m - 1);
      assert Rollout(model, inputs, n, m) == prev + [model(LastN(prev, n))];
    }
  }

  /**
   * Six inputs of 200 mm and a model that always answers 300 mm: every
   * predicted month is labelled "Medium Risk", whatever the horizon.
   */
  lemma ConstantThreeHundredIsMediumRisk(model: seq<real> -> real, m: nat)
    requires forall w :: model(w) == 300.0
    ensures var preds := Predictions(model, [200.0, 200.0, 200.0, 200.0, 200.0, 200.0], 6, m);
            forall k :: 0 <= k < m ==> preds[k] == 300.0 && FloodRiskLabel(preds[k]) == "Medium Risk"
  {
    ConstantModelForecast(model, 300.0, [200.0, 200.0, 200.0, 200.0, 200.0, 200.0], 6, m);
  }

  /**
   * Lines 261-267: the loop over a copy of the inputs. Each step predicts
   * from the last nInput values of the working sequence and appends the
   * result to both the output and the working sequence.
   */
  method Forecast(model: seq<real> -> real, monthlyInput: seq<real>, nInput: nat, nPredict: nat)
    returns (preds: seq<real>, work: seq<real>)
    requires 1 <= nInput == |monthlyInput|
    ensures |preds| == nPredict
    ensures preds == Predictions(model, monthlyInput, nInput, nPredict)
    ensures work == monthlyInput + preds
    ensures forall k :: 0 <= k < nPredict ==> preds[k] == model(work[k..k + nInput])
  {
    work := monthlyInput;
    preds := [];
    var step := 0;
    while step < nPredict
      invariant step <= nPredict
      invariant work == Rollout(model, monthlyInput, nInput, step)
      invariant preds == work[nInput..]
    {
      var p := model(work[|work| - nInput..]);
      preds := preds + [p];
      work := work + [p];
      step := step + 1;
    }
    RolloutSplits(model, monthlyInput, nInput, nPredict);
    forall k | 0 <= k < nPredict
      ensures preds[k] == model(work[k..k + nInput])
    {
      PredictionWindow(model, monthlyInput, nInput, nPredict, k);
    }
  }

  /**
   * Lines 244-256: one number_input per input month, appended in order
   * (`field(i)` is the value the widget of month i+1 holds).
   */
  method CollectInputs(field: nat -> real, nInput: nat) returns (monthlyInput: seq<real>)
    ensures |monthlyInput| == nInput
    ensures forall i :: 0 <= i < nInput ==> monthlyInput[i] == field(i)
  {
    monthlyInput := [];
    var i := 0;
    while i < nInput
      invariant i <= nInput
      invariant |monthlyInput| == i
      invariant forall j :: 0 <= j < i ==> monthlyInput[j] == field(j)
    {
      monthlyInput := monthlyInput + [field(i)];
      i := i + 1;
    }
  }

  // ---------------------------------------------------------------
  // Result table and chart axis
  // ---------------------------------------------------------------

  /** One row of result_df: its month number, the rounded value and the risk label. */
  datatype ResultRow = ResultRow(month: nat, predicted: real, risk: string)

  /**
   * result_df: months numbered from nInput + 1, values rounded to two
   * decimals, labels computed from the unrounded predictions.
   */
  function ResultTable(nInput: nat, preds: seq<real>): (rows: seq<ResultRow>)
    ensures |rows| == |preds|
    decreases |preds|
  {
    if preds == [] then []
    else [ResultRow(nInput + 1, Round2(preds[0]), FloodRiskLabel(preds[0]))] + ResultTable(nInput + 1, preds[1..])
  }

  /** The row background: flood_risk_color of the displayed (rounded) value. */
  function RowColor(row: ResultRow): (color: string)
    ensures color == "#d62828" <==> row.predicted >= 350.0
    ensures color == "#f77f00" <==> 250.0 <= row.predicted < 350.0
    ensures color == "#2a9d8f" <==> row.predicted < 250.0
  {
    FloodRiskColor(row.predicted)
  }

  lemma {:induction false} ResultTableRow(nInput: nat, preds: seq<real>, i: nat)
    requires i < |preds|
    ensures ResultTable(nInput, preds)[i] == ResultRow(nInput + 1 + i, Round2(preds[i]), FloodRiskLabel(preds[i]))
    decreases i
  {
    if i > 0 {
      ResultTableRow(nInput + 1, preds[1..], i - 1);
    }
  }

  /**
   * The row colour and the row label disagree only for a prediction within
   * half a hundredth below a threshold (249.995 <= p < 250 or
   * 349.995 <= p < 350), where rounding lifts the displayed value onto it.
   */
  lemma RowColorMatchesLabelAwayFromThresholds(nInput: nat, preds: seq<real>, i: nat)
    requires i < |preds|
    requires !(249.995 <= preds[i] < 250.0) && !(349.995 <= preds[i] < 350.0)
    ensures var row := ResultTable(nInput, preds)[i];
            RowColor(row) == LabelColor(row.risk)
  {
    ResultTableRow(nInput, preds, i);
    Round2GridSide(preds[i], 25000);
    Round2GridSide(preds[i], 35000);
  }

  /** A prediction of 249.996 mm is labelled "Low Risk" but shown on the Medium colour. */
  lemma RowColorCanDisagreeWithLabel()
    ensures var row := ResultTable(6, [249.996])[0];
            row.risk == "Low Risk" && RowColor(row) == "#f77f00"
  {
    ResultTableRow(6, [249.996], 0);
    assert NearestEven(24999.6) == 25000;
  }

  /**
   * The row colour as evidently intended: taken from the same unrounded
   * prediction as the label, so that colour and label always agree.
   */
  function IntendedRowColor(nInput: nat, preds: seq<real>, i: nat): (color: string)
    requires i < |preds|
    ensures color == LabelColor(ResultTable(nInput, preds)[i].risk)
  {
    ResultTableRow(nInput, preds, i);
    FloodRiskColor(preds[i])
  }

  /** Python's list(range(lo, hi)). */
  function Range(lo: nat, hi: nat): (xs: seq<nat>)
    ensures |xs| == if lo <= hi then hi - lo else 0
    ensures forall i :: 0 <= i < |xs| ==> xs[i] == lo + i
  {
    if hi <= lo then [] else seq(hi - lo, i requires 0 <= i < hi - lo => lo + i)
  }

  /** The line data of prediction_chart: the two traces and the shaded bands. */
  datatype Chart = Chart(inputXs: seq<nat>, inputYs: seq<real>, predXs: seq<nat>, predYs: seq<real>,
                         bands: seq<Band>)

  /**
   * prediction_chart: inputs plotted at 1 .. |inputs|, predictions from
   * startMonth on, over the monthly risk bands.
   */
  function PredictionChart(inputVals: seq<real>, preds: seq<real>, startMonth: nat): (c: Chart)
    ensures |c.inputXs| == |c.inputYs| && |c.predXs| == |c.predYs|
    ensures c.inputYs == inputVals && c.predYs == preds && c.bands == MonthlyRiskShapes()
    ensures forall i :: 0 <= i < |c.inputXs| ==> c.inputXs[i] == 1 + i
    ensures forall i :: 0 <= i < |c.predXs| ==> c.predXs[i] == startMonth + i
  {
    Chart(Range(1, |inputVals| + 1), inputVals, Range(startMonth, startMonth + |preds|), preds,
          MonthlyRiskShapes())
  }

  function RowMonths(rows: seq<ResultRow>): (ms: seq<nat>)
    ensures |ms| == |rows|
    ensures forall i :: 0 <= i < |rows| ==> ms[i] == rows[i].month
  {
    if rows == [] then [] else [rows[0].month] + RowMonths(rows[1..])
  }

  /**
   * With start_month = n_input + 1, the chart places the predictions
   * directly after the inputs, with no gap and no overlap: together the x
   * positions are 1 .. n_input + n_predict.
   */
  lemma PredictionMonthsContinueInputs(inputs: seq<real>, preds: seq<real>)
    ensures var c := PredictionChart(inputs, preds, |inputs| + 1);
            c.inputXs + c.predXs == Range(1, |inputs| + 1 + |preds|)
  {
    var n, m := |inputs|, |preds|;
    var c := PredictionChart(inputs, preds, n + 1);
    var all := Range(1, n + 1 + m);
    forall k | 0 <= k < n + m
      ensures (c.inputXs + c.predXs)[k] == all[k]
    {
      if k < n {
        assert (c.inputXs + c.predXs)[k] == c.inputXs[k];
      } else {
        assert (c.inputXs + c.predXs)[k] == c.predXs[k - n];
      }
    }
  }

  /** Row i of the result table names the month of the chart's i-th predicted point. */
  lemma ResultMonthsMatchChart(inputs: seq<real>, preds: seq<real>)
    ensures RowMonths(ResultTable(|inputs|, preds)) == PredictionChart(inputs, preds, |inputs| + 1).predXs
  {
    var months := RowMonths(ResultTable(|inputs|, preds));
    var xs := PredictionChart(inputs, preds, |inputs| + 1).predXs;
    forall i | 0 <= i < |preds|
      ensures months[i] == xs[i]
    {
      ResultTableRow(|inputs|, preds, i);
    }
  }

  // ---------------------------------------------------------------
  // One press of the predict button
  // ---------------------------------------------------------------

  /** A row of the state model summary table. */
  datatype SummaryRow = SummaryRow(state: string, inputMonths: int, modelFile: string)

  /**
   * row = summary_df[(State == state) & (Input_Months == n)]; the first
   * matching row's Model_File, or None when the selection is empty.
   */
  function ModelFileFor(summary: seq<SummaryRow>, state: string, n: int): (file: Option<string>)
    ensures file.None? <==> forall row :: row in summary ==> !(row.state == state && row.inputMonths == n)
    ensures file.Some? ==>
              (exists i :: 0 <= i < |summary| && summary[i] == SummaryRow(state, n, file.value) &&
                 (forall j :: 0 <= j < i ==> !(summary[j].state == state && summary[j].inputMonths == n)))
  {
    if summary == [] then None
    else if summary[0].state == state && summary[0].inputMonths == n then Some(summary[0].modelFile)
    else
      var rest := ModelFileFor(summary[1..], state, n);
      assert forall row :: row in summary <==> row == summary[0] || row in summary[1..];
      if rest.Some? then
        var i :| 0 <= i < |summary[1..]| && summary[1..][i] == SummaryRow(state, n, rest.value) &&
                 forall j :: 0 <= j < i ==> !(summary[1..][j].state == state && summary[1..][j].inputMonths == n);
        assert summary[i + 1] == SummaryRow(state, n, rest.value);
        rest
      else rest
  }

  /** What the page shows after the predict button: a warning, or the forecast table. */
  datatype Outcome = ModelMissing | Forecasted(inputs: seq<real>, preds: seq<real>, rows: seq<ResultRow>)

  /**
   * One run of either tab: without a model only the warning is shown;
   * otherwise the inputs are read, forecast, and tabulated.
   */
  method PredictRun(model: Option<seq<real> -> real>, field: nat -> real, nInput: nat, nPredict: nat)
    returns (out: Outcome)
    requires MinInputMonths <= nInput <= MaxInputMonths
    requires MinHorizon <= nPredict <= MaxHorizon
    ensures out.ModelMissing? <==> model.None?
    ensures out.Forecasted? ==>
              |out.inputs| == nInput && (forall i :: 0 <= i < nInput ==> out.inputs[i] == field(i)) &&
              out.preds == Predictions(model.value, out.inputs, nInput, nPredict) &&
              out.rows == ResultTable(nInput, out.preds)
  {
    if model.None? {
      return ModelMissing;
    }
    var monthlyInput := CollectInputs(field, nInput);
    var preds, _ := Forecast(model.value, monthlyInput, nInput, nPredict);
    out := Forecasted(monthlyInput, preds, ResultTable(nInput, preds));
  }

  /** The state tab: the model comes from the summary row, loaded by `load`. */
  method PredictStateRun(summary: seq<SummaryRow>, load: string -> (seq<real> -> real), state: string,
                         field: nat -> real, nInput: nat, nPredict: nat)
    returns (out: Outcome)
    requires MinInputMonths <= nInput <= MaxInputMonths
    requires MinHorizon <= nPredict <= MaxHorizon
    ensures out.ModelMissing? <==> ModelFileFor(summary, state, nInput).None?
    ensures out.Forecasted? ==>
              |out.inputs| == nInput && (forall i :: 0 <= i < nInput ==> out.inputs[i] == field(i)) &&
              out.preds == Predictions(load(ModelFileFor(summary, state, nInput).value), out.inputs, nInput, nPredict) &&
              out.rows == ResultTable(nInput, out.preds)
  {
    var file := ModelFileFor(summary, state, nInput);
    var model := if file.Some? then Some(load(file.value)) else None;
    out := PredictRun(model, field, nInput, nPredict);
  }
}

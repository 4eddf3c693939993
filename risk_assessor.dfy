/** The stability gate of src/meta_controller/risk_assessor.py. The ADF and KPSS tests are
    outside the model: `tests` gives their p-values for a series of observations. */
module RiskAssessor {
  import opened Base

  const MinPoints := 20
  const Significance := 0.05
  const MetricNotFoundMessage := "Metric not found in historical data."
  const NotEnoughDataMessage := "Not enough data points for stability analysis."

  datatype RiskLevel = Low | High

  function RiskLevelName(r: RiskLevel): string
  {
    match r
    case Low => "LOW"
    case High => "HIGH"
  }

  /** The p-values of `adfuller` and `kpss` for one series. */
  datatype PValues = PValues(adf: real, kpss: real)

  /** One entry of `metric_stability`: an error, or the p-values and the verdict. */
  datatype Stability =
    | MetricNotFound
    | NotEnoughData
    | Tested(adfPvalue: real, kpssPvalue: real, isStationary: bool)

  function StabilityError(s: Stability): string
    requires !s.Tested?
  {
    if s.MetricNotFound? then MetricNotFoundMessage else NotEnoughDataMessage
  }

  datatype Assessment = Assessment(overallRiskLevel: RiskLevel, metricStability: map<string, Stability>)

  /** A column of the historical data; `None` is a missing value. */
  type Column = seq<Option<real>>

  /** `series.dropna()`. */
  function DropNa(s: Column): (r: seq<real>)
    ensures |r| <= |s|
  {
    if s == [] then []
    else if s[0].None? then DropNa(s[1..])
    else [s[0].value] + DropNa(s[1..])
  }

  /** The assessment of one metric. */
  function Assess(data: map<string, Column>, tests: seq<real> -> PValues, metric: string): Stability
  {
    if metric !in data then MetricNotFound
    else
      var series := DropNa(data[metric]);
      if |series| < MinPoints then NotEnoughData
      else
        var p := tests(series);
        Tested(p.adf, p.kpss, p.adf < Significance && p.kpss > Significance)
  }

  /** A metric that was tested and found not stationary. */
  predicate Unstable(s: Stability)
  {
    s.Tested? && !s.isStationary
  }

  /** `overall_risk_level` after the loop has seen `metrics`. */
  function Level(data: map<string, Column>, tests: seq<real> -> PValues, metrics: seq<string>): RiskLevel
  {
    if metrics == [] then Low
    else if Unstable(Assess(data, tests, metrics[|metrics| - 1])) then High
    else Level(data, tests, metrics[..|metrics| - 1])
  }

  /** `stability_scores` after the loop has seen `metrics`. */
  function Scores(data: map<string, Column>, tests: seq<real> -> PValues, metrics: seq<string>): map<string, Stability>
  {
    if metrics == [] then map[]
    else
      var last := metrics[|metrics| - 1];
      Scores(data, tests, metrics[..|metrics| - 1])[last := Assess(data, tests, last)]
  }

  /** `EnterpriseRiskAssessor` over its historical data. */
  class EnterpriseRiskAssessor {
    const historicalData: map<string, Column>

    constructor(historicalData: map<string, Column>)
      ensures this.historicalData == historicalData
    {
      this.historicalData := historicalData;
    }

    /** `assess_stability_risk`. */
    method AssessStabilityRisk(affectedMetrics: seq<string>, tests: seq<real> -> PValues) returns (r: Assessment)
      ensures r.overallRiskLevel == Level(historicalData, tests, affectedMetrics)
      ensures r.metricStability == Scores(historicalData, tests, affectedMetrics)
    {
      var stabilityScores: map<string, Stability> := map[];
      var overallRiskLevel := Low;
      var i := 0;
      while i < |affectedMetrics|
        invariant 0 <= i <= |affectedMetrics|
        invariant overallRiskLevel == Level(historicalData, tests, affectedMetrics[..i])
        invariant stabilityScores == Scores(historicalData, tests, affectedMetrics[..i])
      {
        var metric := affectedMetrics[i];
        assert affectedMetrics[..i + 1][..i] == affectedMetrics[..i];
        if metric !in historicalData {
          stabilityScores := stabilityScores[metric := MetricNotFound];
          i := i + 1;
          continue;
        }
        var series := DropNa(historicalData[metric]);
        if |series| < MinPoints {
          stabilityScores := stabilityScores[metric := NotEnoughData];
          i := i + 1;
          continue;
        }
        var p := tests(series);
        var isStationary := p.adf < Significance && p.kpss > Significance;
        if !isStationary {
          overallRiskLevel := High;
        }
        stabilityScores := stabilityScores[metric := Tested(p.adf, p.kpss, isStationary)];
        i := i + 1;
      }
      assert affectedMetrics[..i] == affectedMetrics;
      return Assessment(overallRiskLevel, stabilityScores);
    }
  }

  // ---------------------------------------------------------------------------

  /** What one metric's entry says: an error for a metric the data lacks, an error for
      fewer than 20 present values, otherwise the p-values of the present values, and
      stationary exactly when ADF rejects (p < 0.05) and KPSS does not (p > 0.05). */
  lemma AssessCases(data: map<string, Column>, tests: seq<real> -> PValues, metric: string)
    ensures Assess(data, tests, metric) == MetricNotFound <==> metric !in data
    ensures Assess(data, tests, metric) == NotEnoughData <==> metric in data && |DropNa(data[metric])| < MinPoints
    ensures Assess(data, tests, metric).Tested? ==>
      var s := Assess(data, tests, metric);
      var p := tests(DropNa(data[metric]));
      s.adfPvalue == p.adf && s.kpssPvalue == p.kpss
      && (s.isStationary <==> p.adf < 0.05 && p.kpss > 0.05)
  {
  }

  /** The overall level is HIGH exactly when some requested metric was tested and found
      not stationary; metrics with an error entry never raise it, and no metrics give LOW. */
  lemma {:induction false} HighIffSomeUnstable(data: map<string, Column>, tests: seq<real> -> PValues, metrics: seq<string>)
    ensures Level(data, tests, metrics) == High <==>
      exists i :: 0 <= i < |metrics| && Unstable(Assess(data, tests, metrics[i]))
    decreases |metrics|
  {
    if metrics != [] {
      var init := metrics[..|metrics| - 1];
      HighIffSomeUnstable(data, tests, init);
      if Level(data, tests, init) == High {
        var i :| 0 <= i < |init| && Unstable(Assess(data, tests, init[i]));
        assert metrics[i] == init[i];
      }
      if exists i :: 0 <= i < |metrics| && Unstable(Assess(data, tests, metrics[i])) {
        var i :| 0 <= i < |metrics| && Unstable(Assess(data, tests, metrics[i]));
        if i < |init| {
          assert init[i] == metrics[i];
        }
      }
    }
  }

  /** Once the level is HIGH, looking at more metrics never brings it back to LOW. */
  lemma {:induction false} LevelMonotone(data: map<string, Column>, tests: seq<real> -> PValues, metrics: seq<string>, more: seq<string>)
    requires Level(data, tests, metrics) == High
    ensures Level(data, tests, metrics + more) == High
    decreases |more|
  {
    if more != [] {
      var init := more[..|more| - 1];
      LevelMonotone(data, tests, metrics, init);
      assert (metrics + more)[..|metrics + more| - 1] == metrics + init;
    } else {
      assert metrics + more == metrics;
    }
  }

  /** Every requested metric has exactly one entry, and no other key appears; a metric
      requested twice keeps the entry of its last assessment, which is the same. */
  lemma {:induction false} ScoresCoverRequested(data: map<string, Column>, tests: seq<real> -> PValues, metrics: seq<string>)
    ensures Scores(data, tests, metrics).Keys == set m | m in metrics
    ensures forall m :: m in Scores(data, tests, metrics) ==> Scores(data, tests, metrics)[m] == Assess(data, tests, m)
    decreases |metrics|
  {
    if metrics != [] {
      var init := metrics[..|metrics| - 1];
      ScoresCoverRequested(data, tests, init);
      assert metrics == init + [metrics[|metrics| - 1]];
      assert (set m | m in metrics) == (set m | m in init) + {metrics[|metrics| - 1]};
    }
  }
}

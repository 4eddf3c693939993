/** Metric collection and static-threshold anomaly detection of
    src/meta_controller/advanced_metrics.py. The Prometheus HTTP call is an input: `fetch`
    gives the reply to a query. */
module AdvancedMetrics {
  import opened Base

  const LatencyThreshold := 1.0
  const P95Latency := "p95_latency"
  const RequestRate := "request_rate"

  datatype Anomaly = Anomaly(metric: string, value: real, threshold: real, detection: string)

  /** The metrics collected, by name; `None` is a query that failed. */
  type RawMetrics = map<string, Option<real>>

  datatype MetricsReport = MetricsReport(rawMetrics: RawMetrics, anomalies: seq<Anomaly>)

  /** One element of `data.result`: its `value[1]` read as a float, `None` when it is missing
      or does not parse. */
  datatype Sample = Sample(value: Option<real>)

  /** What Prometheus answered: a request error (including a non-2xx status), or a body
      whose `data.result` list is present or not. */
  datatype Reply = RequestError | Body(result: Option<seq<Sample>>)

  const P95QueryHead := "histogram_quantile(0.95, sum(rate(flask_http_request_duration_seconds_bucket{job=\"orchestrator\"}["
  const RateQueryHead := "sum(rate(flask_http_request_duration_seconds_count{job=\"orchestrator\"}["

  /** The two PromQL queries over `time_range`. */
  function P95Query(timeRange: string): string
  {
    P95QueryHead + timeRange + "])))"
  }

  function RateQuery(timeRange: string): string
  {
    RateQueryHead + timeRange + "]))"
  }

  /** The value one reply gives: the first result's value, 0.0 for an empty result, `None`
      on any request, key, index or value error. */
  function Shape(r: Reply): Option<real>
  {
    match r
    case RequestError => None
    case Body(None) => None
    case Body(Some(samples)) => if samples == [] then Some(0.0) else samples[0].value
  }

  /** `_detect_anomalies`: one anomaly exactly when `p95_latency` is present, not `None`,
      and above 1.0 second. */
  function DetectAnomalies(m: RawMetrics): (r: seq<Anomaly>)
  {
    if P95Latency in m && m[P95Latency].Some? && m[P95Latency].value > LatencyThreshold then
      [Anomaly(P95Latency, m[P95Latency].value, LatencyThreshold, "static_threshold")]
    else []
  }

  /** The results the loop has gathered after the given queries, each under its metric name. */
  function Collected(queries: seq<(string, string)>, fetch: string -> Reply): RawMetrics
  {
    if queries == [] then map[]
    else
      var last := queries[|queries| - 1];
      Collected(queries[..|queries| - 1], fetch)[last.0 := Shape(fetch(last.1))]
  }

  /** `_query_prometheus_metrics`: the loop over the two named queries. */
  method QueryPrometheusMetrics(timeRange: string, fetch: string -> Reply) returns (results: RawMetrics)
    ensures results.Keys == {P95Latency, RequestRate}
    ensures results[P95Latency] == Shape(fetch(P95Query(timeRange)))
    ensures results[RequestRate] == Shape(fetch(RateQuery(timeRange)))
  {
    var queries := [(P95Latency, P95Query(timeRange)), (RequestRate, RateQuery(timeRange))];
    results := map[];
    var i := 0;
    while i < |queries|
      invariant 0 <= i <= |queries|
      invariant results == Collected(queries[..i], fetch)
    {
      var (metricName, query) := queries[i];
      var reply := fetch(query);
      match reply {
        case RequestError =>
          results := results[metricName := None];
        case Body(None) =>
          results := results[metricName := None];
        case Body(Some(resultData)) =>
          if resultData != [] {
            results := results[metricName := resultData[0].value];
          } else {
            results := results[metricName := Some(0.0)];
          }
      }
      assert queries[..i + 1][..i] == queries[..i];
      i := i + 1;
    }
    assert queries[..i] == queries;
    assert queries[..1] == [(P95Latency, P95Query(timeRange))];
    assert [(P95Latency, P95Query(timeRange))][..0] == [];
  }

  /** `collect_comprehensive_metrics`: the raw metrics and the anomalies found in them. */
  method CollectComprehensiveMetrics(timeRange: string, fetch: string -> Reply) returns (report: MetricsReport)
    ensures report.rawMetrics.Keys == {P95Latency, RequestRate}
    ensures report.rawMetrics[P95Latency] == Shape(fetch(P95Query(timeRange)))
    ensures report.rawMetrics[RequestRate] == Shape(fetch(RateQuery(timeRange)))
    ensures report.anomalies == DetectAnomalies(report.rawMetrics)
  {
    var rawMetrics := QueryPrometheusMetrics(timeRange, fetch);
    var anomalies := DetectAnomalies(rawMetrics);
    return MetricsReport(rawMetrics, anomalies);
  }

  // ---------------------------------------------------------------------------

  /** At most one anomaly, present exactly when `p95_latency` is known and exceeds 1.0, and
      then recording that metric, its value, the threshold and the method. */
  lemma AnomalyIff(m: RawMetrics)
    ensures |DetectAnomalies(m)| <= 1
    ensures |DetectAnomalies(m)| == 1 <==> P95Latency in m && m[P95Latency].Some? && m[P95Latency].value > 1.0
    ensures |DetectAnomalies(m)| == 1 ==>
      DetectAnomalies(m)[0] == Anomaly("p95_latency", m[P95Latency].value, 1.0, "static_threshold")
  {
  }

  /** No metric other than `p95_latency` ever changes the verdict, and removing it leaves
      no anomaly. */
  lemma OnlyLatencyMatters(m: RawMetrics, k: string, v: Option<real>)
    requires k != P95Latency
    ensures DetectAnomalies(m[k := v]) == DetectAnomalies(m)
    ensures DetectAnomalies(m - {P95Latency}) == []
  {
  }

  /** A collection reports an anomaly exactly when the latency query answered with a value
      above the threshold; a failed latency query never does. */
  lemma CollectedAnomalyIff(timeRange: string, fetch: string -> Reply, report: MetricsReport)
    requires report.rawMetrics.Keys == {P95Latency, RequestRate}
    requires report.rawMetrics[P95Latency] == Shape(fetch(P95Query(timeRange)))
    requires report.anomalies == DetectAnomalies(report.rawMetrics)
    ensures report.anomalies != [] <==>
      var v := Shape(fetch(P95Query(timeRange)));
      v.Some? && v.value > LatencyThreshold
    ensures fetch(P95Query(timeRange)) == RequestError ==> report.anomalies == []
  {
  }
}

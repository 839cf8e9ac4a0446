/** The per-URL history summary (the aggregation half of GetHistory in internal/store/store.go). */
module History {
  import Budget
  import Stats

  /** Only this many of the newest results are read. */
  const HISTORY_LIMIT := 1000

  datatype MetricStats = MetricStats(count: nat, avg: real, p50: real, p75: real, p95: real)
  datatype Summary = Summary(testCount: nat, avgTTFB: real, avgTotal: real, metrics: map<string, MetricStats>)

  function Recent(results: seq<Budget.Metrics>): seq<Budget.Metrics> {
    if |results| <= HISTORY_LIMIT then results else results[..HISTORY_LIMIT]
  }

  /** What the statistics say about the values of one metric. */
  ghost predicate Describes(stats: MetricStats, values: seq<real>) {
    && stats.count == |values|
    && stats.avg * |values| as real == Stats.Sum(values)
    && stats.p50 == Stats.PercentileOf(values, 50.0)
    && stats.p75 == Stats.PercentileOf(values, 75.0)
    && stats.p95 == Stats.PercentileOf(values, 95.0)
  }

  function AvgOf(metrics: map<string, MetricStats>, key: string): real {
    if key in metrics then metrics[key].avg else 0.0
  }

  method Describe(values: seq<real>) returns (stats: MetricStats)
    requires values != []
    ensures Describes(stats, values)
  {
    hide Stats.PercentileOf, Stats.Sum;
    var avg := Stats.Mean(values);
    var p50 := Stats.Percentile(values, 50.0);
    var p75 := Stats.Percentile(values, 75.0);
    var p95 := Stats.Percentile(values, 95.0);
    stats := MetricStats(|values|, avg, p50, p75, p95);
  }

  /** `results` are the flattened results of a URL, newest first. */
  method GetHistory(results: seq<Budget.Metrics>) returns (h: Summary)
    ensures h.testCount == if |results| < 1000 then |results| else 1000
    ensures forall key :: key in h.metrics <==> Budget.Column(results[..h.testCount], key) != []
    ensures forall key :: key in h.metrics ==> Describes(h.metrics[key], Budget.Column(results[..h.testCount], key))
    ensures if "network.ttfb_ms" in h.metrics then h.avgTTFB == h.metrics["network.ttfb_ms"].avg else h.avgTTFB == 0.0
    ensures if "network.total_ms" in h.metrics then h.avgTotal == h.metrics["network.total_ms"].avg
      else h.avgTotal == 0.0
  {
    hide Describes, Budget.Column;
    var rows := Recent(results);
    assert rows == results[..|rows|];
    var values := Budget.Collect(rows);
    var metrics: map<string, MetricStats> := map[];
    var keys := values.Keys;
    while keys != {}
      invariant keys <= values.Keys
      invariant metrics.Keys == values.Keys - keys
      invariant forall key :: key in metrics ==> Describes(metrics[key], values[key])
    {
      var key :| key in keys;
      keys := keys - {key};
      var stats := Describe(values[key]);
      metrics := metrics[key := stats];
    }
    forall key
      ensures key in metrics <==> Budget.Column(rows, key) != []
      ensures key in metrics ==> values[key] == Budget.Column(rows, key)
    {
      assert Budget.Entry(values, key) == Budget.Column(rows, key);
    }
    h := Summary(|rows|, AvgOf(metrics, "network.ttfb_ms"), AvgOf(metrics, "network.total_ms"), metrics);
  }

  /** Every reported line is ordered: smallest value, P50, P75, P95, largest value; the average lies between as well. */
  lemma LinesAreOrdered(stats: MetricStats, values: seq<real>, lo: real, hi: real)
    requires Describes(stats, values)
    requires values != [] && forall i :: 0 <= i < |values| ==> lo <= values[i] <= hi
    ensures lo <= stats.p50 <= stats.p75 <= stats.p95 <= hi
    ensures lo <= stats.avg <= hi
  {
    hide Stats.PercentileOf, Stats.Sum;
    Stats.PercentileInRange(values, 50.0, lo, hi);
    Stats.PercentileInRange(values, 95.0, lo, hi);
    Stats.PercentileMonotoneInP(values, 50.0, 75.0);
    Stats.PercentileMonotoneInP(values, 75.0, 95.0);
    Stats.MeanInRange(values, stats.avg, lo, hi);
  }
}

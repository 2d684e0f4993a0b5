/** The in-process request counters of the prediction service (`MetricsCollector` in src/api/app.py). */
module Metrics {
  import opened Wrappers

  /** `sum(xs)`, adding left to right. */
  function Sum(xs: seq<real>): real
  {
    if |xs| == 0 then 0.0 else Sum(xs[..|xs| - 1]) + xs[|xs| - 1]
  }

  /** The average response time as `get_metrics` computes it: 0 for no samples, otherwise sum over count. */
  function Mean(xs: seq<real>): (m: real)
    ensures |xs| == 0 ==> m == 0.0
    ensures |xs| > 0 ==> m * (|xs| as real) == Sum(xs)
  {
    if |xs| == 0 then 0.0 else Sum(xs) / (|xs| as real)
  }

  /** The success rate as `get_metrics` computes it: 0 with no requests, otherwise successful over total. */
  function SuccessRate(successful: nat, total: nat): (rate: real)
    ensures total == 0 ==> rate == 0.0
    ensures total > 0 ==> rate * (total as real) == successful as real
  {
    if total > 0 then (successful as real) / (total as real) else 0.0
  }

  /** With no more successes than requests, the rate is a fraction, and it is 1 exactly when every request succeeded. */
  lemma SuccessRateBounds(successful: nat, total: nat)
    requires successful <= total
    ensures 0.0 <= SuccessRate(successful, total) <= 1.0
    ensures SuccessRate(successful, total) == 1.0 <==> total > 0 && successful == total
  {
    if total > 0 {
      var t, k := total as real, successful as real;
      var rate := SuccessRate(successful, total);
      assert rate == k / t;
      assert (rate - 1.0) * t == k - t;
      assert rate * t == k;
      FractionBounds(rate, k, t);
    }
  }

  /** A multiple `rate` of a positive `t` that lands in [0, t] has `rate` in [0, 1], and equals 1 exactly at `t`. */
  lemma FractionBounds(rate: real, k: real, t: real)
    requires t > 0.0 && 0.0 <= k <= t && rate * t == k
    ensures 0.0 <= rate <= 1.0
    ensures rate == 1.0 <==> k == t
  {
  }

  /** Samples between `lo` and `hi` sum to between `|xs| * lo` and `|xs| * hi`. */
  lemma {:induction false} SumBounds(xs: seq<real>, lo: real, hi: real)
    requires forall i :: 0 <= i < |xs| ==> lo <= xs[i] <= hi
    ensures (|xs| as real) * lo <= Sum(xs) <= (|xs| as real) * hi
  {
    if |xs| > 0 {
      var init := xs[..|xs| - 1];
      assert forall i :: 0 <= i < |init| ==> init[i] == xs[i];
      SumBounds(init, lo, hi);
      assert (|xs| as real) * lo == (|init| as real) * lo + lo;
      assert (|xs| as real) * hi == (|init| as real) * hi + hi;
    }
  }

  /** The average of samples between `lo` and `hi` lies between them. */
  lemma MeanBounds(xs: seq<real>, lo: real, hi: real)
    requires |xs| > 0
    requires forall i :: 0 <= i < |xs| ==> lo <= xs[i] <= hi
    ensures lo <= Mean(xs) <= hi
  {
    SumBounds(xs, lo, hi);
    var n := |xs| as real;
    var m := Mean(xs);
    assert m * n == Sum(xs);
  }

  /** The dict `get_metrics` returns. */
  datatype MetricsReport = MetricsReport(
    totalRequests: nat,
    successfulPredictions: nat,
    failedPredictions: nat,
    successRate: real,
    avgResponseTimeMs: real,
    uptimeSeconds: real,
    modelVersion: string)

  class MetricsCollector {
    var totalRequests: nat
    var successfulPredictions: nat
    var failedPredictions: nat
    var responseTimes: seq<real>
    var startTime: real

    /** Every request is counted once as a success or a failure and has one recorded response time. */
    ghost predicate Valid()
      reads this
    {
      && totalRequests == successfulPredictions + failedPredictions
      && |responseTimes| == totalRequests
    }

    /** `__init__`: all counters zero, no samples, started at the clock reading `clock`. */
    constructor (clock: real)
      ensures Valid()
      ensures totalRequests == 0 && successfulPredictions == 0 && failedPredictions == 0
      ensures responseTimes == [] && startTime == clock
    {
      totalRequests, successfulPredictions, failedPredictions := 0, 0, 0;
      responseTimes := [];
      startTime := clock;
    }

    /** `record_request`: one more request, its response time appended, and exactly one outcome counter bumped. */
    method RecordRequest(responseTimeMs: real, success: bool)
      requires Valid()
      modifies this
      ensures Valid()
      ensures totalRequests == old(totalRequests) + 1
      ensures responseTimes == old(responseTimes) + [responseTimeMs]
      ensures success ==> successfulPredictions == old(successfulPredictions) + 1 && failedPredictions == old(failedPredictions)
      ensures !success ==> failedPredictions == old(failedPredictions) + 1 && successfulPredictions == old(successfulPredictions)
      ensures startTime == old(startTime)
    {
      totalRequests := totalRequests + 1;
      responseTimes := responseTimes + [responseTimeMs];
      if success {
        successfulPredictions := successfulPredictions + 1;
      } else {
        failedPredictions := failedPredictions + 1;
      }
    }

    /** `get_metrics` at the clock reading `clock`; `modelVersion` is the loaded model's version, if any. */
    method GetMetrics(clock: real, modelVersion: Option<string>) returns (m: MetricsReport)
      requires Valid()
      ensures m.totalRequests == totalRequests
      ensures m.successfulPredictions == successfulPredictions && m.failedPredictions == failedPredictions
      ensures m.totalRequests == m.successfulPredictions + m.failedPredictions
      ensures totalRequests == 0 ==> m.successRate == 0.0 && m.avgResponseTimeMs == 0.0
      ensures totalRequests > 0 ==> m.successRate * (totalRequests as real) == successfulPredictions as real
      ensures 0.0 <= m.successRate <= 1.0
      ensures m.successRate == SuccessRate(successfulPredictions, totalRequests)
      ensures m.avgResponseTimeMs == Mean(responseTimes)
      ensures m.uptimeSeconds == clock - startTime
      ensures m.modelVersion == modelVersion.GetOr("unknown")
    {
      var uptime := clock - startTime;
      var avg := Mean(responseTimes);
      var rate := SuccessRate(successfulPredictions, totalRequests);
      SuccessRateBounds(successfulPredictions, totalRequests);
      m := MetricsReport(totalRequests, successfulPredictions, failedPredictions, rate, avg, uptime,
                         modelVersion.GetOr("unknown"));
    }
  }
}

// The metrics collector of the scoring service and the component health
// check. The collector's own counters and the gauges it sets are modelled
// as fields of one object; uptime is measured against a clock value passed
// in by the caller.

module Monitoring {
  import opened Base
  import opened Scoring
  import opened ProfileStore

  /** What `get_summary` reports. */
  datatype Summary = Summary(
    uptimeSeconds: real,
    totalPredictions: int,
    fraudDetected: int,
    fraudRatePercent: real,
    avgFraudProbability: real)

  /** The collector's counters and the gauges it writes. */
  datatype MetricsState = MetricsState(
    startTime: real,
    predictionCount: int,
    fraudCount: int,
    totalFraudProbability: real,
    fraudRateGauge: real,
    avgProbabilityGauge: real,
    cacheHitRateGauge: real,
    componentStatus: map<string, real>,
    errors: map<string, int>)

  /** Counters start at zero and a fraud is always also a prediction. */
  predicate Counting(s: MetricsState)
  {
    0 <= s.fraudCount <= s.predictionCount
  }

  function FraudRatePercent(fraud: int, count: int): real
  {
    if count > 0 then fraud as real / count as real * 100.0 else 0.0
  }

  function AverageProbability(total: real, count: int): real
  {
    if count > 0 then total / count as real else 0.0
  }

  /** `_update_gauges`: recomputed only once there is a prediction. */
  function WithGauges(s: MetricsState): MetricsState
  {
    if s.predictionCount > 0 then
      s.(fraudRateGauge := FraudRatePercent(s.fraudCount, s.predictionCount),
         avgProbabilityGauge := AverageProbability(s.totalFraudProbability, s.predictionCount))
    else s
  }

  function AfterRecordPrediction(s: MetricsState, isFraud: bool, p: real): MetricsState
  {
    WithGauges(s.(predictionCount := s.predictionCount + 1,
                  fraudCount := s.fraudCount + (if isFraud then 1 else 0),
                  totalFraudProbability := s.totalFraudProbability + p))
  }

  function AfterReset(s: MetricsState): MetricsState
  {
    s.(predictionCount := 0, fraudCount := 0, totalFraudProbability := 0.0)
  }

  /** The component gauge is set to 1.0 when healthy, else 0.0. */
  function AfterComponentStatus(s: MetricsState, component: string, healthy: bool): MetricsState
  {
    s.(componentStatus := s.componentStatus[component := Flag(healthy)])
  }

  function AfterError(s: MetricsState, errorType: string): MetricsState
  {
    s.(errors := s.errors[errorType := (if errorType in s.errors then s.errors[errorType] else 0) + 1])
  }

  function SummaryOf(s: MetricsState, now: real): (r: Summary)
  {
    Summary(
      now - s.startTime,
      s.predictionCount,
      s.fraudCount,
      FraudRatePercent(s.fraudCount, s.predictionCount),
      AverageProbability(s.totalFraudProbability, s.predictionCount))
  }

  /** Every fraud also counts as a prediction, so the invariant survives each update. */
  lemma RecordKeepsCounting(s: MetricsState, isFraud: bool, p: real)
    requires Counting(s)
    ensures Counting(AfterRecordPrediction(s, isFraud, p))
    ensures Counting(AfterReset(s))
  {
  }

  /**
   * Recording adds one prediction, one fraud exactly when flagged and the
   * probability to the running total, and then the gauges show the summary's
   * figures.
   */
  lemma RecordPredictionEffect(s: MetricsState, isFraud: bool, p: real, now: real)
    ensures var t := AfterRecordPrediction(s, isFraud, p);
      && t.predictionCount == s.predictionCount + 1
      && t.fraudCount == s.fraudCount + (if isFraud then 1 else 0)
      && t.totalFraudProbability == s.totalFraudProbability + p
      && t.componentStatus == s.componentStatus && t.errors == s.errors
      && t.cacheHitRateGauge == s.cacheHitRateGauge
    ensures s.predictionCount >= 0 ==>
      var t := AfterRecordPrediction(s, isFraud, p);
      && t.fraudRateGauge == SummaryOf(t, now).fraudRatePercent
      && t.avgProbabilityGauge == SummaryOf(t, now).avgFraudProbability
  {
  }

  /** With no prediction yet, recomputing the gauges leaves them as they were. */
  lemma GaugesNeedPredictions(s: MetricsState)
    requires s.predictionCount <= 0
    ensures WithGauges(s) == s
  {
  }

  /**
   * The fraud rate is a percentage and, while every recorded probability
   * lies in [0, 1], so does their average.
   */
  lemma SummaryRanges(s: MetricsState, now: real)
    requires Counting(s)
    requires 0.0 <= s.totalFraudProbability <= s.predictionCount as real
    ensures 0.0 <= SummaryOf(s, now).fraudRatePercent <= 100.0
    ensures 0.0 <= SummaryOf(s, now).avgFraudProbability <= 1.0
    ensures s.predictionCount == 0 ==> SummaryOf(s, now).fraudRatePercent == 0.0 && SummaryOf(s, now).avgFraudProbability == 0.0
  {
    if s.predictionCount > 0 {
      var n := s.predictionCount as real;
      assert s.fraudCount as real / n <= 1.0;
      assert s.totalFraudProbability / n <= 1.0;
    }
  }

  /** A probability in [0, 1] keeps the running total within [0, count]. */
  lemma RecordKeepsProbabilityTotal(s: MetricsState, isFraud: bool, p: real)
    requires 0.0 <= s.totalFraudProbability <= s.predictionCount as real
    requires 0.0 <= p <= 1.0
    ensures var t := AfterRecordPrediction(s, isFraud, p);
      0.0 <= t.totalFraudProbability <= t.predictionCount as real
  {
  }

  /** After a reset the summary reports zeros again; the gauges keep their last values. */
  lemma ResetSummary(s: MetricsState, now: real)
    ensures var r := SummaryOf(AfterReset(s), now);
      r.totalPredictions == 0 && r.fraudDetected == 0 && r.fraudRatePercent == 0.0 && r.avgFraudProbability == 0.0
    ensures AfterReset(s).fraudRateGauge == s.fraudRateGauge && AfterReset(s).avgProbabilityGauge == s.avgProbabilityGauge
  {
  }

  class MetricsCollector {
    var startTime: real
    var predictionCount: int
    var fraudCount: int
    var totalFraudProbability: real
    var fraudRateGauge: real
    var avgProbabilityGauge: real
    var cacheHitRateGauge: real
    var componentStatus: map<string, real>
    var errors: map<string, int>

    function State(): MetricsState
      reads this
    {
      MetricsState(startTime, predictionCount, fraudCount, totalFraudProbability, fraudRateGauge,
                   avgProbabilityGauge, cacheHitRateGauge, componentStatus, errors)
    }

    predicate Valid()
      reads this
    {
      Counting(State())
    }

    /** A fresh collector started at clock value `now`; the gauges start at 0. */
    constructor(now: real)
      ensures Valid()
      ensures State() == MetricsState(now, 0, 0, 0.0, 0.0, 0.0, 0.0, map[], map[])
    {
      startTime := now;
      predictionCount := 0;
      fraudCount := 0;
      totalFraudProbability := 0.0;
      fraudRateGauge := 0.0;
      avgProbabilityGauge := 0.0;
      cacheHitRateGauge := 0.0;
      componentStatus := map[];
      errors := map[];
    }

    /** `_update_gauges`. */
    method UpdateGauges()
      modifies this
      ensures State() == WithGauges(old(State()))
    {
      if predictionCount > 0 {
        fraudRateGauge := fraudCount as real / predictionCount as real * 100.0;
        avgProbabilityGauge := totalFraudProbability / predictionCount as real;
      }
    }

    /** `record_prediction`; the processing time only feeds a histogram. */
    method RecordPrediction(isFraud: bool, p: real, processingSeconds: real)
      requires Valid()
      modifies this
      ensures Valid()
      ensures State() == AfterRecordPrediction(old(State()), isFraud, p)
    {
      RecordKeepsCounting(State(), isFraud, p);
      predictionCount := predictionCount + 1;
      if isFraud {
        fraudCount := fraudCount + 1;
      }
      totalFraudProbability := totalFraudProbability + p;
      UpdateGauges();
    }

    /** `record_error`: one more error of the given type. */
    method RecordError(errorType: string)
      requires Valid()
      modifies this
      ensures Valid()
      ensures State() == AfterError(old(State()), errorType)
    {
      var n := if errorType in errors then errors[errorType] else 0;
      errors := errors[errorType := n + 1];
    }

    /** `update_cache_metrics`. */
    method UpdateCacheMetrics(hitRate: real)
      requires Valid()
      modifies this
      ensures Valid()
      ensures State() == old(State()).(cacheHitRateGauge := hitRate)
    {
      cacheHitRateGauge := hitRate;
    }

    /** `update_component_status`. */
    method UpdateComponentStatus(component: string, healthy: bool)
      requires Valid()
      modifies this
      ensures Valid()
      ensures State() == AfterComponentStatus(old(State()), component, healthy)
    {
      componentStatus := componentStatus[component := if healthy then 1.0 else 0.0];
    }

    /** `get_summary`, with uptime measured up to clock value `now`. */
    method GetSummary(now: real) returns (r: Summary)
      requires Valid()
      ensures r == SummaryOf(State(), now)
      ensures r.totalPredictions == predictionCount && r.fraudDetected <= r.totalPredictions
      ensures predictionCount > 0 ==> r.fraudRatePercent * predictionCount as real == fraudCount as real * 100.0
      ensures predictionCount > 0 ==> r.avgFraudProbability * predictionCount as real == totalFraudProbability
    {
      var rate := if predictionCount > 0 then fraudCount as real / predictionCount as real * 100.0 else 0.0;
      var avg := if predictionCount > 0 then totalFraudProbability / predictionCount as real else 0.0;
      r := Summary(now - startTime, predictionCount, fraudCount, rate, avg);
    }

    /** `reset_metrics`: the three counters back to zero. */
    method ResetMetrics()
      requires Valid()
      modifies this
      ensures Valid()
      ensures State() == AfterReset(old(State()))
    {
      predictionCount := 0;
      fraudCount := 0;
      totalFraudProbability := 0.0;
    }
  }

  // ---------------------------------------------------------------------
  // Health check

  datatype ComponentHealth = ComponentHealth(api: bool, model: bool, redis: bool)

  function AllHealthy(h: ComponentHealth): bool
  {
    h.api && h.model && h.redis
  }

  /**
   * `perform_full_health_check`: the API is up because the check runs; a
   * missing model or store client counts as down; otherwise each reports
   * its own check.
   */
  method PerformFullHealthCheck(collector: MetricsCollector, model: Option<FraudModel>, redis: RedisClient?)
    returns (h: ComponentHealth)
    requires collector.Valid()
    modifies collector
    ensures collector.Valid()
    ensures h.api
    ensures h.model <==> model.Some? && IsLoaded(model.value)
    ensures h.redis <==> redis != null && redis.reachable
    ensures collector.State() ==
      AfterComponentStatus(AfterComponentStatus(AfterComponentStatus(old(collector.State()),
        "api", h.api), "model", h.model), "redis", h.redis)
  {
    var modelUp := if model.Some? then IsLoaded(model.value) else false;
    var redisUp := false;
    if redis != null {
      redisUp := redis.IsHealthy();
    }
    h := ComponentHealth(true, modelUp, redisUp);
    collector.UpdateComponentStatus("api", h.api);
    collector.UpdateComponentStatus("model", h.model);
    collector.UpdateComponentStatus("redis", h.redis);
  }

  /** After a health check each component's gauge reads 1.0 exactly when it is healthy. */
  lemma HealthGauges(s: MetricsState, h: ComponentHealth)
    ensures var t := AfterComponentStatus(AfterComponentStatus(AfterComponentStatus(s,
        "api", h.api), "model", h.model), "redis", h.redis);
      && (t.componentStatus["api"] == 1.0 <==> h.api)
      && (t.componentStatus["model"] == 1.0 <==> h.model)
      && (t.componentStatus["redis"] == 1.0 <==> h.redis)
      && (forall c :: c in t.componentStatus ==> t.componentStatus[c] == 0.0 || t.componentStatus[c] == 1.0 || c in s.componentStatus)
  {
  }
}

// The request handlers of the scoring service: single and batch prediction,
// the user-history lookup and the health report. Each handler is stated as
// a function from the store and metrics state it starts in to its response
// and the states it leaves behind, and the handler methods are proved to
// follow those functions step by step.

module Api {
  import opened Base
  import opened Domain
  import opened Features
  import opened Scoring
  import opened ProfileStore
  import opened Monitoring

  /** A handler's answer: the response body, or an HTTP error status. */
  datatype Response<T> = Served(value: T) | Failed(status: int)

  /** Rejected request bodies (field validation before the handler runs). */
  const UnprocessableEntity: int := 422
  /** A value error raised while predicting. */
  const BadRequest: int := 400
  const NotFound: int := 404
  /** Anything else, including the not-loaded check's 503, which the handler's own catch-all turns into 500. */
  const InternalError: int := 500

  const PredictionErrorType: string := "prediction_error"
  const BatchPredictionErrorType: string := "batch_prediction_error"

  // ---------------------------------------------------------------------
  // Single prediction

  /** The store writes after a fresh prediction: cache, save, count; returns the state the hit rate is read from. */
  function StoreAfterWrites(s: StoreState, tx: Transaction, p: FraudPrediction, now: Instant): StoreState
  {
    var cached := AfterCache(s, tx.transactionId, p, CacheTtl);
    var saved := Save(cached, tx.userId, tx, p.isFraud, now).1;
    AfterIncrementPredictions(saved)
  }

  /**
   * `predict_fraud`, given the history the store returns for the user:
   * request validation, then the loaded check, then the cache, then one
   * prediction followed by the cache write, the save, the counters, the
   * hit-rate gauge and the response time.
   */
  function HandlePredict(model: FraudModel, s: StoreState, ms: MetricsState, tx: Transaction,
                         h: Option<UserHistory>, now: Instant, num: Numerics, elapsedMs: real)
    : (Response<FraudPrediction>, StoreState, MetricsState)
  {
    if !ValidTransaction(tx) then (Failed(UnprocessableEntity), s, ms)
    else if !IsLoaded(model) then (Failed(InternalError), s, AfterError(ms, PredictionErrorType))
    else
      var afterLookup := AfterLookup(s, tx.transactionId);
      match LookupResult(s, tx.transactionId)
      case Some(cached) => (Served(cached), afterLookup, ms)
      case None =>
        match Predict(model, tx, Read(h), now, num, elapsedMs)
        case Err(_) => (Failed(BadRequest), afterLookup, ms)
        case Ok(p) => FreshOutcome(ms, p, StoreAfterWrites(afterLookup, tx, p, now))
  }

  /**
   * The end of a fresh prediction, once the cache, save and counter writes
   * left `written`: the metrics record, the hit-rate gauge read from
   * `written`, then the response time.
   */
  function FreshOutcome(ms: MetricsState, p: FraudPrediction, written: StoreState)
    : (Response<FraudPrediction>, StoreState, MetricsState)
  {
    var recorded := AfterRecordPrediction(ms, p.isFraud, p.fraudProbability);
    (Served(p), AfterResponseTime(written, p.processingTimeMs),
     recorded.(cacheHitRateGauge := ReportedHitRate(written)))
  }

  /** Body validation rejects the request before anything is read or written. */
  lemma PredictRejectsInvalidBody(model: FraudModel, s: StoreState, ms: MetricsState, tx: Transaction,
                                  h: Option<UserHistory>, now: Instant, num: Numerics, elapsedMs: real)
    requires !(0.0 < tx.amount <= MaxAmount)
    ensures HandlePredict(model, s, ms, tx, h, now, num, elapsedMs) == (Failed(422), s, ms)
  {
  }

  /**
   * An unloaded model is refused before the store is touched; the refusal is
   * caught by the handler's catch-all, so it is answered with 500 and
   * counted as a prediction error.
   */
  lemma PredictRejectsUnloadedModel(model: FraudModel, s: StoreState, ms: MetricsState, tx: Transaction,
                                    h: Option<UserHistory>, now: Instant, num: Numerics, elapsedMs: real)
    requires ValidTransaction(tx) && !IsLoaded(model)
    ensures var (r, s', ms') := HandlePredict(model, s, ms, tx, h, now, num, elapsedMs);
      && r == Failed(500) && s' == s
      && ms'.errors[PredictionErrorType] == (if PredictionErrorType in ms.errors then ms.errors[PredictionErrorType] else 0) + 1
      && ms'.predictionCount == ms.predictionCount
  {
  }

  /**
   * A cache hit answers with the cached prediction and changes nothing but
   * the hit counter: no prediction, no cache write, no save, no counters.
   */
  lemma CacheHitShortCircuits(model: FraudModel, s: StoreState, ms: MetricsState, tx: Transaction,
                              h: Option<UserHistory>, now: Instant, num: Numerics, elapsedMs: real)
    requires ValidTransaction(tx) && IsLoaded(model)
    requires s.reachable && PredictionKey(tx.transactionId) in s.predictions
    ensures var (r, s', ms') := HandlePredict(model, s, ms, tx, h, now, num, elapsedMs);
      && r == Served(s.predictions[PredictionKey(tx.transactionId)].prediction)
      && s' == s.(cacheHits := s.cacheHits + 1)
      && ms' == ms
  {
  }

  /**
   * On a miss the handler predicts once and then caches the prediction for
   * an hour, saves the transaction at the head of the user's list with the
   * prediction's verdict, counts one prediction and records it in the
   * metrics.
   */
  lemma CacheMissPipeline(model: FraudModel, s: StoreState, ms: MetricsState, tx: Transaction,
                          h: Option<UserHistory>, now: Instant, num: Numerics, elapsedMs: real)
    requires ValidTransaction(tx) && IsLoaded(model)
    requires s.reachable && PredictionKey(tx.transactionId) !in s.predictions
    requires Predict(model, tx, Read(h), now, num, elapsedMs).Ok?
    ensures var p := Predict(model, tx, Read(h), now, num, elapsedMs).value;
      var (r, s', ms') := HandlePredict(model, s, ms, tx, h, now, num, elapsedMs);
      && r == Served(p)
      && s'.predictions[PredictionKey(tx.transactionId)] == CacheEntry(p, 3600)
      && ListOf(s'.transactions, tx.userId)[0] == SavedTransaction(tx, p.isFraud, now)
      && s'.totalPredictions == s.totalPredictions + 1
      && s'.cacheMisses == s.cacheMisses + 1 && s'.cacheHits == s.cacheHits
      && s'.responseTimes[0] == elapsedMs
      && ms'.predictionCount == ms.predictionCount + 1
      && ms'.fraudCount == ms.fraudCount + (if p.isFraud then 1 else 0)
  {
    var p := Predict(model, tx, Read(h), now, num, elapsedMs).value;
    HandleFresh(model, s, ms, tx, h, now, num, elapsedMs, p);
    FreshWrites(AfterLookup(s, tx.transactionId), tx, p, now);
  }

  /** On a cache miss the handler answers with the fresh prediction, written and recorded. */
  lemma HandleFresh(model: FraudModel, s: StoreState, ms: MetricsState, tx: Transaction,
                    h: Option<UserHistory>, now: Instant, num: Numerics, elapsedMs: real, p: FraudPrediction)
    requires ValidTransaction(tx) && IsLoaded(model)
    requires s.reachable && PredictionKey(tx.transactionId) !in s.predictions
    requires Predict(model, tx, Read(h), now, num, elapsedMs) == Ok(p)
    ensures var written := StoreAfterWrites(AfterLookup(s, tx.transactionId), tx, p, now);
      HandlePredict(model, s, ms, tx, h, now, num, elapsedMs)
      == (Served(p), AfterResponseTime(written, p.processingTimeMs),
          AfterRecordPrediction(ms, p.isFraud, p.fraudProbability).(cacheHitRateGauge := ReportedHitRate(written)))
  {
  }

  /** The writes after a fresh prediction, from a reachable store. */
  lemma FreshWrites(s: StoreState, tx: Transaction, p: FraudPrediction, now: Instant)
    requires s.reachable
    ensures var s' := AfterResponseTime(StoreAfterWrites(s, tx, p, now), p.processingTimeMs);
      && s'.predictions[PredictionKey(tx.transactionId)] == CacheEntry(p, 3600)
      && ListOf(s'.transactions, tx.userId)[0] == SavedTransaction(tx, p.isFraud, now)
      && s'.totalPredictions == s.totalPredictions + 1
      && s'.cacheMisses == s.cacheMisses && s'.cacheHits == s.cacheHits
      && s'.responseTimes[0] == p.processingTimeMs
  {
    var cached := AfterCache(s, tx.transactionId, p, CacheTtl);
    SaveWindow(cached, tx.userId, tx, p.isFraud, now);
    SaveStats(cached, tx.userId, tx, p.isFraud, now);
  }

  /** A value error raised while predicting is a 400, not counted as an error, with nothing written. */
  lemma PredictValueErrorIs400(model: FraudModel, s: StoreState, ms: MetricsState, tx: Transaction,
                               h: Option<UserHistory>, now: Instant, num: Numerics, elapsedMs: real)
    requires ValidTransaction(tx) && IsLoaded(model) && LookupResult(s, tx.transactionId).None?
    requires Predict(model, tx, Read(h), now, num, elapsedMs).Err?
    ensures HandlePredict(model, s, ms, tx, h, now, num, elapsedMs) ==
      (Failed(400), AfterLookup(s, tx.transactionId), ms)
  {
  }

  /** The writes after a fresh prediction keep both invariants, and the hit rate gauge stays in [0, 1]. */
  lemma FreshPredictionKeepsInvariants(s: StoreState, ms: MetricsState, tx: Transaction, p: FraudPrediction, now: Instant)
    requires Consistent(s) && Counting(ms)
    ensures Consistent(StoreAfterWrites(s, tx, p, now))
    ensures Consistent(AfterResponseTime(StoreAfterWrites(s, tx, p, now), p.processingTimeMs))
    ensures Counting(AfterRecordPrediction(ms, p.isFraud, p.fraudProbability))
    ensures 0.0 <= ReportedHitRate(StoreAfterWrites(s, tx, p, now)) <= 1.0
  {
    var cached := AfterCache(s, tx.transactionId, p, CacheTtl);
    CacheKeepsConsistency(s, tx.transactionId, p, CacheTtl);
    SaveKeepsConsistency(cached, tx.userId, tx, p.isFraud, now);
    var written := StoreAfterWrites(s, tx, p, now);
    assert Consistent(written);
    RecordKeepsCounting(ms, p.isFraud, p.fraudProbability);
  }

  // ---------------------------------------------------------------------
  // Batch prediction

  /** Saving each transaction with its prediction's verdict, in order. */
  function SaveAll(s: StoreState, txs: seq<Transaction>, preds: seq<FraudPrediction>, now: Instant): StoreState
    requires |txs| == |preds|
    decreases |txs|
  {
    if |txs| == 0 then s
    else
      var n := |txs| - 1;
      Save(SaveAll(s, txs[..n], preds[..n], now), txs[n].userId, txs[n], preds[n].isFraud, now).1
  }

  /** Recording each prediction in the metrics, in order. */
  function RecordAll(ms: MetricsState, preds: seq<FraudPrediction>): MetricsState
    decreases |preds|
  {
    if |preds| == 0 then ms
    else
      var n := |preds| - 1;
      AfterRecordPrediction(RecordAll(ms, preds[..n]), preds[n].isFraud, preds[n].fraudProbability)
  }

  /** `n` successive prediction-counter increments. */
  function Increments(s: StoreState, n: nat): StoreState
  {
    if n == 0 then s else AfterIncrementPredictions(Increments(s, n - 1))
  }

  /** How many predictions say fraud. */
  function FraudCount(preds: seq<FraudPrediction>): (n: nat)
    ensures n <= |preds|
    decreases |preds|
  {
    if |preds| == 0 then 0
    else FraudCount(preds[..|preds| - 1]) + (if preds[|preds| - 1].isFraud then 1 else 0)
  }

  /** Each transaction paired with the history read for its user. */
  function BatchItems(txs: seq<Transaction>, hs: seq<Option<UserHistory>>): (items: seq<(Transaction, HistoryContext)>)
    requires |hs| == |txs|
    ensures |items| == |txs|
    ensures forall i :: 0 <= i < |txs| ==> items[i] == (txs[i], Read(hs[i]))
  {
    seq(|txs|, i requires 0 <= i < |txs| => (txs[i], Read(hs[i])))
  }

  predicate AllValid(txs: seq<Transaction>)
  {
    forall i :: 0 <= i < |txs| ==> ValidTransaction(txs[i])
  }

  /**
   * `predict_batch`, given the histories read for each user before the batch
   * and the elapsed batch time: body validation, the loaded check, all
   * predictions, then a save and a metrics record per prediction, then one
   * counter increment per prediction. There is no cache lookup.
   */
  function HandleBatch(model: FraudModel, s: StoreState, ms: MetricsState, txs: seq<Transaction>,
                       hs: seq<Option<UserHistory>>, now: Instant, num: Numerics, elapsedMs: real, totalMs: real)
    : (Response<BatchPredictionResponse>, StoreState, MetricsState)
    requires |hs| == |txs|
  {
    if ValidateBatch(txs).Err? || !AllValid(txs) then (Failed(UnprocessableEntity), s, ms)
    else if !IsLoaded(model) then (Failed(InternalError), s, AfterError(ms, BatchPredictionErrorType))
    else
      match PredictAll(model, BatchItems(txs, hs), now, num, elapsedMs)
      case Err(_) => (Failed(InternalError), s, AfterError(ms, BatchPredictionErrorType))
      case Ok(preds) =>
        (Served(BatchPredictionResponse(|preds|, FraudCount(preds), preds, totalMs)),
         Increments(SaveAll(s, txs, preds, now), |preds|),
         RecordAll(ms, preds))
  }

  lemma {:induction false} RecordAllCounts(ms: MetricsState, preds: seq<FraudPrediction>)
    ensures RecordAll(ms, preds).predictionCount == ms.predictionCount + |preds|
    ensures RecordAll(ms, preds).fraudCount == ms.fraudCount + FraudCount(preds)
    ensures Counting(ms) ==> Counting(RecordAll(ms, preds))
    decreases |preds|
  {
    if |preds| > 0 {
      var n := |preds| - 1;
      RecordAllCounts(ms, preds[..n]);
      if Counting(ms) {
        RecordKeepsCounting(RecordAll(ms, preds[..n]), preds[n].isFraud, preds[n].fraudProbability);
      }
    }
  }

  lemma {:induction false} IncrementsAdd(s: StoreState, n: nat)
    ensures s.reachable ==> Increments(s, n).totalPredictions == s.totalPredictions + n
    ensures !s.reachable ==> Increments(s, n) == s
    ensures Increments(s, n).(totalPredictions := s.totalPredictions) == s
    ensures Consistent(s) ==> Consistent(Increments(s, n))
  {
    if n > 0 {
      IncrementsAdd(s, n - 1);
    }
  }

  /** One more step of the batch's save loop. */
  lemma BatchStep(s: StoreState, ms: MetricsState, txs: seq<Transaction>, preds: seq<FraudPrediction>, now: Instant, i: nat)
    requires |txs| == |preds| && i < |txs|
    ensures SaveAll(s, txs[..i + 1], preds[..i + 1], now) ==
      Save(SaveAll(s, txs[..i], preds[..i], now), txs[i].userId, txs[i], preds[i].isFraud, now).1
    ensures RecordAll(ms, preds[..i + 1]) ==
      AfterRecordPrediction(RecordAll(ms, preds[..i]), preds[i].isFraud, preds[i].fraudProbability)
    ensures FraudCount(preds[..i + 1]) == FraudCount(preds[..i]) + (if preds[i].isFraud then 1 else 0)
  {
    assert txs[..i + 1][..i] == txs[..i] && preds[..i + 1][..i] == preds[..i];
  }

  /** The statistics count of a user, 0 without statistics. */
  function SavedCount(s: StoreState, u: string): int
  {
    if u in s.stats then s.stats[u].totalTransactions else 0
  }

  /** The number of batch transactions belonging to `u`. */
  function Occurrences(txs: seq<Transaction>, u: string): (n: nat)
    ensures n <= |txs|
    decreases |txs|
  {
    if |txs| == 0 then 0
    else Occurrences(txs[..|txs| - 1], u) + (if txs[|txs| - 1].userId == u then 1 else 0)
  }

  /**
   * Saving a batch saves every transaction once: each user's count grows by
   * the number of its transactions in the batch, and the cache, its
   * counters and the prediction counter are left alone.
   */
  lemma {:induction false} SaveAllCounts(s: StoreState, txs: seq<Transaction>, preds: seq<FraudPrediction>,
                                         now: Instant, u: string)
    requires |txs| == |preds| && s.reachable
    ensures SavedCount(SaveAll(s, txs, preds, now), u) == SavedCount(s, u) + Occurrences(txs, u)
    ensures var t := SaveAll(s, txs, preds, now);
      && t.reachable && t.predictions == s.predictions && t.cacheHits == s.cacheHits && t.cacheMisses == s.cacheMisses
      && t.totalPredictions == s.totalPredictions && t.responseTimes == s.responseTimes
    decreases |txs|
  {
    if |txs| > 0 {
      var n := |txs| - 1;
      SaveAllCounts(s, txs[..n], preds[..n], now, u);
      SaveCount(SaveAll(s, txs[..n], preds[..n], now), txs[n], preds[n].isFraud, now, u);
    }
  }

  /** One save adds one to its own user's count and leaves the other counters alone. */
  lemma SaveCount(s: StoreState, tx: Transaction, isFraud: bool, now: Instant, u: string)
    requires s.reachable
    ensures var t := Save(s, tx.userId, tx, isFraud, now).1;
      && SavedCount(t, u) == SavedCount(s, u) + (if tx.userId == u then 1 else 0)
      && t.reachable && t.predictions == s.predictions && t.cacheHits == s.cacheHits && t.cacheMisses == s.cacheMisses
      && t.totalPredictions == s.totalPredictions && t.responseTimes == s.responseTimes
  {
    var t := Save(s, tx.userId, tx, isFraud, now).1;
    SaveStats(s, tx.userId, tx, isFraud, now);
    if tx.userId != u {
      assert StatsOf(t, u) == StatsOf(s, u);
    }
  }

  lemma {:induction false} SaveAllKeepsConsistency(s: StoreState, txs: seq<Transaction>, preds: seq<FraudPrediction>,
                                                   now: Instant)
    requires |txs| == |preds| && Consistent(s)
    ensures Consistent(SaveAll(s, txs, preds, now))
    decreases |txs|
  {
    if |txs| > 0 {
      var n := |txs| - 1;
      SaveAllKeepsConsistency(s, txs[..n], preds[..n], now);
      SaveKeepsConsistency(SaveAll(s, txs[..n], preds[..n], now), txs[n].userId, txs[n], preds[n].isFraud, now);
    }
  }

  /** The outcome of a batch whose predictions all succeed. */
  lemma BatchOutcome(model: FraudModel, s: StoreState, ms: MetricsState, txs: seq<Transaction>,
                     hs: seq<Option<UserHistory>>, now: Instant, num: Numerics, elapsedMs: real, totalMs: real)
    requires |hs| == |txs|
    requires HandleBatch(model, s, ms, txs, hs, now, num, elapsedMs, totalMs).0.Served?
    ensures PredictAll(model, BatchItems(txs, hs), now, num, elapsedMs).Ok?
    ensures var preds := PredictAll(model, BatchItems(txs, hs), now, num, elapsedMs).value;
      HandleBatch(model, s, ms, txs, hs, now, num, elapsedMs, totalMs) ==
        (Served(BatchPredictionResponse(|preds|, FraudCount(preds), preds, totalMs)),
         Increments(SaveAll(s, txs, preds, now), |preds|),
         RecordAll(ms, preds))
  {
  }

  /**
   * A served batch answers one prediction per transaction, in order, and
   * counts the frauds among them.
   */
  lemma BatchServedResponse(model: FraudModel, s: StoreState, ms: MetricsState, txs: seq<Transaction>,
                            hs: seq<Option<UserHistory>>, now: Instant, num: Numerics, elapsedMs: real, totalMs: real)
    requires |hs| == |txs|
    requires HandleBatch(model, s, ms, txs, hs, now, num, elapsedMs, totalMs).0.Served?
    ensures var r := HandleBatch(model, s, ms, txs, hs, now, num, elapsedMs, totalMs).0.value;
      && r.totalTransactions == |txs| == |r.predictions|
      && r.fraudDetected == FraudCount(r.predictions) <= r.totalTransactions
      && (forall i :: 0 <= i < |txs| ==> Predict(model, txs[i], Read(hs[i]), now, num, elapsedMs) == Ok(r.predictions[i]))
  {
    var items := BatchItems(txs, hs);
    BatchOutcome(model, s, ms, txs, hs, now, num, elapsedMs, totalMs);
    PredictAllPointwise(model, items, now, num, elapsedMs);
  }

  /**
   * The writes of a served batch add one prediction per transaction to the
   * store's counter and to the collector, its frauds to the collector's
   * fraud count, save every transaction once and never touch the cache.
   */
  lemma BatchWrites(s: StoreState, ms: MetricsState, txs: seq<Transaction>, preds: seq<FraudPrediction>, now: Instant)
    requires |txs| == |preds| && s.reachable
    ensures var s' := Increments(SaveAll(s, txs, preds, now), |preds|);
      var ms' := RecordAll(ms, preds);
      && s'.totalPredictions == s.totalPredictions + |txs|
      && ms'.predictionCount == ms.predictionCount + |txs|
      && ms'.fraudCount == ms.fraudCount + FraudCount(preds)
      && s'.cacheHits == s.cacheHits && s'.cacheMisses == s.cacheMisses && s'.predictions == s.predictions
      && (forall u :: SavedCount(s', u) == SavedCount(s, u) + Occurrences(txs, u))
  {
    RecordAllCounts(ms, preds);
    var saved := SaveAll(s, txs, preds, now);
    SaveAllCounts(s, txs, preds, now, "");
    IncrementsAdd(saved, |preds|);
    forall u ensures SavedCount(Increments(saved, |preds|), u) == SavedCount(s, u) + Occurrences(txs, u) {
      SaveAllCounts(s, txs, preds, now, u);
      assert Increments(saved, |preds|).stats == saved.stats;
    }
  }

  /** An unloaded model or any failed prediction fails the whole batch with 500 and nothing saved. */
  lemma BatchFailures(model: FraudModel, s: StoreState, ms: MetricsState, txs: seq<Transaction>,
                      hs: seq<Option<UserHistory>>, now: Instant, num: Numerics, elapsedMs: real, totalMs: real)
    requires |hs| == |txs| && 1 <= |txs| <= 100 && AllValid(txs)
    ensures var (r, s', ms') := HandleBatch(model, s, ms, txs, hs, now, num, elapsedMs, totalMs);
      && (r.Failed? <==> exists i :: 0 <= i < |txs| && Predict(model, txs[i], Read(hs[i]), now, num, elapsedMs).Err?)
      && (r.Failed? ==> r.status == 500 && s' == s && ms' == AfterError(ms, "batch_prediction_error"))
  {
    var items := BatchItems(txs, hs);
    BatchFailsWithPredictions(model, s, ms, txs, hs, now, num, elapsedMs, totalMs);
    PredictAllFails(model, items, now, num, elapsedMs);
    assert forall i :: 0 <= i < |txs| ==> items[i].0 == txs[i] && items[i].1 == Read(hs[i]);
  }

  /** A valid batch fails exactly when its predictions fail, and then only the error counter moves. */
  lemma BatchFailsWithPredictions(model: FraudModel, s: StoreState, ms: MetricsState, txs: seq<Transaction>,
                                  hs: seq<Option<UserHistory>>, now: Instant, num: Numerics, elapsedMs: real, totalMs: real)
    requires |hs| == |txs| && 1 <= |txs| <= 100 && AllValid(txs)
    ensures var (r, s', ms') := HandleBatch(model, s, ms, txs, hs, now, num, elapsedMs, totalMs);
      && (r.Failed? <==> PredictAll(model, BatchItems(txs, hs), now, num, elapsedMs).Err?)
      && (r.Failed? ==> r.status == 500 && s' == s && ms' == AfterError(ms, "batch_prediction_error"))
  {
    PredictAllFails(model, BatchItems(txs, hs), now, num, elapsedMs);
  }

  // ---------------------------------------------------------------------
  // The handlers as the code is written

  /** The writes after a fresh prediction with the as-written save. */
  function StoreAfterWritesAsWritten(s: StoreState, tx: Transaction, p: FraudPrediction, now: Instant): StoreState
  {
    var cached := AfterCache(s, tx.transactionId, p, CacheTtl);
    var saved := SaveAsWritten(cached, tx.userId, tx, p.isFraud, now).1;
    AfterIncrementPredictions(saved)
  }

  /**
   * `predict_fraud` with the prediction and the save as the code is
   * written. Validation, the loaded check and a cache hit are answered as
   * intended. On a miss the explanation's failure is not a value error, so
   * the catch-all answers 500 and counts a prediction error.
   */
  function HandlePredictAsWritten(model: FraudModel, s: StoreState, ms: MetricsState, tx: Transaction,
                                  h: Option<UserHistory>, now: Instant, num: Numerics, elapsedMs: real)
    : (Response<FraudPrediction>, StoreState, MetricsState)
  {
    if !ValidTransaction(tx) || !IsLoaded(model) || LookupResult(s, tx.transactionId).Some? then
      HandlePredict(model, s, ms, tx, h, now, num, elapsedMs)
    else
      var afterLookup := AfterLookup(s, tx.transactionId);
      match PredictAsWritten(model, tx, Read(h), now, num, elapsedMs)
      case Err(ExplanationFailed(_)) => (Failed(InternalError), afterLookup, AfterError(ms, PredictionErrorType))
      case Err(_) => (Failed(BadRequest), afterLookup, ms)
      case Ok(p) => FreshOutcome(ms, p, StoreAfterWritesAsWritten(afterLookup, tx, p, now))
  }

  /** Without a timestamp and from 06:00 on, the handler as written is the intended one. */
  lemma HandleAsWrittenAgrees(model: FraudModel, s: StoreState, ms: MetricsState, tx: Transaction,
                              h: Option<UserHistory>, now: Instant, num: Numerics, elapsedMs: real)
    requires tx.timestamp.None? && Hour(now) >= 6
    ensures HandlePredictAsWritten(model, s, ms, tx, h, now, num, elapsedMs)
         == HandlePredict(model, s, ms, tx, h, now, num, elapsedMs)
  {
    if ValidTransaction(tx) && IsLoaded(model) && LookupResult(s, tx.transactionId).None? {
      var afterLookup := AfterLookup(s, tx.transactionId);
      var outcome := Predict(model, tx, Read(h), now, num, elapsedMs);
      assert PredictAsWritten(model, tx, Read(h), now, num, elapsedMs) == outcome;
      if outcome.Ok? {
        var p := outcome.value;
        SaveAsWrittenAgrees(AfterCache(afterLookup, tx.transactionId, p, CacheTtl), tx.userId, tx, p.isFraud, now);
      }
    }
  }

  /**
   * A request without a timestamp between 00:00 and 05:59 that misses the
   * cache is answered 500 as written, with only the miss and a prediction
   * error counted, where the intended handler serves the prediction.
   */
  lemma NightRequestFails(model: FraudModel, s: StoreState, ms: MetricsState, tx: Transaction,
                          h: Option<UserHistory>, now: Instant, num: Numerics, elapsedMs: real)
    requires ValidTransaction(tx) && IsLoaded(model) && WellBehaved(model)
    requires LookupResult(s, tx.transactionId).None? && tx.timestamp.None? && Hour(now) < 6
    ensures HandlePredictAsWritten(model, s, ms, tx, h, now, num, elapsedMs)
         == (Failed(500), AfterLookup(s, tx.transactionId), AfterError(ms, "prediction_error"))
    ensures HandlePredict(model, s, ms, tx, h, now, num, elapsedMs).0
         == Served(Predict(model, tx, Read(h), now, num, elapsedMs).value)
  {
    PredictAsWrittenNightFailure(model, tx, Read(h), now, num, elapsedMs);
  }

  /**
   * A timestamped request that misses the cache is served, cached and
   * counted as written, but neither its user's list nor its statistics nor
   * its sets change (the intended handler saves it: CacheMissPipeline).
   */
  lemma TimestampedRequestNotSaved(model: FraudModel, s: StoreState, ms: MetricsState, tx: Transaction,
                                   h: Option<UserHistory>, now: Instant, num: Numerics, elapsedMs: real)
    requires ValidTransaction(tx) && IsLoaded(model) && s.reachable
    requires LookupResult(s, tx.transactionId).None? && tx.timestamp.Some?
    requires Predict(model, tx, Read(h), now, num, elapsedMs).Ok?
    ensures var p := Predict(model, tx, Read(h), now, num, elapsedMs).value;
      var t := HandlePredictAsWritten(model, s, ms, tx, h, now, num, elapsedMs);
      && t.0 == Served(p)
      && t.1.transactions == s.transactions && t.1.stats == s.stats
      && t.1.categories == s.categories && t.1.locations == s.locations && t.1.devices == s.devices
      && t.1.predictions[PredictionKey(tx.transactionId)] == CacheEntry(p, 3600)
      && t.1.totalPredictions == s.totalPredictions + 1
      && t.2.predictionCount == ms.predictionCount + 1
  {
    var p := Predict(model, tx, Read(h), now, num, elapsedMs).value;
    var afterLookup := AfterLookup(s, tx.transactionId);
    assert PredictAsWritten(model, tx, Read(h), now, num, elapsedMs) == Ok(p);
    assert HandlePredictAsWritten(model, s, ms, tx, h, now, num, elapsedMs)
        == FreshOutcome(ms, p, StoreAfterWritesAsWritten(afterLookup, tx, p, now));
    WritesAsWrittenSkipSave(afterLookup, tx, p, now);
  }

  /** The as-written writes for a timestamped transaction: cache and count, but no save. */
  lemma WritesAsWrittenSkipSave(s: StoreState, tx: Transaction, p: FraudPrediction, now: Instant)
    requires s.reachable && tx.timestamp.Some?
    ensures var t := AfterResponseTime(StoreAfterWritesAsWritten(s, tx, p, now), p.processingTimeMs);
      && t.transactions == s.transactions && t.stats == s.stats
      && t.categories == s.categories && t.locations == s.locations && t.devices == s.devices
      && t.predictions[PredictionKey(tx.transactionId)] == CacheEntry(p, 3600)
      && t.totalPredictions == s.totalPredictions + 1
  {
    SaveAsWrittenDropsTimestamped(AfterCache(s, tx.transactionId, p, CacheTtl), tx.userId, tx, p.isFraud, now);
  }

  /** Saving each transaction with the as-written save, in order. */
  function SaveAllAsWritten(s: StoreState, txs: seq<Transaction>, preds: seq<FraudPrediction>, now: Instant): StoreState
    requires |txs| == |preds|
    decreases |txs|
  {
    if |txs| == 0 then s
    else
      var n := |txs| - 1;
      SaveAsWritten(SaveAllAsWritten(s, txs[..n], preds[..n], now), txs[n].userId, txs[n], preds[n].isFraud, now).1
  }

  predicate AllTimestamped(txs: seq<Transaction>)
  {
    forall i :: 0 <= i < |txs| ==> txs[i].timestamp.Some?
  }

  predicate NoneTimestamped(txs: seq<Transaction>)
  {
    forall i :: 0 <= i < |txs| ==> txs[i].timestamp.None?
  }

  /** As written, a batch of timestamped transactions saves nothing; without timestamps it saves as intended. */
  lemma {:induction false} SaveAllAsWrittenCases(s: StoreState, txs: seq<Transaction>, preds: seq<FraudPrediction>,
                                                 now: Instant)
    requires |txs| == |preds|
    ensures AllTimestamped(txs) ==> SaveAllAsWritten(s, txs, preds, now) == s
    ensures NoneTimestamped(txs) ==> SaveAllAsWritten(s, txs, preds, now) == SaveAll(s, txs, preds, now)
    decreases |txs|
  {
    if |txs| > 0 {
      var n := |txs| - 1;
      assert AllTimestamped(txs) ==> AllTimestamped(txs[..n]);
      assert NoneTimestamped(txs) ==> NoneTimestamped(txs[..n]);
      SaveAllAsWrittenCases(s, txs[..n], preds[..n], now);
      if NoneTimestamped(txs) {
        SaveAsWrittenAgrees(SaveAll(s, txs[..n], preds[..n], now), txs[n].userId, txs[n], preds[n].isFraud, now);
      }
    }
  }

  /**
   * `predict_batch` with the predictions and the saves as the code is
   * written; every failure, value error or not, is answered 500.
   */
  function HandleBatchAsWritten(model: FraudModel, s: StoreState, ms: MetricsState, txs: seq<Transaction>,
                                hs: seq<Option<UserHistory>>, now: Instant, num: Numerics, elapsedMs: real,
                                totalMs: real)
    : (Response<BatchPredictionResponse>, StoreState, MetricsState)
    requires |hs| == |txs|
  {
    if ValidateBatch(txs).Err? || !AllValid(txs) || !IsLoaded(model) then
      HandleBatch(model, s, ms, txs, hs, now, num, elapsedMs, totalMs)
    else
      match PredictAllAsWritten(model, BatchItems(txs, hs), now, num, elapsedMs)
      case Err(_) => (Failed(InternalError), s, AfterError(ms, BatchPredictionErrorType))
      case Ok(preds) =>
        (Served(BatchPredictionResponse(|preds|, FraudCount(preds), preds, totalMs)),
         Increments(SaveAllAsWritten(s, txs, preds, now), |preds|),
         RecordAll(ms, preds))
  }

  /** Without timestamps and from 06:00 on, the batch handler as written is the intended one. */
  lemma BatchAsWrittenAgrees(model: FraudModel, s: StoreState, ms: MetricsState, txs: seq<Transaction>,
                             hs: seq<Option<UserHistory>>, now: Instant, num: Numerics, elapsedMs: real, totalMs: real)
    requires |hs| == |txs| && NoneTimestamped(txs) && Hour(now) >= 6
    ensures HandleBatchAsWritten(model, s, ms, txs, hs, now, num, elapsedMs, totalMs)
         == HandleBatch(model, s, ms, txs, hs, now, num, elapsedMs, totalMs)
  {
    var items := BatchItems(txs, hs);
    PredictAllAsWrittenCases(model, items, now, num, elapsedMs);
    var outcome := PredictAll(model, items, now, num, elapsedMs);
    if outcome.Ok? {
      SaveAllAsWrittenCases(s, txs, outcome.value, now);
    }
  }

  /**
   * Between 00:00 and 05:59 a valid batch on a loaded, well-behaved model
   * with one transaction lacking a timestamp fails with 500 as written and
   * saves nothing, where the intended handler serves it.
   */
  lemma BatchNightFails(model: FraudModel, s: StoreState, ms: MetricsState, txs: seq<Transaction>,
                        hs: seq<Option<UserHistory>>, now: Instant, num: Numerics, elapsedMs: real, totalMs: real,
                        k: int)
    requires |hs| == |txs| && 1 <= |txs| <= 100 && AllValid(txs)
    requires IsLoaded(model) && WellBehaved(model) && Hour(now) < 6
    requires 0 <= k < |txs| && txs[k].timestamp.None?
    ensures HandleBatchAsWritten(model, s, ms, txs, hs, now, num, elapsedMs, totalMs)
         == (Failed(500), s, AfterError(ms, "batch_prediction_error"))
    ensures HandleBatch(model, s, ms, txs, hs, now, num, elapsedMs, totalMs).0.Served?
  {
    var items := BatchItems(txs, hs);
    assert items[k].0 == txs[k];
    PredictAllAsWrittenCases(model, items, now, num, elapsedMs);
    BatchFailsWithPredictions(model, s, ms, txs, hs, now, num, elapsedMs, totalMs);
    PredictAllFails(model, items, now, num, elapsedMs);
  }

  /**
   * A served batch of timestamped transactions, as written, gives the
   * intended response and counts its predictions but leaves every user's
   * list, statistics and sets as they were.
   */
  lemma BatchTimestampedNotSaved(model: FraudModel, s: StoreState, ms: MetricsState, txs: seq<Transaction>,
                                 hs: seq<Option<UserHistory>>, now: Instant, num: Numerics, elapsedMs: real,
                                 totalMs: real)
    requires |hs| == |txs| && AllTimestamped(txs)
    requires HandleBatchAsWritten(model, s, ms, txs, hs, now, num, elapsedMs, totalMs).0.Served?
    ensures HandleBatchAsWritten(model, s, ms, txs, hs, now, num, elapsedMs, totalMs).0
         == HandleBatch(model, s, ms, txs, hs, now, num, elapsedMs, totalMs).0
    ensures var t := HandleBatchAsWritten(model, s, ms, txs, hs, now, num, elapsedMs, totalMs).1;
      && t.transactions == s.transactions && t.stats == s.stats
      && t.categories == s.categories && t.locations == s.locations && t.devices == s.devices
      && (s.reachable ==> t.totalPredictions == s.totalPredictions + |txs|)
  {
    var items := BatchItems(txs, hs);
    PredictAllAsWrittenCases(model, items, now, num, elapsedMs);
    var preds := PredictAllAsWritten(model, items, now, num, elapsedMs).value;
    SaveAllAsWrittenCases(s, txs, preds, now);
    IncrementsAdd(s, |preds|);
  }

  // ---------------------------------------------------------------------
  // User history and health

  /** `get_user_history`: 404 when the store has no history for the user. */
  function HistoryResponse(h: Option<UserHistory>): (r: Response<UserHistory>)
  {
    if h.None? then Failed(NotFound) else Served(h.value)
  }

  /** The history endpoint answers 404 exactly when the store is down or the user has no statistics. */
  lemma HistoryNotFound(s: StoreState, u: string, h: Option<UserHistory>)
    requires IsHistoryOf(s, u, h)
    ensures HistoryResponse(h) == Failed(404) <==> !s.reachable || u !in s.stats
    ensures HistoryResponse(h).Served? ==> HistoryResponse(h).value.totalTransactions == s.stats[u].totalTransactions
  {
  }

  function StatusText(healthy: bool): string
  {
    if healthy then "operational" else "error"
  }

  /** The health report for the component checks and the store's figures. */
  function HealthReport(model: FraudModel, s: StoreState, c: ComponentHealth, now: Instant): (r: SystemHealth)
  {
    SystemHealth(
      if AllHealthy(c) then "healthy" else "unhealthy",
      now,
      StatusText(c.api),
      StatusText(c.model),
      StatusText(c.redis),
      ReportedTotal(s),
      ReportedHitRate(s),
      ReportedResponseTime(s),
      model.modelVersion,
      model.accuracy,
      model.trainedAt)
  }

  /**
   * Overall health is "healthy" exactly when the model is loaded and the
   * store answers; the report's hit rate lies in [0, 1].
   */
  lemma HealthOverall(model: FraudModel, s: StoreState, now: Instant)
    requires Consistent(s)
    ensures var c := ComponentHealth(true, IsLoaded(model), s.reachable);
      var r := HealthReport(model, s, c, now);
      && (r.status == "healthy" <==> IsLoaded(model) && s.reachable)
      && (r.modelStatus == "operational" <==> IsLoaded(model))
      && (r.redisStatus == "operational" <==> s.reachable)
      && r.apiStatus == "operational"
      && HealthInRange(r)
      && (!s.reachable ==> r.totalPredictions == 0 && r.cacheHitRate == 0.0 && r.averageResponseTimeMs == 0.0)
  {
  }

  // ---------------------------------------------------------------------
  // The application object

  class App {
    const model: FraudModel
    const redis: RedisClient
    const metrics: MetricsCollector

    predicate Valid()
      reads redis, metrics
    {
      redis.Valid() && metrics.Valid()
    }

    constructor(model: FraudModel, redis: RedisClient, metrics: MetricsCollector)
      ensures this.model == model && this.redis == redis && this.metrics == metrics
    {
      this.model := model;
      this.redis := redis;
      this.metrics := metrics;
    }

    /** `predict_fraud`; `h` is the history the feature extraction read from the store. */
    method PredictFraud(tx: Transaction, now: Instant, num: Numerics, elapsedMs: real)
      returns (r: Response<FraudPrediction>, ghost h: Option<UserHistory>)
      requires Valid()
      modifies redis, metrics
      ensures Valid()
      ensures (r, redis.State(), metrics.State()) ==
        HandlePredict(model, old(redis.State()), old(metrics.State()), tx, h, now, num, elapsedMs)
      ensures ValidTransaction(tx) && IsLoaded(model) && LookupResult(old(redis.State()), tx.transactionId).None? ==>
        IsHistoryOf(AfterLookup(old(redis.State()), tx.transactionId), tx.userId, h)
    {
      h := None;
      if !ValidTransaction(tx) {
        return Failed(UnprocessableEntity), h;
      }
      if !IsLoaded(model) {
        metrics.RecordError(PredictionErrorType);
        return Failed(InternalError), h;
      }
      var cached := redis.GetCachedPrediction(tx.transactionId);
      if cached.Some? {
        return Served(cached.value), h;
      }
      var history := redis.GetUserHistory(tx.userId);
      h := history;
      var outcome := Predict(model, tx, Read(history), now, num, elapsedMs);
      if outcome.Err? {
        return Failed(BadRequest), h;
      }
      var p := outcome.value;
      ghost var afterLookup := redis.State();
      var _ := redis.CachePrediction(tx.transactionId, p, CacheTtl);
      var _ := redis.SaveTransaction(tx.userId, tx, p.isFraud, now);
      redis.IncrementPredictionsCount();
      assert redis.State() == StoreAfterWrites(afterLookup, tx, p, now);
      metrics.RecordPrediction(p.isFraud, p.fraudProbability, p.processingTimeMs / 1000.0);
      var rate := redis.GetCacheHitRate();
      metrics.UpdateCacheMetrics(rate);
      redis.RecordResponseTime(p.processingTimeMs);
      r := Served(p);
    }

    /** The history the feature extraction reads for each transaction's user. */
    method ReadHistories(txs: seq<Transaction>) returns (hs: seq<Option<UserHistory>>)
      ensures |hs| == |txs|
      ensures forall i :: 0 <= i < |txs| ==> IsHistoryOf(redis.State(), txs[i].userId, hs[i])
    {
      hs := [];
      var k := 0;
      while k < |txs|
        invariant 0 <= k <= |txs| && |hs| == k
        invariant forall i :: 0 <= i < k ==> IsHistoryOf(redis.State(), txs[i].userId, hs[i])
      {
        var h := redis.GetUserHistory(txs[k].userId);
        hs := hs + [h];
        k := k + 1;
      }
    }

    /** The batch's save loop: save each transaction, count its fraud, record it in the metrics. */
    method SaveAndRecord(txs: seq<Transaction>, preds: seq<FraudPrediction>, now: Instant) returns (fraudCount: int)
      requires Valid() && |txs| == |preds|
      modifies redis, metrics
      ensures Valid()
      ensures redis.State() == SaveAll(old(redis.State()), txs, preds, now)
      ensures metrics.State() == RecordAll(old(metrics.State()), preds)
      ensures fraudCount == FraudCount(preds)
    {
      ghost var s0 := redis.State();
      ghost var ms0 := metrics.State();
      fraudCount := 0;
      var i := 0;
      while i < |preds|
        invariant 0 <= i <= |preds|
        invariant redis.Valid() && metrics.Valid()
        invariant redis.State() == SaveAll(s0, txs[..i], preds[..i], now)
        invariant metrics.State() == RecordAll(ms0, preds[..i])
        invariant fraudCount == FraudCount(preds[..i])
      {
        BatchStep(s0, ms0, txs, preds, now, i);
        var _ := redis.SaveTransaction(txs[i].userId, txs[i], preds[i].isFraud, now);
        if preds[i].isFraud {
          fraudCount := fraudCount + 1;
        }
        metrics.RecordPrediction(preds[i].isFraud, preds[i].fraudProbability, preds[i].processingTimeMs / 1000.0);
        i := i + 1;
      }
      assert txs[..i] == txs && preds[..i] == preds;
    }

    /** The batch's counter loop: one increment per prediction. */
    method IncrementTimes(n: nat)
      requires Valid()
      modifies redis
      ensures Valid()
      ensures redis.State() == Increments(old(redis.State()), n)
    {
      var j := 0;
      while j < n
        invariant 0 <= j <= n
        invariant redis.Valid()
        invariant redis.State() == Increments(old(redis.State()), j)
      {
        redis.IncrementPredictionsCount();
        j := j + 1;
      }
    }

    /** `predict_batch`; `hs` are the histories read for each transaction's user before the batch. */
    method PredictBatch(txs: seq<Transaction>, now: Instant, num: Numerics, elapsedMs: real, totalMs: real)
      returns (r: Response<BatchPredictionResponse>, ghost hs: seq<Option<UserHistory>>)
      requires Valid()
      modifies redis, metrics
      ensures Valid()
      ensures |hs| == |txs|
      ensures (r, redis.State(), metrics.State()) ==
        HandleBatch(model, old(redis.State()), old(metrics.State()), txs, hs, now, num, elapsedMs, totalMs)
      ensures forall i :: 0 <= i < |txs| ==> IsHistoryOf(old(redis.State()), txs[i].userId, hs[i])
    {
      var histories := ReadHistories(txs);
      hs := histories;
      if ValidateBatch(txs).Err? || !AllValid(txs) {
        return Failed(UnprocessableEntity), hs;
      }
      if !IsLoaded(model) {
        metrics.RecordError(BatchPredictionErrorType);
        return Failed(InternalError), hs;
      }
      var outcome := Scoring.PredictBatch(model, BatchItems(txs, histories), now, num, elapsedMs);
      if outcome.Err? {
        metrics.RecordError(BatchPredictionErrorType);
        return Failed(InternalError), hs;
      }
      var preds := outcome.value;
      var fraudCount := SaveAndRecord(txs, preds, now);
      IncrementTimes(|preds|);
      r := Served(BatchPredictionResponse(|preds|, fraudCount, preds, totalMs));
    }

    /** `get_user_history`. */
    method GetUserHistory(u: string) returns (r: Response<UserHistory>, h: Option<UserHistory>)
      ensures IsHistoryOf(redis.State(), u, h)
      ensures r == HistoryResponse(h)
    {
      var history := redis.GetUserHistory(u);
      h := history;
      r := HistoryResponse(history);
    }

    /** `health_check`: the component checks, then the store's figures and the model's details. */
    method HealthCheck(now: Instant) returns (r: SystemHealth)
      requires Valid()
      modifies metrics
      ensures Valid()
      ensures r == HealthReport(model, redis.State(), ComponentHealth(true, IsLoaded(model), redis.reachable), now)
      ensures HealthInRange(r)
      ensures metrics.State() ==
        AfterComponentStatus(AfterComponentStatus(AfterComponentStatus(old(metrics.State()),
          "api", true), "model", IsLoaded(model)), "redis", redis.reachable)
    {
      var c := PerformFullHealthCheck(metrics, Some(model), redis);
      var total := redis.GetTotalPredictions();
      var rate := redis.GetCacheHitRate();
      var avg := redis.GetAverageResponseTime();
      r := SystemHealth(
        if c.api && c.model && c.redis then "healthy" else "unhealthy",
        now,
        if c.api then "operational" else "error",
        if c.model then "operational" else "error",
        if c.redis then "operational" else "error",
        total, rate, avg, model.modelVersion, model.accuracy, model.trainedAt);
    }
  }
}

// The scoring rules around the classifier: model readiness, the feature
// vector handed to it, the risk tier, confidence, explanation and
// recommendations, and single and batch prediction.

module Scoring {
  import opened Base
  import opened Domain
  import opened Features

  /** The classifier's answer for one scaled vector: a class bit and P(fraud). */
  datatype Verdict = Verdict(fraudClass: bool, probability: real)

  /**
   * The fields of a detection model that prediction reads. The trained
   * classifier and scaler are opaque functions; either may be absent.
   */
  datatype FraudModel = FraudModel(
    classifier: Option<seq<real> -> Verdict>,
    scaler: Option<seq<real> -> seq<real>>,
    featureNames: Option<seq<string>>,
    modelVersion: string,
    trainedAt: Option<Instant>,
    accuracy: Option<real>)

  const InitialVersion: string := "1.0.0"

  /** A freshly constructed model: nothing trained or loaded yet. */
  function NewModel(): (m: FraudModel)
    ensures !IsLoaded(m) && m.modelVersion == "1.0.0"
  {
    FraudModel(None, None, None, InitialVersion, None, None)
  }

  /** `is_loaded`: both the classifier and the scaler are present. */
  predicate IsLoaded(m: FraudModel)
  {
    m.classifier.Some? && m.scaler.Some?
  }

  /** The classifier never reports a probability outside [0, 1]. */
  ghost predicate WellBehaved(m: FraudModel)
  {
    m.classifier.Some? ==> forall v :: 0.0 <= m.classifier.value(v).probability <= 1.0
  }

  // ---------------------------------------------------------------------
  // Risk tier

  const LowBelow: real := 0.3
  const MediumBelow: real := 0.7

  function RiskLevelFor(p: real): (r: RiskLevel)
  {
    if p < LowBelow then Low
    else if p < MediumBelow then Medium
    else High
  }

  function Severity(r: RiskLevel): (n: nat)
    ensures n <= 2
  {
    match r
    case Low => 0
    case Medium => 1
    case High => 2
  }

  /** The tier bands: below 0.3 low, below 0.7 medium, otherwise high. */
  lemma RiskBands(p: real)
    ensures RiskLevelFor(p) == Low <==> p < 0.3
    ensures RiskLevelFor(p) == Medium <==> 0.3 <= p < 0.7
    ensures RiskLevelFor(p) == High <==> p >= 0.7
  {
  }

  /** A higher probability never gives a lower tier. */
  lemma RiskMonotone(p: real, q: real)
    requires p <= q
    ensures Severity(RiskLevelFor(p)) <= Severity(RiskLevelFor(q))
  {
  }

  // ---------------------------------------------------------------------
  // Confidence

  /** Distance of the probability from 0.5, scaled to [0, 1]. */
  function Confidence(p: real): (c: real)
    ensures c >= 0.0
  {
    Abs(p - 0.5) * 2.0
  }

  lemma ConfidenceRange(p: real)
    ensures 0.0 <= p <= 1.0 ==> Confidence(p) <= 1.0
    ensures Confidence(p) == Confidence(1.0 - p)
    ensures Confidence(p) == 0.0 <==> p == 0.5
    ensures Confidence(p) == 1.0 <==> p == 0.0 || p == 1.0
  {
  }

  // ---------------------------------------------------------------------
  // Explanation and recommendations

  function ExplanationFor(fraudClass: bool, p: real, amount: real): (e: Explanation)
  {
    if fraudClass then
      if p > 0.9 then HighlySuspicious(p, amount)
      else if p > 0.7 then ProbableFraud(p)
      else PossibleFraud(p)
    else Legitimate(1.0 - p)
  }

  /** The explanation branches: by class bit, then by probability. */
  lemma ExplanationBranches(fraudClass: bool, p: real, amount: real)
    ensures ExplanationFor(fraudClass, p, amount).HighlySuspicious? <==> fraudClass && p > 0.9
    ensures ExplanationFor(fraudClass, p, amount).ProbableFraud? <==> fraudClass && 0.7 < p <= 0.9
    ensures ExplanationFor(fraudClass, p, amount).PossibleFraud? <==> fraudClass && p <= 0.7
    ensures ExplanationFor(fraudClass, p, amount).Legitimate? <==> !fraudClass
    ensures !fraudClass ==> ExplanationFor(fraudClass, p, amount).confidence + p == 1.0
  {
  }

  const BlockNow: string := "\U{1f6ab} BLOQUEAR transa\U{e7}\U{e3}o imediatamente"
  const HoldForReview: string := "\U{23f8}\U{fe0f} RETER transa\U{e7}\U{e3}o para an\U{e1}lise"
  const Approve: string := "\U{2705} APROVAR transa\U{e7}\U{e3}o"

  function Recommendations(r: RiskLevel): (rs: seq<string>)
  {
    match r
    case High => [
      BlockNow,
      "\U{1f4e7} Notificar usu\U{e1}rio via email e SMS",
      "\U{1f512} Suspender temporariamente a conta",
      "\U{1f464} Solicitar verifica\U{e7}\U{e3}o de identidade adicional",
      "\U{1f4de} Contato telef\U{f4}nico com o titular"]
    case Medium => [
      HoldForReview,
      "\U{1f4e7} Notificar usu\U{e1}rio para confirma\U{e7}\U{e3}o",
      "\U{1f510} Solicitar autentica\U{e7}\U{e3}o de dois fatores",
      "\U{1f441}\U{fe0f} Monitorar pr\U{f3}ximas transa\U{e7}\U{f5}es de perto"]
    case Low => [
      Approve,
      "\U{1f4ca} Continuar monitoramento normal",
      "\U{1f4be} Registrar para an\U{e1}lise de padr\U{f5}es"]
  }

  /** Five items led by BLOQUEAR, four led by RETER, three led by APROVAR. */
  lemma RecommendationShape(r: RiskLevel)
    ensures r == High ==> |Recommendations(r)| == 5 && Recommendations(r)[0] == BlockNow
    ensures r == Medium ==> |Recommendations(r)| == 4 && Recommendations(r)[0] == HoldForReview
    ensures r == Low ==> |Recommendations(r)| == 3 && Recommendations(r)[0] == Approve
    ensures |Recommendations(r)| == Severity(r) + 3
  {
  }

  lemma RecommendationKeywords()
    ensures Contains(BlockNow, "BLOQUEAR")
    ensures Contains(HoldForReview, "RETER")
    ensures Contains(Approve, "APROVAR")
  {
    assert BlockNow[2] == 'B' && BlockNow[3] == 'L' && BlockNow[4] == 'O' && BlockNow[5] == 'Q' && BlockNow[6] == 'U' && BlockNow[7] == 'E' && BlockNow[8] == 'A' && BlockNow[9] == 'R';
    assert OccursAt(BlockNow, "BLOQUEAR", 2);
    assert HoldForReview[3] == 'R' && HoldForReview[4] == 'E' && HoldForReview[5] == 'T' && HoldForReview[6] == 'E' && HoldForReview[7] == 'R';
    assert OccursAt(HoldForReview, "RETER", 3);
    assert Approve[2] == 'A' && Approve[3] == 'P' && Approve[4] == 'R' && Approve[5] == 'O' && Approve[6] == 'V' && Approve[7] == 'A' && Approve[8] == 'R';
    assert OccursAt(Approve, "APROVAR", 2);
  }

  // ---------------------------------------------------------------------
  // Prediction

  /**
   * Why a prediction fails: the model is not loaded, or the built
   * prediction violates its field ranges (both value errors), or, as the
   * code is written, the explanation step raises on a missing timestamp
   * (not a value error).
   */
  datatype PredictError = NotLoaded | OutOfRange | ExplanationFailed(reason: string)

  /** The number of risk messages a prediction carries at most. */
  const TopFactors: int := 5

  /** The prediction record for one classifier verdict. */
  function PredictionOf(m: FraudModel, tx: Transaction, ctx: HistoryContext, now: Instant, num: Numerics,
                        elapsedMs: real, v: Verdict): (p: FraudPrediction)
  {
    var level := RiskLevelFor(v.probability);
    FraudPrediction(
      tx.transactionId,
      v.fraudClass,
      v.probability,
      level,
      Confidence(v.probability),
      ExplanationFor(v.fraudClass, v.probability, tx.amount),
      ExplainFeatures(tx, ctx, now, num, TopFactors),
      elapsedMs,
      m.modelVersion,
      now,
      Recommendations(level))
  }

  /** The vector the classifier sees for a transaction. */
  function ModelInput(m: FraudModel, tx: Transaction, ctx: HistoryContext, now: Instant, num: Numerics): seq<real>
  {
    FeatureVector(ExtractFeatures(tx, ctx, now, num), m.featureNames)
  }

  /**
   * `predict`: refuse an unloaded model; otherwise extract the features,
   * lay them out in the model's name order, scale, classify and build the
   * prediction, which must satisfy its field ranges.
   */
  function Predict(m: FraudModel, tx: Transaction, ctx: HistoryContext, now: Instant, num: Numerics,
                   elapsedMs: real): (r: Result<FraudPrediction, PredictError>)
    ensures r == Err(NotLoaded) <==> !IsLoaded(m)
    ensures r.Ok? ==> PredictionInRange(r.value)
    ensures r.Ok? ==> r.value.processingTimeMs == elapsedMs
  {
    if !IsLoaded(m) then Err(NotLoaded)
    else
      var x := m.scaler.value(ModelInput(m, tx, ctx, now, num));
      var p := PredictionOf(m, tx, ctx, now, num, elapsedMs, m.classifier.value(x));
      if PredictionInRange(p) then Ok(p) else Err(OutOfRange)
  }

  /**
   * What a successful prediction carries: the transaction id, the model
   * version, a tier and recommendations that agree with the probability,
   * a confidence derived from it, and at most five ordered risk messages.
   */
  lemma PredictResult(m: FraudModel, tx: Transaction, ctx: HistoryContext, now: Instant, num: Numerics,
                      elapsedMs: real)
    requires Predict(m, tx, ctx, now, num, elapsedMs).Ok?
    ensures var p := Predict(m, tx, ctx, now, num, elapsedMs).value;
      && p.transactionId == tx.transactionId
      && p.modelVersion == m.modelVersion
      && p.riskLevel == RiskLevelFor(p.fraudProbability)
      && p.confidenceScore == Confidence(p.fraudProbability)
      && p.recommendations == Recommendations(p.riskLevel)
      && |p.riskFactors| <= 5
      && InCheckOrder(p.riskFactors)
      && p.explanation == ExplanationFor(p.isFraud, p.fraudProbability, tx.amount)
      && var v := m.classifier.value(m.scaler.value(ModelInput(m, tx, ctx, now, num)));
         p.isFraud == v.fraudClass && p.fraudProbability == v.probability
  {
  }

  /** A loaded, well-behaved model always produces a prediction. */
  lemma PredictSucceeds(m: FraudModel, tx: Transaction, ctx: HistoryContext, now: Instant, num: Numerics,
                        elapsedMs: real)
    requires IsLoaded(m) && WellBehaved(m)
    ensures Predict(m, tx, ctx, now, num, elapsedMs).Ok?
  {
    var x := m.scaler.value(ModelInput(m, tx, ctx, now, num));
    var v := m.classifier.value(x);
    assert 0.0 <= v.probability <= 1.0;
    ConfidenceRange(v.probability);
  }

  /** The vector given to the scaler follows the stored name order. */
  lemma ModelInputLayout(m: FraudModel, tx: Transaction, ctx: HistoryContext, now: Instant, num: Numerics)
    requires m.featureNames.Some? && |m.featureNames.value| > 0
    ensures var names := m.featureNames.value;
      var v := ModelInput(m, tx, ctx, now, num);
      && |v| == |names|
      && forall i :: 0 <= i < |v| ==>
           v[i] == (if names[i] in FeatureNames then Get(ExtractFeatures(tx, ctx, now, num), names[i]).value else 0.0)
  {
    FeatureVectorLayout(ExtractFeatures(tx, ctx, now, num), m.featureNames);
  }

  // ---------------------------------------------------------------------
  // Batch prediction

  /** The single-prediction step applied to one batch item. */
  function PredictItem(m: FraudModel, now: Instant, num: Numerics, elapsedMs: real)
    : ((Transaction, HistoryContext)) -> Result<FraudPrediction, PredictError>
  {
    (item: (Transaction, HistoryContext)) => Predict(m, item.0, item.1, now, num, elapsedMs)
  }

  /** Predictions of `items` in order; the first failure ends the batch. */
  function PredictAll(m: FraudModel, items: seq<(Transaction, HistoryContext)>, now: Instant, num: Numerics,
                      elapsedMs: real): (r: Result<seq<FraudPrediction>, PredictError>)
    ensures r.Ok? ==> |r.value| == |items|
  {
    Traverse(items, PredictItem(m, now, num, elapsedMs))
  }

  /** One prediction per input, in input order, each the single prediction of that input. */
  lemma PredictAllPointwise(m: FraudModel, items: seq<(Transaction, HistoryContext)>,
                            now: Instant, num: Numerics, elapsedMs: real)
    requires PredictAll(m, items, now, num, elapsedMs).Ok?
    ensures var ps := PredictAll(m, items, now, num, elapsedMs).value;
      forall i :: 0 <= i < |items| ==>
        && Predict(m, items[i].0, items[i].1, now, num, elapsedMs) == Ok(ps[i])
        && ps[i].transactionId == items[i].0.transactionId
  {
    var f := PredictItem(m, now, num, elapsedMs);
    TraversePointwise(items, f);
    var ps := PredictAll(m, items, now, num, elapsedMs).value;
    forall i | 0 <= i < |items|
      ensures ps[i].transactionId == items[i].0.transactionId
    {
      assert f(items[i]) == Ok(ps[i]);
      PredictResult(m, items[i].0, items[i].1, now, num, elapsedMs);
    }
  }

  /** A batch fails exactly when one of its transactions fails; never on a loaded, well-behaved model. */
  lemma PredictAllFails(m: FraudModel, items: seq<(Transaction, HistoryContext)>,
                        now: Instant, num: Numerics, elapsedMs: real)
    ensures PredictAll(m, items, now, num, elapsedMs).Err? <==>
      exists i :: 0 <= i < |items| && Predict(m, items[i].0, items[i].1, now, num, elapsedMs).Err?
    ensures IsLoaded(m) && WellBehaved(m) ==> PredictAll(m, items, now, num, elapsedMs).Ok?
    ensures !IsLoaded(m) && |items| > 0 ==> PredictAll(m, items, now, num, elapsedMs).Err?
  {
    var f := PredictItem(m, now, num, elapsedMs);
    TraverseFails(items, f);
    if IsLoaded(m) && WellBehaved(m) {
      forall i | 0 <= i < |items| ensures f(items[i]).Ok? {
        PredictSucceeds(m, items[i].0, items[i].1, now, num, elapsedMs);
      }
    }
    if !IsLoaded(m) && |items| > 0 {
      assert f(items[0]).Err?;
    }
  }

  /** `predict_batch`: predict each transaction in turn, appending to the result. */
  method PredictBatch(m: FraudModel, items: seq<(Transaction, HistoryContext)>, now: Instant, num: Numerics,
                      elapsedMs: real) returns (r: Result<seq<FraudPrediction>, PredictError>)
    ensures r == PredictAll(m, items, now, num, elapsedMs)
  {
    ghost var f := PredictItem(m, now, num, elapsedMs);
    var predictions: seq<FraudPrediction> := [];
    var k := 0;
    while k < |items|
      invariant 0 <= k <= |items|
      invariant Traverse(items[..k], f) == Ok(predictions)
    {
      var pred := Predict(m, items[k].0, items[k].1, now, num, elapsedMs);
      assert f(items[k]) == pred;
      TraverseStep(items, k, f);
      if pred.Err? {
        r := Err(pred.error);
        TraverseStops(items, k, f);
        return;
      }
      predictions := predictions + [pred.value];
      k := k + 1;
    }
    assert items[..k] == items;
    r := Ok(predictions);
  }

  // ---------------------------------------------------------------------
  // Prediction as the code is written

  /**
   * `predict` as the code is written: after the classifier has run, the
   * explanation step reads the hour from the transaction's own timestamp,
   * which raises for a missing one between 00:00 and 05:59; otherwise the
   * intended prediction.
   */
  function PredictAsWritten(m: FraudModel, tx: Transaction, ctx: HistoryContext, now: Instant, num: Numerics,
                            elapsedMs: real): (r: Result<FraudPrediction, PredictError>)
    ensures r == Err(NotLoaded) <==> !IsLoaded(m)
    ensures (r.Err? && r.error.ExplanationFailed?) <==> IsLoaded(m) && tx.timestamp.None? && Hour(now) < 6
    ensures !(tx.timestamp.None? && Hour(now) < 6) ==> r == Predict(m, tx, ctx, now, num, elapsedMs)
  {
    if !IsLoaded(m) then Err(NotLoaded)
    else
      ExplainAsWrittenFails(tx, ctx, now, num, TopFactors);
      match ExplainFeaturesAsWritten(tx, ctx, now, num, TopFactors)
      case Err(e) => Err(ExplanationFailed(e))
      case Ok(_) => Predict(m, tx, ctx, now, num, elapsedMs)
  }

  /**
   * A loaded, well-behaved model fails as written on a transaction without
   * a timestamp between 00:00 and 05:59, where the intended prediction
   * succeeds.
   */
  lemma PredictAsWrittenNightFailure(m: FraudModel, tx: Transaction, ctx: HistoryContext, now: Instant,
                                     num: Numerics, elapsedMs: real)
    requires IsLoaded(m) && WellBehaved(m) && tx.timestamp.None? && Hour(now) < 6
    ensures PredictAsWritten(m, tx, ctx, now, num, elapsedMs).Err?
    ensures PredictAsWritten(m, tx, ctx, now, num, elapsedMs).error.ExplanationFailed?
    ensures Predict(m, tx, ctx, now, num, elapsedMs).Ok?
  {
    PredictSucceeds(m, tx, ctx, now, num, elapsedMs);
  }

  function PredictItemAsWritten(m: FraudModel, now: Instant, num: Numerics, elapsedMs: real)
    : ((Transaction, HistoryContext)) -> Result<FraudPrediction, PredictError>
  {
    (item: (Transaction, HistoryContext)) => PredictAsWritten(m, item.0, item.1, now, num, elapsedMs)
  }

  /** `predict_batch` as the code is written: the first failing item ends the batch. */
  function PredictAllAsWritten(m: FraudModel, items: seq<(Transaction, HistoryContext)>, now: Instant,
                               num: Numerics, elapsedMs: real): (r: Result<seq<FraudPrediction>, PredictError>)
    ensures r.Ok? ==> |r.value| == |items|
  {
    Traverse(items, PredictItemAsWritten(m, now, num, elapsedMs))
  }

  /**
   * As written, a batch agrees with the intended one after 06:00 or when
   * every item carries a timestamp; before 06:00 a loaded, well-behaved
   * model fails the whole batch exactly when one item has no timestamp.
   */
  lemma PredictAllAsWrittenCases(m: FraudModel, items: seq<(Transaction, HistoryContext)>, now: Instant,
                                 num: Numerics, elapsedMs: real)
    ensures (Hour(now) >= 6 || forall i :: 0 <= i < |items| ==> items[i].0.timestamp.Some?) ==>
      PredictAllAsWritten(m, items, now, num, elapsedMs) == PredictAll(m, items, now, num, elapsedMs)
    ensures IsLoaded(m) && WellBehaved(m) ==>
      (PredictAllAsWritten(m, items, now, num, elapsedMs).Err? <==>
         Hour(now) < 6 && exists i :: 0 <= i < |items| && items[i].0.timestamp.None?)
  {
    var f := PredictItemAsWritten(m, now, num, elapsedMs);
    var g := PredictItem(m, now, num, elapsedMs);
    if Hour(now) >= 6 || forall i :: 0 <= i < |items| ==> items[i].0.timestamp.Some? {
      forall i | 0 <= i < |items| ensures f(items[i]) == g(items[i]) {
      }
      TraverseAgree(items, f, g);
    }
    if IsLoaded(m) && WellBehaved(m) {
      TraverseFails(items, f);
      forall i | 0 <= i < |items|
        ensures f(items[i]).Err? <==> Hour(now) < 6 && items[i].0.timestamp.None?
      {
        PredictSucceeds(m, items[i].0, items[i].1, now, num, elapsedMs);
      }
    }
  }
}

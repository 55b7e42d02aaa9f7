// The data model of the scoring service: transactions, predictions, user
// histories, health reports, and the validation rules attached to them.

module Domain {
  import opened Base

  // ---------------------------------------------------------------------
  // Time

  /**
   * A naive local date-time, as whole seconds since 1970-01-01 00:00
   * (a Thursday). Sub-second precision is not modelled.
   */
  datatype Instant = Instant(seconds: int)

  const SecondsPerHour: int := 3600
  const SecondsPerDay: int := 86400

  /** `datetime.hour`. */
  function Hour(t: Instant): (h: int)
    ensures 0 <= h < 24
    ensures h * SecondsPerHour <= t.seconds % SecondsPerDay < (h + 1) * SecondsPerHour
  {
    (t.seconds % SecondsPerDay) / SecondsPerHour
  }

  /** `datetime.weekday()`: Monday is 0, Sunday is 6. */
  function Weekday(t: Instant): (d: int)
    ensures 0 <= d < 7
  {
    (t.seconds / SecondsPerDay + 3) % 7
  }

  /** `(later - earlier).total_seconds()`. */
  function SecondsBetween(later: Instant, earlier: Instant): (s: int)
    ensures earlier.seconds + s == later.seconds
  {
    later.seconds - earlier.seconds
  }

  lemma {:induction false} WeekdayAdvances(t: Instant)
    ensures Weekday(Instant(t.seconds + SecondsPerDay)) == (Weekday(t) + 1) % 7
    ensures Hour(Instant(t.seconds + SecondsPerDay)) == Hour(t)
  {
    var d := t.seconds / SecondsPerDay;
    assert (t.seconds + SecondsPerDay) / SecondsPerDay == d + 1;
    assert (t.seconds + SecondsPerDay) % SecondsPerDay == t.seconds % SecondsPerDay;
  }

  /** 1970-01-01 was a Thursday. */
  lemma WeekdayOfEpoch()
    ensures Weekday(Instant(0)) == 3
    ensures Weekday(Instant(SecondsPerDay - 1)) == 3
  {
  }

  /**
   * Every second of the `n`-th day after 1970-01-01 falls on the same
   * weekday, three places after Monday plus one place per day.
   */
  lemma {:induction false} WeekdayOfDay(n: nat, r: int)
    requires 0 <= r < SecondsPerDay
    ensures Weekday(Instant(n * SecondsPerDay + r)) == (n + 3) % 7
  {
    if n > 0 {
      WeekdayOfDay(n - 1, r);
      WeekdayAdvances(Instant((n - 1) * SecondsPerDay + r));
      assert (n - 1) * SecondsPerDay + r + SecondsPerDay == n * SecondsPerDay + r;
    }
  }

  // ---------------------------------------------------------------------
  // Enumerations

  datatype RiskLevel = Low | Medium | High

  function RiskLevelValue(r: RiskLevel): (s: string)
    ensures |s| > 0
  {
    match r
    case Low => "low"
    case Medium => "medium"
    case High => "high"
  }

  function ParseRiskLevel(s: string): (r: Option<RiskLevel>)
    ensures r.Some? ==> RiskLevelValue(r.value) == s
  {
    if s == "low" then Some(Low)
    else if s == "medium" then Some(Medium)
    else if s == "high" then Some(High)
    else None
  }

  /** The three risk values are distinct and every value parses back. */
  lemma RiskLevelRoundTrip(r: RiskLevel)
    ensures ParseRiskLevel(RiskLevelValue(r)) == Some(r)
  {
  }

  datatype Category = Electronics | Fashion | Food | Travel | Services | Entertainment | Health | Other

  function CategoryValue(c: Category): (s: string)
    ensures |s| > 0
  {
    match c
    case Electronics => "electronics"
    case Fashion => "fashion"
    case Food => "food"
    case Travel => "travel"
    case Services => "services"
    case Entertainment => "entertainment"
    case Health => "health"
    case Other => "other"
  }

  /** The value strings of the eight categories, in declaration order. */
  const CategoryValues: seq<string> :=
    ["electronics", "fashion", "food", "travel", "services", "entertainment", "health", "other"]

  function ParseCategory(s: string): (r: Option<Category>)
    ensures r.Some? ==> CategoryValue(r.value) == s
    ensures r.None? ==> s !in CategoryValues
  {
    if s == "electronics" then Some(Electronics)
    else if s == "fashion" then Some(Fashion)
    else if s == "food" then Some(Food)
    else if s == "travel" then Some(Travel)
    else if s == "services" then Some(Services)
    else if s == "entertainment" then Some(Entertainment)
    else if s == "health" then Some(Health)
    else if s == "other" then Some(Other)
    else None
  }

  lemma CategoryRoundTrip(c: Category)
    ensures ParseCategory(CategoryValue(c)) == Some(c)
    ensures CategoryValue(c) in CategoryValues
  {
  }

  // ---------------------------------------------------------------------
  // Transactions

  datatype Transaction = Transaction(
    transactionId: string,
    userId: string,
    amount: real,
    merchant: string,
    category: Category,
    location: string,
    device: string,
    timestamp: Option<Instant>,
    ipAddress: Option<string>,
    userAgent: Option<string>)

  /** Largest accepted amount (one million). */
  const MaxAmount: real := 1000000.0

  datatype AmountError = NotPositive | AboveLimit

  /** The `amount` field check: strictly positive and at most one million. */
  function ValidateAmount(v: real): (r: Result<real, AmountError>)
    ensures r.Ok? <==> 0.0 < v <= MaxAmount
    ensures r.Ok? ==> r.value == v
    ensures r == Err(NotPositive) <==> v <= 0.0
    ensures r == Err(AboveLimit) <==> v > MaxAmount
  {
    if v <= 0.0 then Err(NotPositive)
    else if v > MaxAmount then Err(AboveLimit)
    else Ok(v)
  }

  predicate ValidTransaction(t: Transaction)
  {
    ValidateAmount(t.amount).Ok?
  }

  const MaxBatchSize: int := 100

  datatype BatchError = EmptyBatch | BatchTooLarge

  /** The batch request check: between 1 and 100 transactions. */
  function ValidateBatch(txs: seq<Transaction>): (r: Result<seq<Transaction>, BatchError>)
    ensures r.Ok? <==> 1 <= |txs| <= MaxBatchSize
    ensures r.Ok? ==> r.value == txs
    ensures r == Err(EmptyBatch) <==> |txs| == 0
    ensures r == Err(BatchTooLarge) <==> |txs| > MaxBatchSize
  {
    if |txs| == 0 then Err(EmptyBatch)
    else if |txs| > MaxBatchSize then Err(BatchTooLarge)
    else Ok(txs)
  }

  // ---------------------------------------------------------------------
  // Predictions

  /** One human-readable risk message of the feature explanation. */
  datatype RiskFactor =
    | VeryHighValue(amount: real)
    | HighValue(amount: real)
    | WayAboveAverage
    | MuchAboveAverage
    | SuspiciousHour(hour: int)
    | NightTime
    | NewUser
    | FraudHistory(ratePercent: real)
    | UnknownDevice
    | UnusualLocation
    | NewDevice
    | RapidSuccession

  /** The explanation sentence, by branch, with the figures it quotes. */
  datatype Explanation =
    | HighlySuspicious(probability: real, amount: real)
    | ProbableFraud(probability: real)
    | PossibleFraud(probability: real)
    | Legitimate(confidence: real)

  datatype FraudPrediction = FraudPrediction(
    transactionId: string,
    isFraud: bool,
    fraudProbability: real,
    riskLevel: RiskLevel,
    confidenceScore: real,
    explanation: Explanation,
    riskFactors: seq<RiskFactor>,
    processingTimeMs: real,
    modelVersion: string,
    timestamp: Instant,
    recommendations: seq<string>)

  /** The field constraints checked when a prediction is built. */
  predicate PredictionInRange(p: FraudPrediction)
  {
    0.0 <= p.fraudProbability <= 1.0 && 0.0 <= p.confidenceScore <= 1.0
  }

  datatype UserHistory = UserHistory(
    userId: string,
    totalTransactions: int,
    totalAmount: real,
    averageAmount: real,
    fraudCount: int,
    fraudRate: real,
    lastTransactionDate: Option<Instant>,
    mostCommonCategory: Option<string>,
    mostCommonLocation: Option<string>,
    knownDevices: seq<string>)

  datatype SystemHealth = SystemHealth(
    status: string,
    timestamp: Instant,
    apiStatus: string,
    modelStatus: string,
    redisStatus: string,
    totalPredictions: int,
    cacheHitRate: real,
    averageResponseTimeMs: real,
    modelVersion: string,
    modelAccuracy: Option<real>,
    lastTrainingDate: Option<Instant>)

  /** The field constraint checked when a health report is built. */
  predicate HealthInRange(h: SystemHealth)
  {
    0.0 <= h.cacheHitRate <= 1.0
  }

  datatype BatchPredictionResponse = BatchPredictionResponse(
    totalTransactions: int,
    fraudDetected: int,
    predictions: seq<FraudPrediction>,
    processingTimeMs: real)
}

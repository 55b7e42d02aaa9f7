// Feature extraction for one transaction: five groups of numeric features
// (transaction, time of day, user behaviour, location, device), their
// by-name lookup and vector layout, and the ordered risk explanation.

module Features {
  import opened Base
  import opened Domain

  /**
   * The numeric primitives the extraction calls but that are not modelled:
   * `log1p`, the sine and cosine hour encodings, and the string hash.
   */
  datatype Numerics = Numerics(
    log1p: real -> real,
    hourSin: int -> real,
    hourCos: int -> real,
    hash: string -> int)

  // ---------------------------------------------------------------------
  // Transaction features

  /** The category code table; a name's code is its index here. */
  const CategoryMapping: seq<string> :=
    ["electronics", "fashion", "food", "travel", "services", "entertainment", "health", "other"]

  /** The code of the first table entry at or after `from` equal to `name`, 7 if none. */
  function CodeFrom(name: string, from: nat): (code: int)
    requires from <= |CategoryMapping|
    ensures 0 <= code <= 7
    ensures name in CategoryMapping[from..] ==> from <= code && CategoryMapping[code] == name
    ensures name !in CategoryMapping[from..] ==> code == 7
    decreases |CategoryMapping| - from
  {
    if from == |CategoryMapping| then 7
    else if CategoryMapping[from] == name then from
    else CodeFrom(name, from + 1)
  }

  /** `category_mapping.get(name, 7)`. */
  function CategoryCode(name: string): (code: int)
    ensures 0 <= code <= 7
    ensures name in CategoryMapping ==> CategoryMapping[code] == name
    ensures name !in CategoryMapping ==> code == 7
  {
    assert CategoryMapping[0..] == CategoryMapping;
    CodeFrom(name, 0)
  }

  /** Every enum category has its own code, the table is the enum's value list. */
  lemma CategoryCodeOfEnum(c: Category)
    ensures CategoryMapping == CategoryValues
    ensures 0 <= CategoryCode(CategoryValue(c)) <= 7
    ensures CategoryMapping[CategoryCode(CategoryValue(c))] == CategoryValue(c)
    ensures CategoryCode(CategoryValue(c)) == 0 <==> c == Electronics
    ensures CategoryCode(CategoryValue(c)) == 3 <==> c == Travel
    ensures CategoryCode(CategoryValue(c)) == 7 <==> c == Other
  {
    CategoryRoundTrip(c);
  }

  datatype TransactionFeatures = TransactionFeatures(
    amount: real,
    amountLog: real,
    isHighValue: real,
    isVeryHighValue: real,
    isLowValue: real,
    categoryCode: real,
    isElectronics: real,
    isTravel: real)

  function TransactionFeaturesOf(tx: Transaction, num: Numerics): (f: TransactionFeatures)
  {
    TransactionFeatures(
      tx.amount,
      num.log1p(tx.amount),
      Flag(tx.amount > 1000.0),
      Flag(tx.amount > 5000.0),
      Flag(tx.amount < 50.0),
      CategoryCode(CategoryValue(tx.category)) as real,
      Flag(CategoryValue(tx.category) == "electronics"),
      Flag(CategoryValue(tx.category) == "travel"))
  }

  /** The amount bands: high above 1000, very high above 5000, low below 50. */
  lemma AmountBands(tx: Transaction, num: Numerics)
    ensures var f := TransactionFeaturesOf(tx, num);
      && (f.isHighValue == 1.0 <==> tx.amount > 1000.0)
      && (f.isVeryHighValue == 1.0 <==> tx.amount > 5000.0)
      && (f.isLowValue == 1.0 <==> tx.amount < 50.0)
      && (f.isVeryHighValue == 1.0 ==> f.isHighValue == 1.0)
      && !(f.isLowValue == 1.0 && f.isHighValue == 1.0)
  {
  }

  /** The category features are the table code and two exact-match indicators. */
  lemma CategoryFeatures(tx: Transaction, num: Numerics)
    ensures var f := TransactionFeaturesOf(tx, num);
      && 0.0 <= f.categoryCode <= 7.0
      && (f.isElectronics == 1.0 <==> tx.category == Electronics)
      && (f.isTravel == 1.0 <==> tx.category == Travel)
      && (f.categoryCode == 0.0 <==> tx.category == Electronics)
      && (f.categoryCode == 3.0 <==> tx.category == Travel)
  {
    CategoryCodeOfEnum(tx.category);
    CategoryRoundTrip(tx.category);
    CategoryRoundTrip(Electronics);
    CategoryRoundTrip(Travel);
  }

  // ---------------------------------------------------------------------
  // Temporal features

  /** `transaction.timestamp or datetime.now()`. */
  function EffectiveTimestamp(tx: Transaction, now: Instant): (t: Instant)
    ensures tx.timestamp.Some? ==> t == tx.timestamp.value
    ensures tx.timestamp.None? ==> t == now
  {
    match tx.timestamp
    case Some(t) => t
    case None => now
  }

  datatype TemporalFeatures = TemporalFeatures(
    hour: real,
    hourSin: real,
    hourCos: real,
    dayOfWeek: real,
    isWeekend: real,
    isMadrugada: real,
    isManha: real,
    isTarde: real,
    isNoite: real,
    isSuspiciousHour: real)

  function TemporalFeaturesOf(tx: Transaction, now: Instant, num: Numerics): (f: TemporalFeatures)
  {
    var t := EffectiveTimestamp(tx, now);
    var hour := Hour(t);
    TemporalFeatures(
      hour as real,
      num.hourSin(hour),
      num.hourCos(hour),
      Weekday(t) as real,
      Flag(Weekday(t) >= 5),
      Flag(0 <= hour < 6),
      Flag(6 <= hour < 12),
      Flag(12 <= hour < 18),
      Flag(18 <= hour < 24),
      Flag(hour < 6 || hour > 23))
  }

  /** The number of day-period indicators that are set. */
  function PeriodsSet(f: TemporalFeatures): real
  {
    f.isMadrugada + f.isManha + f.isTarde + f.isNoite
  }

  /**
   * Exactly one day period is set; the weekend flag follows the weekday;
   * the `hour > 23` disjunct never fires, so the suspicious-hour flag is
   * the night flag.
   */
  lemma DayPeriods(tx: Transaction, now: Instant, num: Numerics)
    ensures var f := TemporalFeaturesOf(tx, now, num);
      && PeriodsSet(f) == 1.0
      && 0.0 <= f.hour < 24.0
      && (f.isWeekend == 1.0 <==> Weekday(EffectiveTimestamp(tx, now)) >= 5)
      && (f.isSuspiciousHour == 1.0 <==> f.hour < 6.0)
      && f.isSuspiciousHour == f.isMadrugada
  {
  }

  // ---------------------------------------------------------------------
  // Behavioural features

  datatype BehavioralFeatures = BehavioralFeatures(
    amountVsAvg: real,
    amountDeviation: real,
    isAboveAvg: real,
    isMuchAboveAvg: real,
    isWayAboveAvg: real,
    userFraudRate: real,
    userTransactionCount: real,
    isNewUser: real,
    isExperiencedUser: real,
    isUsualCategory: real,
    isUsualLocation: real,
    isKnownDevice: real,
    hoursSinceLastTx: real,
    isRapidSuccession: real)

  /** The behavioural features used without a usable history. */
  const DefaultBehavioral: BehavioralFeatures :=
    BehavioralFeatures(1.0, 0.0, 0.0, 0.0, 0.0, 0.0, 0.0, 1.0, 0.0, 0.0, 0.0, 0.0, 999.0, 0.0)

  /** Where the behavioural group comes from. */
  datatype HistoryContext =
    | NoStore                          // the engineer has no store client
    | Read(history: Option<UserHistory>) // the store's answer for the user
    | Raised                           // reading or using the history raised

  function Abs(x: real): (r: real)
    ensures r >= 0.0 && (r == x || r == -x)
  {
    if x < 0.0 then -x else x
  }

  /** The gap between a transaction and a previous one, in seconds. */
  function GapSeconds(tx: Transaction, last: Instant, now: Instant): int
  {
    SecondsBetween(EffectiveTimestamp(tx, now), last)
  }

  function FromHistory(tx: Transaction, h: UserHistory, now: Instant): (f: BehavioralFeatures)
  {
    var avg := h.averageAmount;
    var amount := tx.amount;
    BehavioralFeatures(
      if avg > 0.0 then amount / avg else 1.0,
      Abs(amount - avg),
      Flag(amount > avg),
      Flag(amount > avg * 2.0),
      Flag(amount > avg * 3.0),
      h.fraudRate / 100.0,
      h.totalTransactions as real,
      Flag(h.totalTransactions < 5),
      Flag(h.totalTransactions > 50),
      Flag(h.mostCommonCategory == Some(CategoryValue(tx.category))),
      Flag(h.mostCommonLocation == Some(tx.location)),
      Flag(tx.device in h.knownDevices),
      match h.lastTransactionDate
      case Some(last) => GapSeconds(tx, last, now) as real / 3600.0
      case None => 999.0,
      match h.lastTransactionDate
      case Some(last) => Flag(GapSeconds(tx, last, now) < 300)
      case None => 0.0)
  }

  /** A history is used only when there is one with at least one transaction. */
  predicate UsableHistory(ctx: HistoryContext)
  {
    ctx.Read? && ctx.history.Some? && ctx.history.value.totalTransactions > 0
  }

  function BehavioralFeaturesOf(tx: Transaction, ctx: HistoryContext, now: Instant): (f: BehavioralFeatures)
  {
    if UsableHistory(ctx) then FromHistory(tx, ctx.history.value, now)
    else DefaultBehavioral
  }

  /** The default group is chosen exactly when no usable history exists. */
  lemma DefaultWhenNoHistory(tx: Transaction, ctx: HistoryContext, now: Instant)
    ensures !UsableHistory(ctx) ==> BehavioralFeaturesOf(tx, ctx, now) == DefaultBehavioral
    ensures ctx == NoStore || ctx == Raised || ctx == Read(None) ==>
      BehavioralFeaturesOf(tx, ctx, now) == DefaultBehavioral
    ensures DefaultBehavioral.isNewUser == 1.0 && DefaultBehavioral.amountVsAvg == 1.0
    ensures DefaultBehavioral.hoursSinceLastTx == 999.0
    ensures UsableHistory(ctx) ==> BehavioralFeaturesOf(tx, ctx, now).userTransactionCount > 0.0
  {
  }

  /** With a non-negative average, way above implies much above implies above. */
  lemma AverageBands(tx: Transaction, h: UserHistory, now: Instant)
    requires h.averageAmount >= 0.0
    ensures var f := FromHistory(tx, h, now);
      && (f.isWayAboveAvg == 1.0 ==> f.isMuchAboveAvg == 1.0)
      && (f.isMuchAboveAvg == 1.0 ==> f.isAboveAvg == 1.0)
      && (h.averageAmount > 0.0 ==> f.amountVsAvg * h.averageAmount == tx.amount)
      && (h.averageAmount == 0.0 ==> f.amountVsAvg == 1.0)
  {
  }

  /** User experience bands and the succession rule. */
  lemma ExperienceAndSuccession(tx: Transaction, h: UserHistory, now: Instant)
    ensures var f := FromHistory(tx, h, now);
      && !(f.isNewUser == 1.0 && f.isExperiencedUser == 1.0)
      && (f.isNewUser == 1.0 <==> h.totalTransactions < 5)
      && (f.isExperiencedUser == 1.0 <==> h.totalTransactions > 50)
      && (h.lastTransactionDate.None? ==> f.hoursSinceLastTx == 999.0 && f.isRapidSuccession == 0.0)
      && (h.lastTransactionDate.Some? ==>
            (f.isRapidSuccession == 1.0 <==> GapSeconds(tx, h.lastTransactionDate.value, now) < 300))
      && (f.isKnownDevice == 1.0 <==> tx.device in h.knownDevices)
  {
  }

  // ---------------------------------------------------------------------
  // Location and device features

  const MajorCities: seq<string> :=
    ["s\U{e3}o paulo", "rio de janeiro", "bras\U{ed}lia", "belo horizonte", "curitiba"]

  /** The modulus applied to the string hash. */
  const HashBuckets: int := 10000

  datatype LocationFeatures = LocationFeatures(
    isMajorCity: real,
    locationNameLength: real,
    locationHash: real)

  function LocationFeaturesOf(tx: Transaction, num: Numerics): (f: LocationFeatures)
  {
    var location := Lower(tx.location);
    LocationFeatures(
      Flag(exists city :: city in MajorCities && ContainsText(location, city)),
      |tx.location| as real,
      (num.hash(tx.location) % HashBuckets) as real)
  }

  datatype DeviceFeatures = DeviceFeatures(
    isMobile: real,
    isWeb: real,
    isTablet: real,
    isNewDevice: real,
    deviceHash: real)

  function DeviceFeaturesOf(tx: Transaction, num: Numerics): (f: DeviceFeatures)
  {
    var device := Lower(tx.device);
    DeviceFeatures(
      Flag(ContainsText(device, "mobile") || ContainsText(device, "phone")),
      Flag(ContainsText(device, "web") || ContainsText(device, "browser")),
      Flag(ContainsText(device, "tablet") || ContainsText(device, "ipad")),
      Flag(ContainsText(device, "new") || ContainsText(device, "unknown")),
      (num.hash(tx.device) % HashBuckets) as real)
  }

  /** Substring rules on the lower-cased text, and hashes folded into [0, 10000). */
  lemma LocationAndDevice(tx: Transaction, num: Numerics)
    ensures var l := LocationFeaturesOf(tx, num);
      && (l.isMajorCity == 1.0 <==> exists city :: city in MajorCities && Contains(Lower(tx.location), city))
      && l.locationNameLength == |tx.location| as real
      && 0.0 <= l.locationHash < 10000.0
    ensures var d := DeviceFeaturesOf(tx, num);
      && (d.isMobile == 1.0 <==> Contains(Lower(tx.device), "mobile") || Contains(Lower(tx.device), "phone"))
      && (d.isWeb == 1.0 <==> Contains(Lower(tx.device), "web") || Contains(Lower(tx.device), "browser"))
      && (d.isTablet == 1.0 <==> Contains(Lower(tx.device), "tablet") || Contains(Lower(tx.device), "ipad"))
      && (d.isNewDevice == 1.0 <==> Contains(Lower(tx.device), "new") || Contains(Lower(tx.device), "unknown"))
      && 0.0 <= d.deviceHash < 10000.0
  {
  }

  // ---------------------------------------------------------------------
  // The whole feature map

  datatype FeatureMap = FeatureMap(
    transaction: TransactionFeatures,
    temporal: TemporalFeatures,
    behavioral: BehavioralFeatures,
    location: LocationFeatures,
    device: DeviceFeatures)

  /** All five groups; the behavioural group is the default one without a store. */
  function ExtractFeatures(tx: Transaction, ctx: HistoryContext, now: Instant, num: Numerics): (f: FeatureMap)
    ensures ctx == NoStore ==> f.behavioral == DefaultBehavioral
  {
    FeatureMap(
      TransactionFeaturesOf(tx, num),
      TemporalFeaturesOf(tx, now, num),
      BehavioralFeaturesOf(tx, ctx, now),
      LocationFeaturesOf(tx, num),
      DeviceFeaturesOf(tx, num))
  }

  /** The feature names, in the order the groups insert them. */
  const FeatureNames: seq<string> := [
    "amount", "amount_log", "is_high_value", "is_very_high_value", "is_low_value",
    "category_code", "is_electronics", "is_travel",
    "hour", "hour_sin", "hour_cos", "day_of_week", "is_weekend",
    "is_madrugada", "is_manha", "is_tarde", "is_noite", "is_suspicious_hour",
    "amount_vs_avg", "amount_deviation", "is_above_avg", "is_much_above_avg", "is_way_above_avg",
    "user_fraud_rate", "user_transaction_count", "is_new_user", "is_experienced_user",
    "is_usual_category", "is_usual_location", "is_known_device",
    "hours_since_last_tx", "is_rapid_succession",
    "is_major_city", "location_name_length", "location_hash",
    "is_mobile", "is_web", "is_tablet", "is_new_device", "device_hash"]

  /** The feature values, aligned with `FeatureNames`. */
  function Values(f: FeatureMap): (v: seq<real>)
    ensures |v| == |FeatureNames|
  {
    var t := f.transaction;
    var c := f.temporal;
    var b := f.behavioral;
    var l := f.location;
    var d := f.device;
    [t.amount, t.amountLog, t.isHighValue, t.isVeryHighValue, t.isLowValue,
     t.categoryCode, t.isElectronics, t.isTravel,
     c.hour, c.hourSin, c.hourCos, c.dayOfWeek, c.isWeekend,
     c.isMadrugada, c.isManha, c.isTarde, c.isNoite, c.isSuspiciousHour,
     b.amountVsAvg, b.amountDeviation, b.isAboveAvg, b.isMuchAboveAvg, b.isWayAboveAvg,
     b.userFraudRate, b.userTransactionCount, b.isNewUser, b.isExperiencedUser,
     b.isUsualCategory, b.isUsualLocation, b.isKnownDevice,
     b.hoursSinceLastTx, b.isRapidSuccession,
     l.isMajorCity, l.locationNameLength, l.locationHash,
     d.isMobile, d.isWeb, d.isTablet, d.isNewDevice, d.deviceHash]
  }

  /** First-match lookup of `name` among aligned keys and values. */
  function Lookup(keys: seq<string>, vals: seq<real>, name: string): (r: Option<real>)
    requires |keys| == |vals|
    ensures r.Some? <==> name in keys
    ensures r.Some? ==> exists i :: 0 <= i < |keys| && keys[i] == name && vals[i] == r.value
  {
    if |keys| == 0 then None
    else if keys[0] == name then Some(vals[0])
    else
      var r := Lookup(keys[1..], vals[1..], name);
      assert name in keys[1..] ==> name in keys;
      assert r.Some? ==> exists i :: 0 <= i < |keys| - 1 && keys[1..][i] == name && vals[1..][i] == r.value;
      r
  }

  /** `features.get(name)`. */
  function Get(f: FeatureMap, name: string): (r: Option<real>)
    ensures r.Some? <==> name in FeatureNames
  {
    Lookup(FeatureNames, Values(f), name)
  }

  /** The set of keys of the feature map. */
  const FeatureKeys: set<string> := set n | n in FeatureNames

  /** `[features.get(name, 0.0) for name in names]`. */
  function Vectorize(f: FeatureMap, names: seq<string>): (v: seq<real>)
    ensures |v| == |names|
    ensures forall i :: 0 <= i < |names| && names[i] !in FeatureNames ==> v[i] == 0.0
    ensures forall i :: 0 <= i < |names| && names[i] in FeatureNames ==> Get(f, names[i]) == Some(v[i])
  {
    seq(|names|, i requires 0 <= i < |names| =>
      match Get(f, names[i])
      case Some(x) => x
      case None => 0.0)
  }

  /** `[features[k] for k in sorted(features.keys())]`: every key is present. */
  function SortedVector(f: FeatureMap): (v: seq<real>)
    ensures |v| == |FeatureKeys|
    ensures forall i :: 0 <= i < |v| ==> Get(f, SortedKeys(FeatureKeys)[i]) == Some(v[i])
  {
    var keys := SortedKeys(FeatureKeys);
    assert forall k :: k in keys ==> k in FeatureNames;
    Present(f, keys)
  }

  function Present(f: FeatureMap, keys: seq<string>): (v: seq<real>)
    requires forall k :: k in keys ==> k in FeatureNames
    ensures |v| == |keys|
    ensures forall i :: 0 <= i < |v| ==> Get(f, keys[i]) == Some(v[i])
  {
    seq(|keys|, i requires 0 <= i < |keys| => Get(f, keys[i]).value)
  }

  /**
   * The model input: in the given name order when a non-empty name list is
   * known, otherwise in sorted key order.
   */
  function FeatureVector(f: FeatureMap, names: Option<seq<string>>): (v: seq<real>)
  {
    if names.Some? && |names.value| > 0 then Vectorize(f, names.value)
    else SortedVector(f)
  }

  /** The vector has one entry per requested name, 0.0 for unknown names. */
  lemma FeatureVectorLayout(f: FeatureMap, names: Option<seq<string>>)
    ensures names.Some? && |names.value| > 0 ==>
      var v := FeatureVector(f, names);
      && |v| == |names.value|
      && forall i :: 0 <= i < |v| ==>
           v[i] == (if names.value[i] in FeatureNames then Get(f, names.value[i]).value else 0.0)
    ensures names.None? || names == Some([]) ==>
      var v := FeatureVector(f, names);
      && |v| == |FeatureKeys|
      && StrictlyAscending(SortedKeys(FeatureKeys))
      && forall i :: 0 <= i < |v| ==> Get(f, SortedKeys(FeatureKeys)[i]) == Some(v[i])
  {
  }

  /** `create_feature_vector`: extraction followed by the vector layout. */
  function CreateFeatureVector(tx: Transaction, ctx: HistoryContext, now: Instant, num: Numerics,
                               names: Option<seq<string>>): (v: seq<real>)
    ensures names.Some? && |names.value| > 0 ==> |v| == |names.value|
  {
    FeatureVector(ExtractFeatures(tx, ctx, now, num), names)
  }

  // ---------------------------------------------------------------------
  // Explanation

  /** The number of explanation checks, in source order. */
  const CheckCount: nat := 12

  /** The position of a message's check in the fixed check order. */
  function Rank(x: RiskFactor): (k: nat)
    ensures k < CheckCount
  {
    match x
    case VeryHighValue(_) => 0
    case HighValue(_) => 1
    case WayAboveAverage => 2
    case MuchAboveAverage => 3
    case SuspiciousHour(_) => 4
    case NightTime => 5
    case NewUser => 6
    case FraudHistory(_) => 7
    case UnknownDevice => 8
    case UnusualLocation => 9
    case NewDevice => 10
    case RapidSuccession => 11
  }

  /**
   * The message of check `k`, if it fires. `hour` is the hour quoted by the
   * suspicious-hour message.
   */
  function Check(f: FeatureMap, amount: real, hour: int, k: nat): (r: Option<RiskFactor>)
    ensures r.Some? ==> Rank(r.value) == k
  {
    var t := f.transaction;
    var b := f.behavioral;
    if k == 0 then (if t.isVeryHighValue == 1.0 then Some(VeryHighValue(amount)) else None)
    else if k == 1 then (if t.isVeryHighValue != 1.0 && t.isHighValue == 1.0 then Some(HighValue(amount)) else None)
    else if k == 2 then (if b.isWayAboveAvg == 1.0 then Some(WayAboveAverage) else None)
    else if k == 3 then (if b.isWayAboveAvg != 1.0 && b.isMuchAboveAvg == 1.0 then Some(MuchAboveAverage) else None)
    else if k == 4 then (if f.temporal.isSuspiciousHour == 1.0 then Some(SuspiciousHour(hour)) else None)
    else if k == 5 then (if f.temporal.isMadrugada == 1.0 then Some(NightTime) else None)
    else if k == 6 then (if b.isNewUser == 1.0 then Some(NewUser) else None)
    else if k == 7 then (if b.userFraudRate > 0.05 then Some(FraudHistory(b.userFraudRate * 100.0)) else None)
    else if k == 8 then (if b.isKnownDevice == 0.0 then Some(UnknownDevice) else None)
    else if k == 9 then (if b.isUsualLocation == 0.0 then Some(UnusualLocation) else None)
    else if k == 10 then (if f.device.isNewDevice == 1.0 then Some(NewDevice) else None)
    else if k == 11 then (if b.isRapidSuccession == 1.0 then Some(RapidSuccession) else None)
    else None
  }

  /** Strictly increasing check positions: fixed order, no repeats. */
  predicate InCheckOrder(xs: seq<RiskFactor>)
  {
    forall i, j :: 0 <= i < j < |xs| ==> Rank(xs[i]) < Rank(xs[j])
  }

  /** The messages of checks `k` onwards, in check order. */
  function Messages(f: FeatureMap, amount: real, hour: int, k: nat): (xs: seq<RiskFactor>)
    ensures InCheckOrder(xs)
    ensures forall x :: x in xs ==> k <= Rank(x)
    ensures |xs| <= if k <= CheckCount then CheckCount - k else 0
    decreases CheckCount - k
  {
    if k >= CheckCount then []
    else
      var rest := Messages(f, amount, hour, k + 1);
      match Check(f, amount, hour, k)
      case Some(x) => [x] + rest
      case None => rest
  }

  /** Python's `xs[:n]`: a negative `n` drops that many items from the end. */
  function PyPrefix<T>(xs: seq<T>, n: int): (r: seq<T>)
    ensures |r| <= |xs| && r == xs[..|r|]
    ensures n >= 0 ==> |r| == if n < |xs| then n else |xs|
    ensures n < 0 ==> |r| == if |xs| + n > 0 then |xs| + n else 0
  {
    if n >= 0 then (if n < |xs| then xs[..n] else xs)
    else if |xs| + n > 0 then xs[..|xs| + n]
    else []
  }

  /** The messages of all checks on a feature map, cut to `topN`. */
  function Explain(f: FeatureMap, amount: real, hour: int, topN: int): (r: seq<RiskFactor>)
    ensures topN >= 0 ==> |r| <= topN
    ensures |r| <= CheckCount
    ensures InCheckOrder(r)
    ensures |r| <= |Messages(f, amount, hour, 0)| && r == Messages(f, amount, hour, 0)[..|r|]
  {
    var all := Messages(f, amount, hour, 0);
    var r := PyPrefix(all, topN);
    assert forall i :: 0 <= i < |r| ==> r[i] == all[i];
    r
  }

  /**
   * `explain_features(transaction, top_n)`: the checks run on the extracted
   * features; the suspicious-hour message quotes the hour the features
   * were computed from.
   */
  function ExplainFeatures(tx: Transaction, ctx: HistoryContext, now: Instant, num: Numerics, topN: int)
    : (r: seq<RiskFactor>)
    ensures topN >= 0 ==> |r| <= topN
    ensures InCheckOrder(r)
  {
    Explain(ExtractFeatures(tx, ctx, now, num), tx.amount, Hour(EffectiveTimestamp(tx, now)), topN)
  }

  /** A message is present exactly when its own check fires. */
  lemma {:induction false} MessagesMember(f: FeatureMap, amount: real, hour: int, k: nat, x: RiskFactor)
    ensures x in Messages(f, amount, hour, k) <==> k <= Rank(x) && Check(f, amount, hour, Rank(x)) == Some(x)
    decreases CheckCount - k
  {
    if k < CheckCount {
      MessagesMember(f, amount, hour, k + 1, x);
    }
  }

  /** Never both alternatives of an `elif` pair: very high or high value, three or two times the average. */
  predicate ElifExclusive(xs: seq<RiskFactor>)
  {
    && ((forall x :: x in xs ==> !x.VeryHighValue?) || (forall x :: x in xs ==> !x.HighValue?))
    && ((forall x :: x in xs ==> !x.WayAboveAverage?) || (forall x :: x in xs ==> !x.MuchAboveAverage?))
  }

  lemma MessagesAlternatives(f: FeatureMap, amount: real, hour: int)
    ensures ElifExclusive(Messages(f, amount, hour, 0))
  {
    var all := Messages(f, amount, hour, 0);
    if exists x :: x in all && x.VeryHighValue? {
      var x :| x in all && x.VeryHighValue?;
      MessagesMember(f, amount, hour, 0, x);
      forall y | y in all ensures !y.HighValue? {
        MessagesMember(f, amount, hour, 0, y);
      }
    }
    if exists x :: x in all && x.WayAboveAverage? {
      var x :| x in all && x.WayAboveAverage?;
      MessagesMember(f, amount, hour, 0, x);
      forall y | y in all ensures !y.MuchAboveAverage? {
        MessagesMember(f, amount, hour, 0, y);
      }
    }
  }

  /** The explanation never holds both alternatives of an `elif` pair. */
  lemma ExplainAlternatives(f: FeatureMap, amount: real, hour: int, topN: int)
    ensures ElifExclusive(Explain(f, amount, hour, topN))
  {
    var all := Messages(f, amount, hour, 0);
    var r := Explain(f, amount, hour, topN);
    MessagesAlternatives(f, amount, hour);
    assert forall x :: x in r ==> x in all;
  }

  /**
   * Without a usable history and with the amount, time and device checks
   * silent, the messages are exactly: new user, unknown device, unusual
   * location.
   */
  lemma {:induction false} NewUserMessages(f: FeatureMap, amount: real, hour: int)
    requires f.behavioral == DefaultBehavioral
    requires f.transaction.isHighValue == 0.0 && f.transaction.isVeryHighValue == 0.0
    requires f.temporal.isSuspiciousHour == 0.0 && f.temporal.isMadrugada == 0.0
    requires f.device.isNewDevice == 0.0
    ensures Messages(f, amount, hour, 0) == [NewUser, UnknownDevice, UnusualLocation]
  {
    assert Messages(f, amount, hour, 12) == [];
    assert Messages(f, amount, hour, 11) == [];
    assert Messages(f, amount, hour, 10) == [];
    assert Messages(f, amount, hour, 9) == [UnusualLocation];
    assert Messages(f, amount, hour, 8) == [UnknownDevice, UnusualLocation];
    assert Messages(f, amount, hour, 7) == [UnknownDevice, UnusualLocation];
    assert Messages(f, amount, hour, 6) == [NewUser, UnknownDevice, UnusualLocation];
    assert Messages(f, amount, hour, 5) == [NewUser, UnknownDevice, UnusualLocation];
    assert Messages(f, amount, hour, 4) == [NewUser, UnknownDevice, UnusualLocation];
    assert Messages(f, amount, hour, 3) == [NewUser, UnknownDevice, UnusualLocation];
    assert Messages(f, amount, hour, 2) == [NewUser, UnknownDevice, UnusualLocation];
    assert Messages(f, amount, hour, 1) == [NewUser, UnknownDevice, UnusualLocation];
  }

  /** A user without a usable history, in daytime, with a modest amount and a plain device. */
  lemma NewUserExplanation(tx: Transaction, ctx: HistoryContext, now: Instant, num: Numerics)
    requires !UsableHistory(ctx)
    requires tx.amount <= 1000.0
    requires Hour(EffectiveTimestamp(tx, now)) >= 6
    requires DeviceFeaturesOf(tx, num).isNewDevice == 0.0
    ensures ExplainFeatures(tx, ctx, now, num, 5) == [NewUser, UnknownDevice, UnusualLocation]
  {
    var f := ExtractFeatures(tx, ctx, now, num);
    assert ExplainFeatures(tx, ctx, now, num, 5) == Explain(f, tx.amount, Hour(EffectiveTimestamp(tx, now)), 5);
    AmountBands(tx, num);
    DayPeriods(tx, now, num);
    DefaultWhenNoHistory(tx, ctx, now);
    NewUserMessages(f, tx.amount, Hour(EffectiveTimestamp(tx, now)));
  }

  /**
   * The explanation as the code is written: the suspicious-hour message
   * reads the hour from the transaction's own timestamp, which fails when
   * the timestamp is absent.
   */
  function ExplainFeaturesAsWritten(tx: Transaction, ctx: HistoryContext, now: Instant, num: Numerics, topN: int)
    : (r: Result<seq<RiskFactor>, string>)
    ensures r.Ok? ==> r.value == ExplainFeatures(tx, ctx, now, num, topN)
  {
    var f := ExtractFeatures(tx, ctx, now, num);
    if f.temporal.isSuspiciousHour == 1.0 && tx.timestamp.None? then
      Err("AttributeError: 'NoneType' object has no attribute 'hour'")
    else
      Ok(ExplainFeatures(tx, ctx, now, num, topN))
  }

  /** The as-written explanation fails exactly for a missing timestamp between 00:00 and 05:59. */
  lemma ExplainAsWrittenFails(tx: Transaction, ctx: HistoryContext, now: Instant, num: Numerics, topN: int)
    ensures ExplainFeaturesAsWritten(tx, ctx, now, num, topN).Err? <==> tx.timestamp.None? && Hour(now) < 6
  {
    DayPeriods(tx, now, num);
  }

  /** A concrete failing input: no timestamp, requested at 01:00. */
  lemma ExplainAsWrittenCounterexample(tx: Transaction, ctx: HistoryContext, num: Numerics)
    requires tx.timestamp.None?
    ensures ExplainFeaturesAsWritten(tx, ctx, Instant(3600), num, 5).Err?
  {
    ExplainAsWrittenFails(tx, ctx, Instant(3600), num, 5);
  }

  // ---------------------------------------------------------------------
  // Batch extraction

  /** One row of the batch table: the transaction id, then its features. */
  datatype FeatureRow = FeatureRow(transactionId: string, features: FeatureMap)

  function RowOf(tx: Transaction, ctx: HistoryContext, now: Instant, num: Numerics): FeatureRow
  {
    FeatureRow(tx.transactionId, ExtractFeatures(tx, ctx, now, num))
  }

  /** A row for every item, in input order. */
  function MapRows<T>(rowOf: T -> FeatureRow, items: seq<T>): (r: seq<FeatureRow>)
    ensures |r| == |items|
    ensures forall i :: 0 <= i < |items| ==> r[i] == rowOf(items[i])
  {
    if |items| == 0 then []
    else MapRows(rowOf, items[..|items| - 1]) + [rowOf(items[|items| - 1])]
  }

  /** The row of one batch item. */
  function RowFor(now: Instant, num: Numerics): ((Transaction, HistoryContext)) -> FeatureRow
  {
    (item: (Transaction, HistoryContext)) => RowOf(item.0, item.1, now, num)
  }

  /**
   * `batch_extract_features`: one row per transaction, in input order. Each
   * transaction is paired with what the store answers for its user.
   */
  method BatchExtractFeatures(items: seq<(Transaction, HistoryContext)>, now: Instant, num: Numerics)
    returns (rows: seq<FeatureRow>)
    ensures |rows| == |items|
    ensures forall i :: 0 <= i < |items| ==>
      rows[i] == RowOf(items[i].0, items[i].1, now, num) && rows[i].transactionId == items[i].0.transactionId
  {
    rows := [];
    var k := 0;
    while k < |items|
      invariant 0 <= k <= |items|
      invariant rows == MapRows(RowFor(now, num), items[..k])
    {
      assert items[..k + 1][..k] == items[..k];
      rows := rows + [RowOf(items[k].0, items[k].1, now, num)];
      k := k + 1;
    }
    assert items[..k] == items;
  }
}

// The scoring service's key-value store client: the prediction cache with
// its hit and miss counters, each user's newest-first transaction list and
// aggregate statistics, the per-user category, location and device sets,
// the prediction counter and the response-time window. Every operation
// swallows store failures and answers with its fallback value instead.

module ProfileStore {
  import opened Base
  import opened Domain

  // ---------------------------------------------------------------------
  // Keys, records and list primitives

  const PredictionPrefix: string := "prediction:"

  /** The cache key of a transaction's prediction. */
  function PredictionKey(transactionId: string): (k: string)
    ensures |k| == |PredictionPrefix| + |transactionId|
    ensures k[..|PredictionPrefix|] == PredictionPrefix && k[|PredictionPrefix|..] == transactionId
  {
    PredictionPrefix + transactionId
  }

  predicate IsPredictionKey(k: string)
  {
    |PredictionPrefix| <= |k| && k[..|PredictionPrefix|] == PredictionPrefix
  }

  /** How many entries the per-user transaction list and the response-time list keep. */
  const Window: nat := 1000

  /** TTL of a cached prediction written by the request handler, in seconds. */
  const CacheTtl: int := 3600

  /** A saved transaction: the transaction, its verdict and the server time of saving. */
  datatype SavedTransaction = SavedTransaction(transaction: Transaction, isFraud: bool, savedAt: Instant)

  /** The per-user statistics hash. */
  datatype UserStats = UserStats(
    totalTransactions: int,
    totalAmount: real,
    fraudCount: int,
    lastTransaction: Option<Instant>)

  datatype CacheEntry = CacheEntry(prediction: FraudPrediction, ttl: int)

  function Min(a: int, b: int): int { if a < b then a else b }

  /** Push at the head, then keep the first `window` entries. */
  function PushTrim<T>(xs: seq<T>, x: T, window: nat): (r: seq<T>)
    requires window > 0
    ensures |r| == Min(|xs| + 1, window)
    ensures r[0] == x
    ensures r[1..] == xs[..|r| - 1]
  {
    var pushed := [x] + xs;
    if |pushed| > window then pushed[..window] else pushed
  }

  /**
   * A range read with inclusive `start` and `stop`, where negative indices
   * count from the end and out-of-range bounds are clipped.
   */
  function LRange<T>(xs: seq<T>, start: int, stop: int): (r: seq<T>)
    ensures |r| <= |xs|
    ensures r != [] ==> exists i, j :: 0 <= i <= j <= |xs| && r == xs[i..j]
  {
    var n := |xs|;
    var s := if start < 0 then (if n + start < 0 then 0 else n + start) else start;
    var e := if stop < 0 then n + stop else stop;
    var e' := if e >= n then n - 1 else e;
    if s > e' || s >= n then [] else xs[s..e' + 1]
  }

  /**
   * The first `limit` entries for a positive limit; the whole list for a
   * limit of 0, because `limit - 1` becomes the index of the last entry;
   * all but the last `-limit` entries for a negative limit.
   */
  lemma LRangeFromHead<T>(xs: seq<T>, limit: int)
    ensures limit > 0 ==> LRange(xs, 0, limit - 1) == xs[..Min(limit, |xs|)]
    ensures limit == 0 ==> LRange(xs, 0, limit - 1) == xs
    ensures limit < 0 ==> LRange(xs, 0, limit - 1) == xs[..if |xs| + limit > 0 then |xs| + limit else 0]
  {
  }

  /** Hits over lookups, 0.0 before the first lookup. */
  function HitRate(hits: int, misses: int): (r: real)
    ensures hits >= 0 && misses >= 0 ==> 0.0 <= r <= 1.0
    ensures hits + misses == 0 ==> r == 0.0
    ensures hits + misses > 0 ==> r * (hits + misses) as real == hits as real
  {
    var total := hits + misses;
    if total > 0 then hits as real / total as real else 0.0
  }

  function Sum(xs: seq<real>): real
  {
    if |xs| == 0 then 0.0 else Sum(xs[..|xs| - 1]) + xs[|xs| - 1]
  }

  /** The arithmetic mean, 0.0 for an empty list. */
  function Mean(xs: seq<real>): (r: real)
  {
    if |xs| == 0 then 0.0 else Sum(xs) / |xs| as real
  }

  lemma {:induction false} SumBounds(xs: seq<real>, lo: real, hi: real)
    requires forall i :: 0 <= i < |xs| ==> lo <= xs[i] <= hi
    ensures lo * |xs| as real <= Sum(xs) <= hi * |xs| as real
    decreases |xs|
  {
    if |xs| > 0 {
      SumBounds(xs[..|xs| - 1], lo, hi);
    }
  }

  /** The mean lies between the smallest and largest bound of the entries. */
  lemma MeanBounds(xs: seq<real>, lo: real, hi: real)
    requires |xs| > 0
    requires forall i :: 0 <= i < |xs| ==> lo <= xs[i] <= hi
    ensures lo <= Mean(xs) <= hi
  {
    SumBounds(xs, lo, hi);
    var n := |xs| as real;
    assert lo * n <= Sum(xs) <= hi * n;
    assert Mean(xs) * n == Sum(xs);
  }

  // ---------------------------------------------------------------------
  // The whole store

  datatype StoreState = StoreState(
    reachable: bool,
    predictions: map<string, CacheEntry>,
    transactions: map<string, seq<SavedTransaction>>,
    stats: map<string, UserStats>,
    categories: map<string, set<string>>,
    locations: map<string, set<string>>,
    devices: map<string, set<string>>,
    cacheHits: int,
    cacheMisses: int,
    totalPredictions: int,
    responseTimes: seq<real>)

  /** The invariant every operation keeps. */
  predicate Consistent(s: StoreState)
  {
    && (forall k :: k in s.predictions ==> IsPredictionKey(k))
    && (forall u :: u in s.transactions ==> |s.transactions[u]| <= Window)
    && (forall u :: u in s.stats ==> 1 <= s.stats[u].totalTransactions && 0 <= s.stats[u].fraudCount <= s.stats[u].totalTransactions)
    && s.cacheHits >= 0 && s.cacheMisses >= 0 && s.totalPredictions >= 0
    && |s.responseTimes| <= Window
  }

  function ListOf(m: map<string, seq<SavedTransaction>>, u: string): seq<SavedTransaction>
  {
    if u in m then m[u] else []
  }

  function SetOf(m: map<string, set<string>>, u: string): set<string>
  {
    if u in m then m[u] else {}
  }

  /** Set insertion under a per-user key. */
  function AddMember(m: map<string, set<string>>, u: string, x: string): (r: map<string, set<string>>)
    ensures SetOf(r, u) == SetOf(m, u) + {x}
  {
    m[u := SetOf(m, u) + {x}]
  }

  /** The statistics hash after one more transaction; the date is the server clock. */
  function StatsAfter(prev: Option<UserStats>, amount: real, isFraud: bool, now: Instant): (r: UserStats)
  {
    var base := if prev.Some? then prev.value else UserStats(0, 0.0, 0, None);
    UserStats(
      base.totalTransactions + 1,
      base.totalAmount + amount,
      base.fraudCount + (if isFraud then 1 else 0),
      Some(now))
  }

  function StatsOf(s: StoreState, u: string): Option<UserStats>
  {
    if u in s.stats then Some(s.stats[u]) else None
  }

  // Transitions, one per operation. Each leaves an unreachable store alone.

  function AfterLookup(s: StoreState, transactionId: string): StoreState
  {
    if !s.reachable then s
    else if PredictionKey(transactionId) in s.predictions then s.(cacheHits := s.cacheHits + 1)
    else s.(cacheMisses := s.cacheMisses + 1)
  }

  function LookupResult(s: StoreState, transactionId: string): Option<FraudPrediction>
  {
    if s.reachable && PredictionKey(transactionId) in s.predictions then
      Some(s.predictions[PredictionKey(transactionId)].prediction)
    else None
  }

  function AfterCache(s: StoreState, transactionId: string, p: FraudPrediction, ttl: int): StoreState
  {
    if !s.reachable then s
    else s.(predictions := s.predictions[PredictionKey(transactionId) := CacheEntry(p, ttl)])
  }

  function AfterStatsUpdate(s: StoreState, u: string, tx: Transaction, isFraud: bool, now: Instant): StoreState
  {
    s.(stats := s.stats[u := StatsAfter(StatsOf(s, u), tx.amount, isFraud, now)],
       categories := AddMember(s.categories, u, CategoryValue(tx.category)),
       locations := AddMember(s.locations, u, tx.location),
       devices := AddMember(s.devices, u, tx.device))
  }

  function AfterSave(s: StoreState, u: string, tx: Transaction, isFraud: bool, now: Instant): StoreState
  {
    if !s.reachable then s
    else
      var pushed := PushTrim(ListOf(s.transactions, u), SavedTransaction(tx, isFraud, now), Window);
      AfterStatsUpdate(s.(transactions := s.transactions[u := pushed]), u, tx, isFraud, now)
  }

  function AfterIncrementPredictions(s: StoreState): StoreState
  {
    if !s.reachable then s else s.(totalPredictions := s.totalPredictions + 1)
  }

  function AfterResponseTime(s: StoreState, ms: real): StoreState
  {
    if !s.reachable then s else s.(responseTimes := PushTrim(s.responseTimes, ms, Window))
  }

  function AfterClearCache(s: StoreState): StoreState
  {
    if !s.reachable then s else s.(predictions := map[])
  }

  function AfterResetMetrics(s: StoreState): StoreState
  {
    if !s.reachable then s
    else s.(totalPredictions := 0, cacheHits := 0, cacheMisses := 0, responseTimes := [])
  }

  /** The hit rate the store reports, 0.0 when unreachable. */
  function ReportedHitRate(s: StoreState): (r: real)
    ensures Consistent(s) ==> 0.0 <= r <= 1.0
  {
    if s.reachable then HitRate(s.cacheHits, s.cacheMisses) else 0.0
  }

  /** The mean response time the store reports, 0.0 when unreachable or empty. */
  function ReportedResponseTime(s: StoreState): real
  {
    if s.reachable then Mean(s.responseTimes) else 0.0
  }

  function ReportedTotal(s: StoreState): int
  {
    if s.reachable then s.totalPredictions else 0
  }

  /** The history record for a user with statistics, given the picked set elements. */
  function HistoryFrom(u: string, st: UserStats, category: Option<string>, location: Option<string>,
                       devices: seq<string>): (h: UserHistory)
  {
    var total := st.totalTransactions;
    UserHistory(
      u,
      total,
      st.totalAmount,
      if total > 0 then st.totalAmount / total as real else 0.0,
      st.fraudCount,
      if total > 0 then st.fraudCount as real / total as real * 100.0 else 0.0,
      st.lastTransaction,
      category,
      location,
      devices)
  }

  /** `list(s)[0] if s else None`: some member, with no frequency involved. */
  ghost predicate FirstOf(picked: Option<string>, s: set<string>)
  {
    if s == {} then picked.None? else picked.Some? && picked.value in s
  }

  /** What `get_user_history` may answer for `u` in state `s`. */
  ghost predicate IsHistoryOf(s: StoreState, u: string, r: Option<UserHistory>)
  {
    if !s.reachable || u !in s.stats then r.None?
    else
      && r.Some?
      && r.value == HistoryFrom(u, s.stats[u], r.value.mostCommonCategory, r.value.mostCommonLocation,
                                r.value.knownDevices)
      && FirstOf(r.value.mostCommonCategory, SetOf(s.categories, u))
      && FirstOf(r.value.mostCommonLocation, SetOf(s.locations, u))
      && (forall d :: d in r.value.knownDevices <==> d in SetOf(s.devices, u))
      && |r.value.knownDevices| == |SetOf(s.devices, u)|
  }

  // ---------------------------------------------------------------------
  // Properties of the transitions

  /** A hit counts only as a hit, a miss only as a miss; nothing else moves. */
  lemma LookupCounts(s: StoreState, transactionId: string)
    requires s.reachable
    ensures var t := AfterLookup(s, transactionId);
      && (LookupResult(s, transactionId).Some? ==> t.cacheHits == s.cacheHits + 1 && t.cacheMisses == s.cacheMisses)
      && (LookupResult(s, transactionId).None? ==> t.cacheMisses == s.cacheMisses + 1 && t.cacheHits == s.cacheHits)
      && t.(cacheHits := s.cacheHits, cacheMisses := s.cacheMisses) == s
  {
  }

  /** A cached prediction is found again under its transaction id, with the given TTL. */
  lemma CacheThenLookup(s: StoreState, transactionId: string, p: FraudPrediction, ttl: int)
    requires s.reachable
    ensures LookupResult(AfterCache(s, transactionId, p, ttl), transactionId) == Some(p)
    ensures AfterCache(s, transactionId, p, ttl).predictions[PredictionKey(transactionId)].ttl == ttl
  {
  }

  /** Updating a user's statistics keeps the invariant: the new count is positive, fraud within total. */
  lemma StatsUpdateKeepsConsistency(s: StoreState, u: string, tx: Transaction, isFraud: bool, now: Instant)
    requires Consistent(s)
    ensures Consistent(AfterStatsUpdate(s, u, tx, isFraud, now))
  {
    var t := AfterStatsUpdate(s, u, tx, isFraud, now);
    assert forall v :: v in t.stats ==> v == u || (v in s.stats && t.stats[v] == s.stats[v]);
  }

  /** Saving pushes the record at the head of the user's list and trims it to 1000. */
  lemma SaveWindow(s: StoreState, u: string, tx: Transaction, isFraud: bool, now: Instant)
    requires s.reachable
    ensures var xs := ListOf(s.transactions, u);
      var ys := ListOf(AfterSave(s, u, tx, isFraud, now).transactions, u);
      && |ys| == Min(|xs| + 1, Window)
      && ys[0] == SavedTransaction(tx, isFraud, now)
      && ys[1..] == xs[..|ys| - 1]
    ensures forall v :: v != u ==> ListOf(AfterSave(s, u, tx, isFraud, now).transactions, v) == ListOf(s.transactions, v)
  {
  }

  /**
   * Saving adds one transaction and its amount, one fraud exactly when
   * flagged, stamps the server time, inserts into the three sets, and
   * leaves the cache and the global counters alone.
   */
  lemma SaveStats(s: StoreState, u: string, tx: Transaction, isFraud: bool, now: Instant)
    requires s.reachable
    ensures var t := AfterSave(s, u, tx, isFraud, now);
      var before := if u in s.stats then s.stats[u] else UserStats(0, 0.0, 0, None);
      && u in t.stats
      && t.stats[u].totalTransactions == before.totalTransactions + 1
      && t.stats[u].totalAmount == before.totalAmount + tx.amount
      && t.stats[u].fraudCount == before.fraudCount + (if isFraud then 1 else 0)
      && t.stats[u].lastTransaction == Some(now)
      && SetOf(t.categories, u) == SetOf(s.categories, u) + {CategoryValue(tx.category)}
      && SetOf(t.locations, u) == SetOf(s.locations, u) + {tx.location}
      && SetOf(t.devices, u) == SetOf(s.devices, u) + {tx.device}
      && (forall v :: v != u ==> StatsOf(t, v) == StatsOf(s, v))
      && t.predictions == s.predictions && t.cacheHits == s.cacheHits && t.cacheMisses == s.cacheMisses
      && t.totalPredictions == s.totalPredictions && t.responseTimes == s.responseTimes
  {
  }

  /** Inserting the same category, location or device again changes no set. */
  lemma SetInsertIdempotent(m: map<string, set<string>>, u: string, x: string)
    ensures AddMember(AddMember(m, u, x), u, x) == AddMember(m, u, x)
  {
  }

  /** Caching a prediction keeps the invariant: its key carries the prefix. */
  lemma CacheKeepsConsistency(s: StoreState, id: string, p: FraudPrediction, ttl: int)
    requires Consistent(s)
    ensures Consistent(AfterCache(s, id, p, ttl))
  {
    if s.reachable {
      var t := AfterCache(s, id, p, ttl);
      assert IsPredictionKey(PredictionKey(id));
      assert forall k :: k in t.predictions ==> k == PredictionKey(id) || k in s.predictions;
    }
  }

  /** Saving keeps the invariant: the list stays within its window, fraud within total. */
  lemma SaveKeepsConsistency(s: StoreState, u: string, tx: Transaction, isFraud: bool, now: Instant)
    requires Consistent(s)
    ensures Consistent(AfterSave(s, u, tx, isFraud, now))
  {
    if s.reachable {
      var t := AfterSave(s, u, tx, isFraud, now);
      SaveWindow(s, u, tx, isFraud, now);
      assert t.transactions == s.transactions[u := ListOf(t.transactions, u)];
      assert t.stats == s.stats[u := t.stats[u]];
    }
  }

  /** The reported fraud rate is a percentage, the average a per-transaction amount. */
  lemma HistoryFigures(u: string, st: UserStats, c: Option<string>, l: Option<string>, ds: seq<string>)
    requires 1 <= st.totalTransactions && 0 <= st.fraudCount <= st.totalTransactions
    ensures var h := HistoryFrom(u, st, c, l, ds);
      && h.averageAmount * st.totalTransactions as real == st.totalAmount
      && 0.0 <= h.fraudRate <= 100.0
      && (h.fraudRate == 0.0 <==> st.fraudCount == 0)
      && h.totalTransactions == st.totalTransactions && h.fraudCount == st.fraudCount
  {
    var n := st.totalTransactions as real;
    var f := st.fraudCount as real;
    assert f / n <= 1.0;
  }

  /** Clearing the cache removes every cached prediction and nothing else. */
  lemma ClearCacheOnlyPredictions(s: StoreState)
    requires s.reachable
    ensures AfterClearCache(s).predictions == map[]
    ensures AfterClearCache(s).(predictions := s.predictions) == s
  {
  }

  /** Resetting the metrics zeroes the three counters and empties the response window. */
  lemma ResetMetricsZeroes(s: StoreState)
    requires s.reachable
    ensures var t := AfterResetMetrics(s);
      && t.totalPredictions == 0 && t.cacheHits == 0 && t.cacheMisses == 0 && t.responseTimes == []
      && HitRate(t.cacheHits, t.cacheMisses) == 0.0 && ReportedResponseTime(t) == 0.0
      && t.(totalPredictions := s.totalPredictions, cacheHits := s.cacheHits,
            cacheMisses := s.cacheMisses, responseTimes := s.responseTimes) == s
  {
  }

  /** The response window keeps the newest 1000 times; a constant stream averages to itself. */
  lemma ResponseWindow(s: StoreState, ms: real)
    requires s.reachable
    ensures var t := AfterResponseTime(s, ms);
      && |t.responseTimes| == Min(|s.responseTimes| + 1, Window)
      && t.responseTimes[0] == ms
    ensures (forall i :: 0 <= i < |s.responseTimes| ==> s.responseTimes[i] == ms) ==>
      ReportedResponseTime(AfterResponseTime(s, ms)) == ms
  {
    var t := AfterResponseTime(s, ms);
    if forall i :: 0 <= i < |s.responseTimes| ==> s.responseTimes[i] == ms {
      assert forall i :: 1 <= i < |t.responseTimes| ==> t.responseTimes[i] == t.responseTimes[1..][i - 1];
      MeanBounds(t.responseTimes, ms, ms);
    }
  }

  // ---------------------------------------------------------------------
  // Saving as the code is written

  /**
   * `save_transaction` as written: the record is serialized with the
   * timestamp still a date-time object, which the JSON encoder rejects, so
   * a transaction carrying a timestamp is not saved and the call answers
   * false.
   */
  function SaveAsWritten(s: StoreState, u: string, tx: Transaction, isFraud: bool, now: Instant)
    : (r: (bool, StoreState))
  {
    if !s.reachable || tx.timestamp.Some? then (false, s)
    else (true, AfterSave(s, u, tx, isFraud, now))
  }

  /** The intended `save_transaction`: every transaction is saved when the store is reachable. */
  function Save(s: StoreState, u: string, tx: Transaction, isFraud: bool, now: Instant)
    : (r: (bool, StoreState))
    ensures r.0 <==> s.reachable
    ensures r.0 ==> u in r.1.stats && |ListOf(r.1.transactions, u)| >= 1
  {
    (s.reachable, AfterSave(s, u, tx, isFraud, now))
  }

  /**
   * As written, a timestamped transaction never reaches the user's list or
   * statistics, so a user whose transactions all carry timestamps never
   * gets a history; the intended save records it.
   */
  lemma SaveAsWrittenDropsTimestamped(s: StoreState, u: string, tx: Transaction, isFraud: bool, now: Instant)
    requires s.reachable && tx.timestamp.Some?
    ensures SaveAsWritten(s, u, tx, isFraud, now) == (false, s)
    ensures Save(s, u, tx, isFraud, now).0
    ensures u in Save(s, u, tx, isFraud, now).1.stats
    ensures u !in s.stats ==> u !in SaveAsWritten(s, u, tx, isFraud, now).1.stats
  {
  }

  /** Without a timestamp the two agree. */
  lemma SaveAsWrittenAgrees(s: StoreState, u: string, tx: Transaction, isFraud: bool, now: Instant)
    requires tx.timestamp.None?
    ensures SaveAsWritten(s, u, tx, isFraud, now) == Save(s, u, tx, isFraud, now)
  {
  }

  // ---------------------------------------------------------------------
  // The client object

  /** List a set's members once each, in an unspecified order. */
  method ListMembers(s: set<string>) returns (xs: seq<string>)
    ensures |xs| == |s|
    ensures forall x :: x in xs <==> x in s
  {
    xs := [];
    var rest := s;
    while rest != {}
      invariant rest <= s
      invariant forall x :: x in xs <==> x in s - rest
      invariant |xs| + |rest| == |s|
      decreases |rest|
    {
      var x :| x in rest;
      xs := xs + [x];
      rest := rest - {x};
    }
  }

  class RedisClient {
    var reachable: bool
    var predictions: map<string, CacheEntry>
    var transactions: map<string, seq<SavedTransaction>>
    var stats: map<string, UserStats>
    var categories: map<string, set<string>>
    var locations: map<string, set<string>>
    var devices: map<string, set<string>>
    var cacheHits: int
    var cacheMisses: int
    var totalPredictions: int
    var responseTimes: seq<real>

    function State(): StoreState
      reads this
    {
      StoreState(reachable, predictions, transactions, stats, categories, locations, devices,
                 cacheHits, cacheMisses, totalPredictions, responseTimes)
    }

    predicate Valid()
      reads this
    {
      Consistent(State())
    }

    /** A connected client on an empty store. */
    constructor()
      ensures Valid() && reachable
      ensures State() == StoreState(true, map[], map[], map[], map[], map[], map[], 0, 0, 0, [])
    {
      reachable := true;
      predictions := map[];
      transactions := map[];
      stats := map[];
      categories := map[];
      locations := map[];
      devices := map[];
      cacheHits := 0;
      cacheMisses := 0;
      totalPredictions := 0;
      responseTimes := [];
    }

    /** The server goes away or comes back; the stored data is not touched. */
    method SetReachable(up: bool)
      requires Valid()
      modifies this
      ensures Valid()
      ensures State() == old(State()).(reachable := up)
    {
      reachable := up;
    }

    /** `is_healthy`: the ping answers. */
    method IsHealthy() returns (ok: bool)
      ensures ok == reachable
    {
      ok := reachable;
    }

    /** `cache_prediction`. */
    method CachePrediction(transactionId: string, p: FraudPrediction, ttl: int) returns (ok: bool)
      requires Valid()
      modifies this
      ensures Valid()
      ensures ok == old(reachable)
      ensures State() == AfterCache(old(State()), transactionId, p, ttl)
    {
      CacheKeepsConsistency(State(), transactionId, p, ttl);
      if !reachable {
        return false;
      }
      predictions := predictions[PredictionKey(transactionId) := CacheEntry(p, ttl)];
      ok := true;
    }

    /** `get_cached_prediction`: a hit counts a hit, a miss counts a miss. */
    method GetCachedPrediction(transactionId: string) returns (r: Option<FraudPrediction>)
      requires Valid()
      modifies this
      ensures Valid()
      ensures r == LookupResult(old(State()), transactionId)
      ensures State() == AfterLookup(old(State()), transactionId)
    {
      if !reachable {
        return None;
      }
      var key := PredictionKey(transactionId);
      if key in predictions {
        cacheHits := cacheHits + 1;
        r := Some(predictions[key].prediction);
      } else {
        cacheMisses := cacheMisses + 1;
        r := None;
      }
    }

    /** `_update_user_stats`: counters, server-time date and set insertions. */
    method UpdateUserStats(u: string, tx: Transaction, isFraud: bool, now: Instant)
      requires Valid() && reachable
      modifies this
      ensures Valid()
      ensures State() == AfterStatsUpdate(old(State()), u, tx, isFraud, now)
    {
      StatsUpdateKeepsConsistency(State(), u, tx, isFraud, now);
      stats, categories, locations, devices :=
        stats[u := StatsAfter(StatsOf(State(), u), tx.amount, isFraud, now)],
        AddMember(categories, u, CategoryValue(tx.category)),
        AddMember(locations, u, tx.location),
        AddMember(devices, u, tx.device);
    }

    /** `save_transaction` as written: fails for a timestamped transaction. */
    method SaveTransactionAsWritten(u: string, tx: Transaction, isFraud: bool, now: Instant) returns (ok: bool)
      requires Valid()
      modifies this
      ensures Valid()
      ensures (ok, State()) == SaveAsWritten(old(State()), u, tx, isFraud, now)
    {
      if !reachable || tx.timestamp.Some? {
        return false;
      }
      ok := SaveTransaction(u, tx, isFraud, now);
    }

    /** `save_transaction` with a serializable record: push, trim, update statistics. */
    method SaveTransaction(u: string, tx: Transaction, isFraud: bool, now: Instant) returns (ok: bool)
      requires Valid()
      modifies this
      ensures Valid()
      ensures (ok, State()) == Save(old(State()), u, tx, isFraud, now)
    {
      SaveKeepsConsistency(State(), u, tx, isFraud, now);
      if !reachable {
        return false;
      }
      var record := SavedTransaction(tx, isFraud, now);
      transactions := transactions[u := PushTrim(ListOf(transactions, u), record, Window)];
      UpdateUserStats(u, tx, isFraud, now);
      ok := true;
    }

    /** `get_user_transactions`: the list read from index 0 to `limit - 1`. */
    method GetUserTransactions(u: string, limit: int) returns (r: seq<SavedTransaction>)
      ensures !reachable ==> r == []
      ensures reachable ==> r == LRange(ListOf(transactions, u), 0, limit - 1)
      ensures reachable && limit > 0 ==> r == ListOf(transactions, u)[..Min(limit, |ListOf(transactions, u)|)]
    {
      if !reachable {
        return [];
      }
      r := LRange(ListOf(transactions, u), 0, limit - 1);
      LRangeFromHead(ListOf(transactions, u), limit);
    }

    /** `get_user_history`: aggregates of the statistics hash and a member of each set. */
    method GetUserHistory(u: string) returns (r: Option<UserHistory>)
      ensures IsHistoryOf(State(), u, r)
    {
      if !reachable || u !in stats {
        return None;
      }
      var cats := SetOf(categories, u);
      var locs := SetOf(locations, u);
      var category: Option<string> := None;
      if cats != {} {
        var c :| c in cats;
        category := Some(c);
      }
      var location: Option<string> := None;
      if locs != {} {
        var l :| l in locs;
        location := Some(l);
      }
      var known := ListMembers(SetOf(devices, u));
      r := Some(HistoryFrom(u, stats[u], category, location, known));
    }

    /** `increment_predictions_count`. */
    method IncrementPredictionsCount()
      requires Valid()
      modifies this
      ensures Valid()
      ensures State() == AfterIncrementPredictions(old(State()))
    {
      if reachable {
        totalPredictions := totalPredictions + 1;
      }
    }

    /** `get_cache_hit_rate`. */
    method GetCacheHitRate() returns (r: real)
      requires Valid()
      ensures r == ReportedHitRate(State())
      ensures 0.0 <= r <= 1.0
      ensures reachable && cacheHits + cacheMisses > 0 ==> r * (cacheHits + cacheMisses) as real == cacheHits as real
    {
      if !reachable {
        return 0.0;
      }
      r := HitRate(cacheHits, cacheMisses);
    }

    /** `get_total_predictions`. */
    method GetTotalPredictions() returns (n: int)
      ensures n == ReportedTotal(State())
    {
      n := if reachable then totalPredictions else 0;
    }

    /** `record_response_time`: push at the head and keep the newest 1000. */
    method RecordResponseTime(ms: real)
      requires Valid()
      modifies this
      ensures Valid()
      ensures State() == AfterResponseTime(old(State()), ms)
    {
      if reachable {
        responseTimes := PushTrim(responseTimes, ms, Window);
      }
    }

    /** `get_average_response_time`. */
    method GetAverageResponseTime() returns (r: real)
      ensures r == ReportedResponseTime(State())
      ensures reachable && |responseTimes| > 0 ==> r * |responseTimes| as real == Sum(responseTimes)
    {
      if !reachable || |responseTimes| == 0 {
        return 0.0;
      }
      r := Sum(responseTimes) / |responseTimes| as real;
    }

    /** `clear_cache`: delete every `prediction:*` key. */
    method ClearCache() returns (ok: bool)
      requires Valid()
      modifies this
      ensures Valid()
      ensures ok == old(reachable)
      ensures State() == AfterClearCache(old(State()))
    {
      if !reachable {
        return false;
      }
      predictions := map[];
      ok := true;
    }

    /** `reset_metrics`: delete the three counters and the response window. */
    method ResetMetrics() returns (ok: bool)
      requires Valid()
      modifies this
      ensures Valid()
      ensures ok == old(reachable)
      ensures State() == AfterResetMetrics(old(State()))
    {
      if !reachable {
        return false;
      }
      totalPredictions := 0;
      cacheHits := 0;
      cacheMisses := 0;
      responseTimes := [];
      ok := true;
    }
  }
}

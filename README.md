# FraudGuard core, modelled in Dafny

FraudGuard is two small services.

- **The Python scoring service** (`app/`) scores card transactions. For each transaction it:
  - extracts a named feature map: amount bands, category codes, hour and weekday buckets, behaviour relative to the user's stored history, location and device rules;
  - lays the features out in the classifier's feature order;
  - asks the classifier for a class bit and a probability;
  - turns the probability into a risk tier, a confidence score, an explanation and recommendations.

  Around this sits a Redis-backed store holding:
  - a prediction cache with hit and miss counters;
  - a 1000-entry, newest-first history per user;
  - per-user statistics and sets;
  - a response-time window.

  A metrics collector counts predictions and frauds. The HTTP handlers `predict_fraud`, `predict_batch`, `get_user_history` and `health_check` put these steps in sequence.

- **The Node IP fraud-score service** (`recaptcha-service/`) keeps an integer fraud score per IP:
  - events raise the score by amounts taken from an event table;
  - a score at the threshold writes a block entry;
  - a periodic decay lowers every positive score and deletes it at 0;
  - administrators can unblock an IP or reset its score;
  - statistics summarise all IPs.

  All of it runs on the in-memory fallback of the service's Redis client: a JavaScript `Map` of strings.

The model has one module per source file, plus two support modules.

| module | file | models |
|---|---|---|
| `Base` | base.dfy | support: `Option`/`Result`, substring search, Latin-1 lower-casing, the string order behind `sorted()`, first-failure traversal |
| `Domain` | domain.dfy | `app/models.py`: the enums, the amount and batch validators, the range constraints, the records; calendar arithmetic for `datetime` |
| `Features` | features.dfy | `app/features.py`: the feature groups, the default behavioural group, the vector layout, `explain_features`, `batch_extract_features` |
| `Scoring` | scoring.dfy | `app/ml_model.py`: `predict` around an uninterpreted classifier, the tiers, the confidence, the explanation and recommendations, `predict_batch` |
| `ProfileStore` | profile_store.dfy | `app/database.py`: the store as a class over maps, sequences and counters |
| `Monitoring` | monitoring.dfy | `app/monitoring.py`: `MetricsCollector` as a class; the full health check |
| `Api` | api.dfy | `app/main.py`: the handlers as functions over the store and collector states, proved equal to an `App` class that calls the store and collector methods |
| `JsText` | js_text.dfy | JavaScript's `parseInt` with no radix, `String(n)`, and `JSON.stringify`/`JSON.parse` of strings and integers, with their round trips |
| `MemoryStore` | memory_store.dfy | the in-memory path of `recaptcha-service/redisClient.js`, as a class over an insertion-ordered map |
| `ScoreManager` | score_manager.dfy | `recaptcha-service/fraudScoreManager.js`, as a class over the memory store, proved against functions on store contents |

Code that changes state is modelled as a class. Its methods are proved equal to a function of the old state. The properties are then proved about those functions, as lemmas. This applies to the Python store, the collector, the handlers, the Node store and the score manager. Pure code is modelled as functions and lemmas: feature extraction, scoring, the validators and JavaScript's text conversions.

External inputs are parameters:
- the clock (`now`, and the measured processing time);
- the classifier and scaler, as functions inside `FraudModel`;
- the floating-point transforms and Python's string `hash` (a `Numerics` record of functions);
- the history the store returns to the feature extractor.

Two steps of the Python service do not behave as intended; see "## Findings".
- `save_transaction` cannot serialize a timestamp. A request that omits the timestamp gets the request time when its body is parsed (`models.py:64`), so practically no request is saved.
- `explain_features` fails on an explicit `null` timestamp between 00:00 and 05:59.

The handlers `HandlePredict` and `HandleBatch` and the `App` methods use the intended save and explanation. `HandlePredictAsWritten` and `HandleBatchAsWritten` use the code as written. Lemmas state where the two agree and where they differ.

## Model

| member | source | states |
|---|---|---|
| Domain.Hour | fraud_detection_system/app/features.py:171 | the hour is in 0..23 and is the hour of the day containing the instant |
| Domain.Weekday | fraud_detection_system/app/features.py:167-168 | the weekday is a number from 0 (Monday) to 6 (Sunday) |
| Domain.WeekdayOfEpoch | fraud_detection_system/app/features.py:167 | the first and last second of 1970-01-01 are a Thursday (3) |
| Domain.WeekdayOfDay | fraud_detection_system/app/features.py:167-168 | every second of the n-th day after 1970-01-01 has weekday (n + 3) mod 7, so the weekday is fixed by the epoch anchor and the daily step |
| Domain.SecondsBetween | fraud_detection_system/app/features.py:233-234 | the difference, added to the earlier instant, gives the later one |
| Domain.WeekdayAdvances | fraud_detection_system/app/features.py:167 | a day later the weekday advances by one modulo 7 and the hour is unchanged |
| Domain.ParseRiskLevel | fraud_detection_system/app/models.py:17-26 | a parsed risk level has exactly the given value |
| Domain.RiskLevelRoundTrip | fraud_detection_system/app/models.py:24-26 | each of the three risk levels parses back from its value |
| Domain.ParseCategory | fraud_detection_system/app/models.py:29-40 | a parsed category has the given value; a string that is not one of the eight values is refused |
| Domain.CategoryRoundTrip | fraud_detection_system/app/models.py:33-40 | every category parses back from its value, which is one of the eight |
| Domain.ValidateAmount | fraud_detection_system/app/models.py:70-77 | accepted iff 0 < amount <= 1,000,000; the two rejections are told apart exactly |
| Domain.ValidateBatch | fraud_detection_system/app/models.py:240-247 | accepted iff 1..100 transactions; empty and too large are told apart exactly |
| Features.CategoryCode | fraud_detection_system/app/features.py:133-135 | the code is in 0..7; a listed name gets its own table position, any other name 7 |
| Features.CategoryCodeOfEnum | fraud_detection_system/app/features.py:49-58 | the table is the enum's value list; electronics is 0, travel 3, other 7, each category its own code |
| Features.AmountBands | fraud_detection_system/app/features.py:128-130 | high iff amount > 1000, very high iff > 5000, low iff < 50; very high implies high; low never with high |
| Features.CategoryFeatures | fraud_detection_system/app/features.py:133-139 | the code is in 0..7; the electronics and travel indicators are exact-match flags agreeing with codes 0 and 3 |
| Features.EffectiveTimestamp | fraud_detection_system/app/features.py:159 | the transaction's timestamp when present, the clock otherwise (a timestamp the request omits already became the request time when the body was parsed, models.py:64, so an absent one here is an explicit `null`) |
| Features.DayPeriods | fraud_detection_system/app/features.py:168-178 | exactly one day period is set; weekend iff weekday >= 5; suspicious hour iff hour < 6, always equal to the night flag (the `hour > 23` test never fires) |
| Features.DefaultWhenNoHistory | fraud_detection_system/app/features.py:240-273 | without a store, a history or a transaction the default group is used: new user 1.0, amount ratio 1.0, 999 hours since the last transaction |
| Features.AverageBands | fraud_detection_system/app/features.py:203-210 | way above implies much above implies above; the ratio is amount/average, or 1.0 for a zero average |
| Features.ExperienceAndSuccession | fraud_detection_system/app/features.py:215-238 | never both new and experienced; new iff < 5, experienced iff > 50; 999 hours and no rapid succession without a last date; rapid iff the gap is < 300 s; a known device iff listed |
| Features.LocationAndDevice | fraud_detection_system/app/features.py:288-330 | major city iff a listed city occurs in the lower-cased location; mobile, web, tablet and new-device flags each iff one of their two substrings occurs in the lower-cased device; the location length; hashes folded into [0, 10000) |
| Features.ExtractFeatures | fraud_detection_system/app/features.py:83-106 | without a store the behavioural group is the default one |
| Features.Get | fraud_detection_system/app/features.py:354 | a name is found iff it is one of the extracted feature names |
| Features.Vectorize | fraud_detection_system/app/features.py:352-354 | one entry per requested name: the feature's value, or 0.0 for an unknown name |
| Features.SortedVector | fraud_detection_system/app/features.py:355-357 | one entry per feature, in sorted-key order, each that key's value |
| Features.FeatureVectorLayout | fraud_detection_system/app/features.py:349-359 | with a non-empty name list, the vector follows it with 0.0 for unknown names; otherwise it follows the strictly ascending key order |
| Features.CreateFeatureVector | fraud_detection_system/app/features.py:334-359 | with a non-empty name list, the vector has one entry per name |
| Features.Messages | fraud_detection_system/app/features.py:390-431 | messages come in fixed check order, each at most once, and only from checks at or after the start position |
| Features.PyPrefix | fraud_detection_system/app/features.py:434 | Python's `xs[:n]`: a prefix of length min(n, len) for n >= 0; a negative n drops that many items from the end |
| Features.Explain | fraud_detection_system/app/features.py:434 | at most `top_n` messages, a prefix of all fired messages, in check order |
| Features.ExplainFeatures | fraud_detection_system/app/features.py:374-434 | at most `top_n` messages, in check order |
| Features.MessagesMember | fraud_detection_system/app/features.py:392-431 | a message is present iff its own check fires |
| Features.MessagesAlternatives | fraud_detection_system/app/features.py:393-402 | the very-high and high messages never both appear, nor the three-times and twice-the-average messages |
| Features.ExplainAlternatives | fraud_detection_system/app/features.py:393-434 | the same exclusions hold after truncation |
| Features.NewUserMessages | fraud_detection_system/app/features.py:411-424 | with the default history and silent amount, time and device checks, the messages are exactly new user, unknown device, unusual location |
| Features.NewUserExplanation | fraud_detection_system/app/features.py:374-434 | a user without a usable history, in daytime, with a modest amount and a plain device gets exactly those three messages |
| Features.ExplainFeaturesAsWritten | fraud_detection_system/app/features.py:405-406 | when the code as written succeeds, it agrees with the corrected explanation |
| Features.ExplainAsWrittenFails | fraud_detection_system/app/features.py:405-406 | the code as written fails iff the timestamp is missing and the clock reads 00:00-05:59 |
| Features.ExplainAsWrittenCounterexample | fraud_detection_system/app/features.py:405-406 | a transaction without a timestamp, explained at 01:00, fails |
| Features.BatchExtractFeatures | fraud_detection_system/app/features.py:453-457 | one row per transaction, in input order, each carrying that transaction's id and features |
| Scoring.NewModel | fraud_detection_system/app/ml_model.py:71-80 | a fresh model is not loaded and has version 1.0.0 |
| Scoring.RiskBands | fraud_detection_system/app/ml_model.py:328-333 | LOW iff p < 0.3, MEDIUM iff 0.3 <= p < 0.7, HIGH iff p >= 0.7 |
| Scoring.RiskMonotone | fraud_detection_system/app/ml_model.py:328-333 | a higher probability never gives a lower tier |
| Scoring.ConfidenceRange | fraud_detection_system/app/ml_model.py:266 | the confidence is in [0, 1] for p in [0, 1], symmetric about 0.5, 0 only at 0.5 and 1 only at 0 and 1 |
| Scoring.ExplanationBranches | fraud_detection_system/app/ml_model.py:356-376 | class 1 with p > 0.9 is highly suspicious, 0.7 < p <= 0.9 probable, otherwise possible; class 0 is legitimate with confidence 1 - p |
| Scoring.RecommendationShape | fraud_detection_system/app/ml_model.py:397-417 | HIGH gives five items, MEDIUM four, LOW three, each list led by its own first item |
| Scoring.RecommendationKeywords | fraud_detection_system/app/ml_model.py:397-417 | the first items contain BLOQUEAR, RETER and APROVAR |
| Scoring.Predict | fraud_detection_system/app/ml_model.py:227-283 | fails with not-loaded iff the classifier or scaler is missing; a prediction meets its field ranges and carries the measured time |
| Scoring.PredictResult | fraud_detection_system/app/ml_model.py:252-283 | a prediction carries the transaction id and model version, the classifier's class and probability, the tier, confidence, explanation and recommendations derived from them, and at most five ordered risk messages |
| Scoring.PredictSucceeds | fraud_detection_system/app/ml_model.py:244-283 | a loaded model whose classifier keeps probabilities in [0, 1] always predicts |
| Scoring.ModelInputLayout | fraud_detection_system/app/ml_model.py:236-239 | the scaler sees one value per stored feature name, in that order, 0.0 for names the extractor does not produce |
| Scoring.PredictAll | fraud_detection_system/app/ml_model.py:309-316 | a successful batch has one prediction per input |
| Scoring.PredictAllPointwise | fraud_detection_system/app/ml_model.py:309-316 | the i-th prediction is the single prediction of the i-th input and carries its transaction id |
| Scoring.PredictAllFails | fraud_detection_system/app/ml_model.py:309-316 | a batch fails iff some input fails; never on a loaded, well-behaved model; always on an unloaded one |
| Scoring.PredictBatch | fraud_detection_system/app/ml_model.py:294-316 | the loop's result is the batch function's result |
| Scoring.PredictAsWritten | fraud_detection_system/app/ml_model.py:227-283 | as written, `predict` fails not-loaded iff the model is not loaded, fails in the explanation step iff the model is loaded, the timestamp is absent and the clock reads 00:00-05:59, and otherwise gives the intended prediction |
| Scoring.PredictAsWrittenNightFailure | fraud_detection_system/app/ml_model.py:255-260 | for a loaded, well-behaved model that night-time input fails as written while the intended prediction succeeds |
| Scoring.PredictAllAsWritten | fraud_detection_system/app/ml_model.py:309-316 | as written, a successful batch has one prediction per input |
| Scoring.PredictAllAsWrittenCases | fraud_detection_system/app/ml_model.py:309-316 | as written, a batch equals the intended one from 06:00 on or when every item has a timestamp; before 06:00 a loaded, well-behaved model fails the batch iff some item has no timestamp |
| ProfileStore.PredictionKey | fraud_detection_system/app/database.py:106 | the key is the `prediction:` prefix followed by the transaction id, so distinct ids get distinct keys |
| ProfileStore.PushTrim | fraud_detection_system/app/database.py:176-177 | `lpush` then `ltrim`: the new length is min(old + 1, window), the new item is first, the rest is a prefix of the old list |
| ProfileStore.LRange | fraud_detection_system/app/database.py:206 | a range read returns a contiguous slice of the list |
| ProfileStore.LRangeFromHead | fraud_detection_system/app/database.py:206 | reading 0..limit-1 gives the first `limit` entries; a limit of 0 gives the whole list; a negative limit drops entries from the end |
| ProfileStore.HitRate | fraud_detection_system/app/database.py:319-323 | hits over lookups, in [0, 1], 0.0 before the first lookup |
| ProfileStore.MeanBounds | fraud_detection_system/app/database.py:366-372 | the mean of the response times lies between their bounds |
| ProfileStore.AddMember | fraud_detection_system/app/database.py:242-244 | `sadd` adds exactly the one member to the user's set |
| ProfileStore.ReportedHitRate | fraud_detection_system/app/database.py:311-327 | the reported hit rate of a consistent store lies in [0, 1] |
| ProfileStore.LookupCounts | fraud_detection_system/app/database.py:129-141 | a hit increments only the hit counter, a miss only the miss counter; nothing else changes |
| ProfileStore.CacheThenLookup | fraud_detection_system/app/database.py:105-108 | a cached prediction is found again under its transaction id, stored with the given TTL |
| ProfileStore.SaveWindow | fraud_detection_system/app/database.py:176-177 | saving pushes the record at the head of the user's list, trimmed to 1000; other users' lists are unchanged |
| ProfileStore.SaveStats | fraud_detection_system/app/database.py:228-244 | one more transaction and its amount; one more fraud iff flagged; the last date is the server clock; the three sets each gain the transaction's value; cache and global counters untouched |
| ProfileStore.SetInsertIdempotent | fraud_detection_system/app/database.py:242-244 | inserting the same member twice equals inserting it once |
| ProfileStore.CacheKeepsConsistency | fraud_detection_system/app/database.py:105-108 | caching keeps the store invariant |
| ProfileStore.SaveKeepsConsistency | fraud_detection_system/app/database.py:166-180 | saving keeps the invariant: lists within the window, fraud count within the total |
| ProfileStore.HistoryFigures | fraud_detection_system/app/database.py:268-274 | the average times the count is the total amount; the fraud rate is a percentage, 0 iff no fraud |
| ProfileStore.ClearCacheOnlyPredictions | fraud_detection_system/app/database.py:388-392 | clearing the cache removes every cached prediction and nothing else |
| ProfileStore.ResetMetricsZeroes | fraud_detection_system/app/database.py:409-417 | reset zeroes the three counters and empties the window, so the hit rate and mean read 0.0; nothing else changes |
| ProfileStore.ResponseWindow | fraud_detection_system/app/database.py:350-353 | the window keeps the newest 1000 times with the latest first; a constant stream averages to itself |
| ProfileStore.Save | fraud_detection_system/app/database.py:166-187 | the corrected save succeeds iff the store is reachable, and then the user has statistics and a non-empty list |
| ProfileStore.SaveAsWrittenDropsTimestamped | fraud_detection_system/app/database.py:171-176 | as written, a timestamped transaction answers false and changes nothing, while the corrected save records it |
| ProfileStore.SaveAsWrittenAgrees | fraud_detection_system/app/database.py:171-176 | without a timestamp, the code as written and the corrected save agree |
| ProfileStore.ListMembers | fraud_detection_system/app/database.py:279 | `list(s)` lists each member once |
| ProfileStore.RedisClient.constructor | fraud_detection_system/app/database.py:57-72 | a connected client over an empty store |
| ProfileStore.RedisClient.IsHealthy | fraud_detection_system/app/database.py:74-84 | the ping answers iff the server is reachable |
| ProfileStore.RedisClient.CachePrediction | fraud_detection_system/app/database.py:88-113 | the new state is the cache write; the answer is whether the server was reachable |
| ProfileStore.RedisClient.GetCachedPrediction | fraud_detection_system/app/database.py:115-145 | the answer is the cached prediction or none, with the hit or miss counted |
| ProfileStore.RedisClient.UpdateUserStats | fraud_detection_system/app/database.py:214-247 | on a reachable store the new state is the statistics update, and the store invariant still holds |
| ProfileStore.StatsUpdateKeepsConsistency | fraud_detection_system/app/database.py:214-247 | the statistics update keeps every user's count positive and its frauds within its count |
| ProfileStore.RedisClient.SaveTransactionAsWritten | fraud_detection_system/app/database.py:149-187 | the answer and new state are those of the code as written |
| ProfileStore.RedisClient.SaveTransaction | fraud_detection_system/app/database.py:149-187 | the answer and new state are those of the corrected save |
| ProfileStore.RedisClient.GetUserTransactions | fraud_detection_system/app/database.py:189-212 | empty when unreachable; otherwise the range 0..limit-1 of the user's list, the first `limit` entries for a positive limit |
| ProfileStore.RedisClient.GetUserHistory | fraud_detection_system/app/database.py:249-300 | none without statistics or a reachable server; otherwise the aggregates of the statistics and some member of each set |
| ProfileStore.RedisClient.IncrementPredictionsCount | fraud_detection_system/app/database.py:304-309 | the new state has the prediction counter incremented when reachable |
| ProfileStore.RedisClient.GetCacheHitRate | fraud_detection_system/app/database.py:311-327 | in [0, 1], and hits over lookups when reachable and there were lookups |
| ProfileStore.RedisClient.GetTotalPredictions | fraud_detection_system/app/database.py:329-340 | the reported counter, 0 when unreachable |
| ProfileStore.RedisClient.RecordResponseTime | fraud_detection_system/app/database.py:342-355 | the new state has the time pushed at the head of the window, trimmed to 1000 |
| ProfileStore.RedisClient.GetAverageResponseTime | fraud_detection_system/app/database.py:357-376 | the reported mean: times the window length it gives the window's sum |
| ProfileStore.RedisClient.ClearCache | fraud_detection_system/app/database.py:380-399 | the new state has no cached predictions; the answer is whether the server was reachable |
| ProfileStore.RedisClient.ResetMetrics | fraud_detection_system/app/database.py:401-424 | the new state has the counters and the window deleted |
| Base.Flag | fraud_detection_system/app/monitoring.py:234 | the component gauge (and every 0/1 feature) is 1.0 iff the condition holds, 0.0 iff not |
| Monitoring.RecordKeepsCounting | fraud_detection_system/app/monitoring.py:157-160 | the counters stay non-negative with frauds at most predictions, through records and resets |
| Monitoring.RecordPredictionEffect | fraud_detection_system/app/monitoring.py:156-172 | one more prediction, one more fraud iff flagged, the probability added to the total; then the gauges show the summary's figures |
| Monitoring.GaugesNeedPredictions | fraud_detection_system/app/monitoring.py:293-302 | with no prediction yet, recomputing the gauges changes nothing |
| Monitoring.SummaryRanges | fraud_detection_system/app/monitoring.py:317-324 | the fraud rate is a percentage and the average probability is in [0, 1]; both are 0.0 before the first prediction |
| Monitoring.RecordKeepsProbabilityTotal | fraud_detection_system/app/monitoring.py:169 | a probability in [0, 1] keeps the running total within [0, count] |
| Monitoring.ResetSummary | fraud_detection_system/app/monitoring.py:329-333 | after a reset the summary reports zeros; the gauges keep their last values |
| Monitoring.PerformFullHealthCheck | fraud_detection_system/app/monitoring.py:485-510 | the API is always up; the model is up iff present and loaded; the store is up iff present and reachable; the three gauges are set |
| Monitoring.HealthGauges | fraud_detection_system/app/monitoring.py:505-508 | after a health check each component's gauge is 1.0 iff it is healthy |
| Monitoring.MetricsCollector.constructor | fraud_detection_system/app/monitoring.py:133-138 | counters, total and gauges start at zero |
| Monitoring.MetricsCollector.UpdateGauges | fraud_detection_system/app/monitoring.py:293-302 | the new state is the gauge update |
| Monitoring.MetricsCollector.RecordPrediction | fraud_detection_system/app/monitoring.py:142-172 | the new state is the recorded prediction, and the invariant is kept |
| Monitoring.MetricsCollector.RecordError | fraud_detection_system/app/monitoring.py:203-211 | one more error of the given type |
| Monitoring.MetricsCollector.UpdateCacheMetrics | fraud_detection_system/app/monitoring.py:213-220 | only the hit-rate gauge changes |
| Monitoring.MetricsCollector.UpdateComponentStatus | fraud_detection_system/app/monitoring.py:222-235 | only the component's gauge changes |
| Monitoring.MetricsCollector.GetSummary | fraud_detection_system/app/monitoring.py:304-327 | the fraud rate is fraud/count * 100 and the average is total/count; frauds never exceed predictions |
| Monitoring.MetricsCollector.ResetMetrics | fraud_detection_system/app/monitoring.py:329-334 | the three counters go back to zero |
| Api.PredictRejectsInvalidBody | fraud_detection_system/app/models.py:70-77 | an invalid amount is answered 422 before anything is read or written |
| Api.PredictRejectsUnloadedModel | fraud_detection_system/app/main.py:295-299 | an unloaded model is refused before the store is touched; the 503 is caught and becomes a 500 counted as a prediction error |
| Api.CacheHitShortCircuits | fraud_detection_system/app/main.py:302-308 | a hit answers the cached prediction and changes only the hit counter |
| Api.CacheMissPipeline | fraud_detection_system/app/main.py:311-340 | a miss predicts once, caches for 3600 s, saves the transaction with the verdict at the head of the user's list, counts one prediction, records it and pushes the response time |
| Api.HandleFresh | fraud_detection_system/app/main.py:311-350 | on a miss the handler's answer and both new states are the fresh-prediction writes |
| Api.FreshWrites | fraud_detection_system/app/main.py:313-340 | the writes after a fresh prediction: cache entry, list head, one more prediction, no hit or miss, the response time first |
| Api.PredictValueErrorIs400 | fraud_detection_system/app/main.py:352-354 | a failed prediction is a 400, with only the miss counted and nothing recorded |
| Api.FreshPredictionKeepsInvariants | fraud_detection_system/app/main.py:313-340 | the fresh-prediction writes keep the store and collector invariants, and the hit-rate gauge stays in [0, 1] |
| Api.FraudCount | fraud_detection_system/app/main.py:399-400 | the number of frauds is at most the number of predictions |
| Api.BatchItems | fraud_detection_system/app/main.py:386 | each transaction is paired with the history read for its user |
| Api.RecordAllCounts | fraud_detection_system/app/main.py:403-407 | recording a batch adds its size to the predictions and its frauds to the fraud count, keeping the invariant |
| Api.IncrementsAdd | fraud_detection_system/app/main.py:413-414 | n increments add n to the prediction counter when reachable and change nothing else |
| Api.BatchStep | fraud_detection_system/app/main.py:390-407 | one more pass of the save loop saves, records and counts one more prediction |
| Api.Occurrences | fraud_detection_system/app/main.py:390 | the number of a user's transactions in a batch is at most its size |
| Api.SaveAllCounts | fraud_detection_system/app/main.py:390-396 | saving a batch adds to each user's count the number of its transactions in the batch, and leaves the cache and counters alone |
| Api.SaveCount | fraud_detection_system/app/main.py:392-396 | one save adds one to its own user's count only |
| Api.SaveAllKeepsConsistency | fraud_detection_system/app/main.py:390-396 | saving a batch keeps the store invariant |
| Api.BatchOutcome | fraud_detection_system/app/main.py:386-427 | a served batch is all predictions, saved, recorded and counted, with the fraud count and total time in the response |
| Api.BatchServedResponse | fraud_detection_system/app/main.py:422-427 | a served batch has one prediction per transaction, in order, and counts its frauds |
| Api.BatchWrites | fraud_detection_system/app/main.py:388-414 | a served batch adds its size to both prediction counters and its frauds to the collector, saves every transaction once, and never touches the cache |
| Api.BatchFailures | fraud_detection_system/app/main.py:429-432 | a valid batch fails iff some prediction fails, then with 500, nothing saved and one batch error counted |
| Api.BatchFailsWithPredictions | fraud_detection_system/app/main.py:376-432 | a valid batch fails iff its batch prediction fails, then only the error counter moves |
| Api.HistoryNotFound | fraud_detection_system/app/main.py:449-462 | 404 iff the store is down or the user has no statistics; otherwise the count is the stored one |
| Api.HandleAsWrittenAgrees | fraud_detection_system/app/main.py:293-362 | without a timestamp and from 06:00 on, `predict_fraud` as written gives the same answer and states as the intended handler |
| Api.NightRequestFails | fraud_detection_system/app/main.py:356-362 | as written, a cache miss without a timestamp between 00:00 and 05:59 is answered 500, counting the miss and one prediction error, where the intended handler serves the prediction |
| Api.TimestampedRequestNotSaved | fraud_detection_system/app/main.py:310-340 | as written, a timestamped cache miss is served, cached and counted, but the user's list, statistics and sets stay as they were |
| Api.WritesAsWrittenSkipSave | fraud_detection_system/app/main.py:313-340 | the as-written writes for a timestamped transaction cache the prediction for an hour and count it, and save nothing |
| Api.SaveAllAsWrittenCases | fraud_detection_system/app/main.py:390-396 | as written, the batch's save loop changes nothing for timestamped transactions and equals the intended loop for untimestamped ones |
| Api.BatchAsWrittenAgrees | fraud_detection_system/app/main.py:376-432 | without timestamps and from 06:00 on, `predict_batch` as written gives the same answer and states as the intended handler |
| Api.BatchNightFails | fraud_detection_system/app/main.py:386-432 | as written, a valid batch with one untimestamped transaction between 00:00 and 05:59 fails with 500 and saves nothing, where the intended handler serves it |
| Api.BatchTimestampedNotSaved | fraud_detection_system/app/main.py:386-417 | as written, a served batch of timestamped transactions answers as intended and counts its predictions, but leaves every user's list, statistics and sets alone |
| Api.HealthOverall | fraud_detection_system/app/main.py:491-520 | healthy iff the model is loaded and the store answers; each component status follows its check; the report meets its ranges; zeros when the store is down |
| Api.App.PredictFraud | fraud_detection_system/app/main.py:293-362 | the answer and the new store and collector states are those of the handler function, given the history the extractor read |
| Api.App.ReadHistories | fraud_detection_system/app/features.py:197-201 | one history per transaction, each what the store answers for its user |
| Api.App.SaveAndRecord | fraud_detection_system/app/main.py:388-407 | the save loop: each transaction saved, each prediction recorded, and the returned fraud count |
| Api.App.IncrementTimes | fraud_detection_system/app/main.py:413-414 | the counter loop: one increment per prediction |
| Api.App.PredictBatch | fraud_detection_system/app/main.py:376-432 | the answer and new states are those of the batch handler function, given the histories read |
| Api.App.GetUserHistory | fraud_detection_system/app/main.py:448-462 | the answer is the stored history, or 404 |
| Api.App.HealthCheck | fraud_detection_system/app/main.py:484-520 | the report follows the component checks and the store's figures, meets its ranges, and sets the three gauges |
| JsText.OrElse | fraud_detection_system/recaptcha-service/fraudScoreManager.js:39 | `n \|\| fallback`: NaN and 0 give the fallback, any other number itself |
| JsText.ParseShowInt | fraud_detection_system/recaptcha-service/redisClient.js:181-183 | `parseInt(String(n))` gives back n for every integer |
| JsText.ParseIntExamples | fraud_detection_system/recaptcha-service/fraudScoreManager.js:39 | an empty or wordy string is NaN; trailing text after the digits is ignored |
| JsText.QuoteRoundTrip | fraud_detection_system/recaptcha-service/fraudScoreManager.js:79-83 | `JSON.parse` reads back the string `JSON.stringify` wrote, and leaves what follows |
| JsText.JsonIntRoundTrip | fraud_detection_system/recaptcha-service/fraudScoreManager.js:79-83 | an integer written by `JSON.stringify` reads back when no digit follows it |
| MemoryStore.Lookup | fraud_detection_system/recaptcha-service/redisClient.js:107-110 | a value is returned iff the key holds a non-empty string, so missing and empty both read as null |
| MemoryStore.Put | fraud_detection_system/recaptcha-service/redisClient.js:123-135 | after `set` the key reads back its value (null for an empty string); every other key is unchanged |
| MemoryStore.IncrementBy | fraud_detection_system/recaptcha-service/redisClient.js:179-185 | the key then holds the decimal text of the returned number; every other key is unchanged |
| MemoryStore.Matching | fraud_detection_system/recaptcha-service/redisClient.js:228-229 | a key is listed iff it is stored and matches the pattern |
| MemoryStore.KeysOf | fraud_detection_system/recaptcha-service/redisClient.js:218-230 | for a pattern other than `*`, a key is listed iff it is stored and matches |
| MemoryStore.MatchingDistinct | fraud_detection_system/recaptcha-service/redisClient.js:228-229 | filtering keeps the keys distinct |
| MemoryStore.StarMatches | fraud_detection_system/recaptcha-service/redisClient.js:228 | a lone `*` turned into `.*` matches exactly the strings without line terminators |
| MemoryStore.PrefixStarMatches | fraud_detection_system/recaptcha-service/redisClient.js:228 | `prefix*` matches exactly the strings starting with the prefix followed by a single-line rest |
| MemoryStore.StatusOf | fraud_detection_system/recaptcha-service/redisClient.js:286-293 | the mode is MEMORY iff in fallback mode; the size is the number of keys |
| MemoryStore.PutKeepsWellFormed | fraud_detection_system/recaptcha-service/redisClient.js:125 | `set` keeps keys distinct and listed; the size grows by one iff the key is new |
| MemoryStore.WithoutKeepsDistinct | fraud_detection_system/recaptcha-service/redisClient.js:204 | deleting a key keeps the rest distinct and shortens the order by one iff it was there |
| MemoryStore.RemoveEffect | fraud_detection_system/recaptcha-service/redisClient.js:202-204 | `del` returns 1 iff the key was present; the key is then absent and every other key unchanged |
| MemoryStore.IncrByMissing | fraud_detection_system/recaptcha-service/redisClient.js:181-183 | a missing key counts from 0 |
| MemoryStore.IncrByCounter | fraud_detection_system/recaptcha-service/redisClient.js:181-184 | a counter written before gains the amount and reads back as the sum |
| MemoryStore.IncrByNotANumber | fraud_detection_system/recaptcha-service/redisClient.js:181-184 | a value that is not a number gives NaN, stored as "NaN" |
| MemoryStore.KeyValueStore.constructor | fraud_detection_system/recaptcha-service/redisClient.js:16-22 | an empty store, not connected, not in fallback mode, no attempts |
| MemoryStore.KeyValueStore.OnConnect | fraud_detection_system/recaptcha-service/redisClient.js:54-57 | one more connection attempt, nothing else |
| MemoryStore.KeyValueStore.OnConnectionLost | fraud_detection_system/recaptcha-service/redisClient.js:66-74 | the connection is marked down, nothing else |
| MemoryStore.KeyValueStore.EnterFallback | fraud_detection_system/recaptcha-service/redisClient.js:32-38 | fallback mode is set, nothing else |
| MemoryStore.KeyValueStore.IsRedisConnected | fraud_detection_system/recaptcha-service/redisClient.js:279-281 | false whenever the memory path is taken |
| MemoryStore.KeyValueStore.Get | fraud_detection_system/recaptcha-service/redisClient.js:107-110 | the lookup of the key |
| MemoryStore.KeyValueStore.Set | fraud_detection_system/recaptcha-service/redisClient.js:123-135 | the new contents are the `set` write and the answer is "OK" |
| MemoryStore.KeyValueStore.IncrBy | fraud_detection_system/recaptcha-service/redisClient.js:179-185 | the answer and new contents are the `incrby` function's |
| MemoryStore.KeyValueStore.Incr | fraud_detection_system/recaptcha-service/redisClient.js:155-161 | `incr` is `incrby` by 1 |
| MemoryStore.KeyValueStore.Del | fraud_detection_system/recaptcha-service/redisClient.js:202-204 | the answer and new contents are the `del` function's |
| MemoryStore.KeyValueStore.Keys | fraud_detection_system/recaptcha-service/redisClient.js:218-230 | all keys for `*`, otherwise the matching keys in insertion order |
| MemoryStore.KeyValueStore.Expire | fraud_detection_system/recaptcha-service/redisClient.js:243-250 | answers 1 |
| MemoryStore.KeyValueStore.Ttl | fraud_detection_system/recaptcha-service/redisClient.js:263-266 | answers -1 |
| MemoryStore.KeyValueStore.MGet | fraud_detection_system/recaptcha-service/redisClient.js:317-320 | one lookup per requested key, in order |
| MemoryStore.KeyValueStore.FlushAll | fraud_detection_system/recaptcha-service/redisClient.js:299-303 | the store is empty afterwards |
| MemoryStore.KeyValueStore.GetStatus | fraud_detection_system/recaptcha-service/redisClient.js:286-293 | the status of the flags and the store's size |
| ScoreManager.EnvInt | fraud_detection_system/recaptcha-service/fraudScoreManager.js:11-14 | an unset variable gives the default; a variable parsing to a non-zero integer gives that integer |
| ScoreManager.ConfigDefaults | fraud_detection_system/recaptcha-service/fraudScoreManager.js:11-14 | with nothing set the configuration is 100, 900, 3600, 10; "0" and a word also fall back to the default |
| ScoreManager.ReplaceFirst | fraud_detection_system/recaptcha-service/fraudScoreManager.js:204 | a string starting with the needle has that start replaced |
| ScoreManager.KeysDistinct | fraud_detection_system/recaptcha-service/fraudScoreManager.js:26-31 | the four key families never collide, and score and block keys are one-to-one in the IP |
| ScoreManager.ScoreKeyOfListed | fraud_detection_system/recaptcha-service/fraudScoreManager.js:200-204 | a key listed by the score pattern is the score key of the IP read from it |
| ScoreManager.BlockedKeyNotScore | fraud_detection_system/recaptcha-service/fraudScoreManager.js:200 | a block key is never listed as a score key |
| ScoreManager.ScoreIn | fraud_detection_system/recaptcha-service/fraudScoreManager.js:36-44 | a missing score reads as 0 |
| ScoreManager.ScoreOfText | fraud_detection_system/recaptcha-service/fraudScoreManager.js:39 | a score written as `String(n)` reads back as n |
| ScoreManager.AfterLog | fraud_detection_system/recaptcha-service/fraudScoreManager.js:175-193 | logging writes only the IP's event key |
| ScoreManager.BlockRoundTrip | fraud_detection_system/recaptcha-service/fraudScoreManager.js:79-83 | a block entry reads back as written |
| ScoreManager.AfterBlock | fraud_detection_system/recaptcha-service/fraudScoreManager.js:77-94 | blocking writes only the IP's block key |
| ScoreManager.ExpiresIn | fraud_detection_system/recaptcha-service/fraudScoreManager.js:126 | a TTL that is not positive reads "N/A" |
| ScoreManager.DetailsIn | fraud_detection_system/recaptcha-service/fraudScoreManager.js:112-132 | details exist only for a blocked IP |
| ScoreManager.BlockThenDetails | fraud_detection_system/recaptcha-service/fraudScoreManager.js:77-132 | after a block the IP is blocked, its details give the time, reason and score, and its score is unchanged |
| ScoreManager.IncrementFor | fraud_detection_system/recaptcha-service/fraudScoreManager.js:51 | an explicit non-zero amount wins, else the event table's value, else 10; never 0 |
| ScoreManager.CountAndLogEffect | fraud_detection_system/recaptcha-service/fraudScoreManager.js:51-58 | the counter goes from s to s + increment and reads back as that; the block key is untouched |
| ScoreManager.IncrementBelowThreshold | fraud_detection_system/recaptcha-service/fraudScoreManager.js:62-66 | below the threshold no block entry is written |
| ScoreManager.IncrementAtThreshold | fraud_detection_system/recaptcha-service/fraudScoreManager.js:62-66 | at or above the threshold the block entry is written with the threshold reason |
| ScoreManager.BlockEntryWritten | fraud_detection_system/recaptcha-service/fraudScoreManager.js:79-85 | the block entry records the time, reason and current score, and leaves the score key alone |
| ScoreManager.IncrementFromCount | fraud_detection_system/recaptcha-service/fraudScoreManager.js:52-66 | given the counter result n, the score is n and the block entry is written iff n reaches the threshold |
| ScoreManager.IncrementEffect | fraud_detection_system/recaptcha-service/fraudScoreManager.js:49-72 | from score s the new score is s + increment and reads back; a block entry is written iff it reaches the threshold; otherwise the block key is untouched |
| ScoreManager.ScoreOfHolds | fraud_detection_system/recaptcha-service/fraudScoreManager.js:39 | a score held as written text is what `getScore` reads |
| ScoreManager.IncrementBlockedIff | fraud_detection_system/recaptcha-service/fraudScoreManager.js:62-66 | afterwards the IP is blocked iff it was already or the new score reaches the threshold |
| ScoreManager.RepeatedReports | fraud_detection_system/recaptcha-service/fraudScoreManager.js:49-72 | k steps that each add inc from 0 give k * inc and a block iff that reaches the threshold |
| ScoreManager.IncrementCountsTowardBlock | fraud_detection_system/recaptcha-service/fraudScoreManager.js:49-72 | each `incrementScore` for one IP and event is such a step |
| ScoreManager.RepeatedIncrements | fraud_detection_system/recaptcha-service/fraudScoreManager.js:49-72 | a fresh IP reported k times scores k times the increment and is blocked iff that reaches the threshold |
| ScoreManager.FailedCaptchasBlockAtFour | fraud_detection_system/recaptcha-service/test-fraud-scoring.js:92-113 | with the defaults, k failed captchas score 25k and block iff k >= 4 |
| ScoreManager.UnblockEffect | fraud_detection_system/recaptcha-service/fraudScoreManager.js:137-152 | true iff a block entry existed; afterwards not blocked, score unchanged |
| ScoreManager.ResetEffect | fraud_detection_system/recaptcha-service/fraudScoreManager.js:157-170 | afterwards the score reads 0 and a block entry stays as it was |
| ScoreManager.CheckOf | fraud_detection_system/recaptcha-service/fraudScoreManager.js:348-372 | denied iff blocked; the score is `getScore`'s; an allowed request carries the threshold and a warning iff the score is above 50 |
| ScoreManager.BlockedRequestDenied | fraud_detection_system/recaptcha-service/fraudScoreManager.js:348-361 | an IP blocked for a reason is denied with that reason, its score, "N/A" and TTL -1 |
| ScoreManager.EntryOf | fraud_detection_system/recaptcha-service/fraudScoreManager.js:204 | a listed entry carries the IP its key names |
| ScoreManager.EntriesOf | fraud_detection_system/recaptcha-service/fraudScoreManager.js:203-215 | one entry per key, in key order |
| ScoreManager.InsertByScore | fraud_detection_system/recaptcha-service/fraudScoreManager.js:218 | inserting adds exactly the one entry |
| ScoreManager.SortByScore | fraud_detection_system/recaptcha-service/fraudScoreManager.js:218 | sorting is a permutation |
| ScoreManager.InsertDescending | fraud_detection_system/recaptcha-service/fraudScoreManager.js:218 | inserting into a descending list keeps it descending |
| ScoreManager.InsertWithScore | fraud_detection_system/recaptcha-service/fraudScoreManager.js:218 | the inserted entry comes after the entries of its score already there |
| ScoreManager.SortDescending | fraud_detection_system/recaptcha-service/fraudScoreManager.js:218 | the sorted list is descending by score |
| ScoreManager.SortLast | fraud_detection_system/recaptcha-service/fraudScoreManager.js:218 | sorting one more entry puts it after the sorted entries of its score |
| ScoreManager.SortStable | fraud_detection_system/recaptcha-service/fraudScoreManager.js:218 | entries of equal score keep their order |
| ScoreManager.SortByScoreCorrect | fraud_detection_system/recaptcha-service/fraudScoreManager.js:218 | the listing is descending by score, a permutation, and stable |
| ScoreManager.ListedEntries | fraud_detection_system/recaptcha-service/fraudScoreManager.js:203-207 | each listed entry has the score and block state the single-IP reads give |
| ScoreManager.BlockedEntryOf | fraud_detection_system/recaptcha-service/fraudScoreManager.js:237-244 | the entry carries the IP and its block details; when the block entry parses, its recorded score overrides the current score, otherwise the current score is listed |
| ScoreManager.AllBlockedOf | fraud_detection_system/recaptcha-service/fraudScoreManager.js:230-252 | one entry per block key, in key order, each the entry of the IP named by that key |
| ScoreManager.BlockedListingKeepsBlockScore | fraud_detection_system/recaptcha-service/fraudScoreManager.js:240-244 | right after a block the IP is listed with the score it had when blocked and the details of that block |
| ScoreManager.HighRisk | fraud_detection_system/recaptcha-service/fraudScoreManager.js:272 | the high-risk count is at most the number of IPs |
| ScoreManager.RoundTenth | fraud_detection_system/recaptcha-service/fraudScoreManager.js:279 | the result is a multiple of 0.1 within 0.05 of the input |
| ScoreManager.StatsFrom | fraud_detection_system/recaptcha-service/fraudScoreManager.js:257-284 | active = total - blocked; the counts are the listings' lengths; high risk is within the total; the average is 0 with no IPs and within 0.05 of the mean otherwise |
| ScoreManager.BlockedKeyListed | fraud_detection_system/recaptcha-service/fraudScoreManager.js:232 | a stored block entry is listed |
| ScoreManager.EventKeyNotScore | fraud_detection_system/recaptcha-service/fraudScoreManager.js:200 | an event-log key is never listed as a score key |
| ScoreManager.NoScoreKeysListed | fraud_detection_system/recaptcha-service/fraudScoreManager.js:200 | a store holding only a block entry and an event log lists no score keys |
| ScoreManager.KeysAfterBlock | fraud_detection_system/recaptcha-service/fraudScoreManager.js:85 | a block adds only its own key |
| ScoreManager.KeysAfterReset | fraud_detection_system/recaptcha-service/fraudScoreManager.js:157-163 | a reset adds only the event key and keeps a block key |
| ScoreManager.ActiveCountCanGoNegative | fraud_detection_system/recaptcha-service/fraudScoreManager.js:262-264 | a blocked IP whose score was reset makes `activeCount` negative |
| ScoreManager.WriteDecayed | fraud_detection_system/recaptcha-service/fraudScoreManager.js:312-316 | a decayed score of 0 deletes the key, any other is written as text; other keys unchanged |
| ScoreManager.DecayKey | fraud_detection_system/recaptcha-service/fraudScoreManager.js:305-322 | an IP is decayed iff its score is positive; only its score and event keys change |
| ScoreManager.DecayAllLast | fraud_detection_system/recaptcha-service/fraudScoreManager.js:305-323 | the walk over one more key is one more decay step |
| ScoreManager.DecayKeyEffect | fraud_detection_system/recaptcha-service/fraudScoreManager.js:307-316 | the IP's score becomes max(0, score - amount) if positive, and its key is deleted when that is 0 |
| ScoreManager.DecayAllFrame | fraud_detection_system/recaptcha-service/fraudScoreManager.js:305-323 | keys other than the walked score keys and their event keys (block entries among them) are untouched |
| ScoreManager.DecayLastSeesOriginal | fraud_detection_system/recaptcha-service/fraudScoreManager.js:305-323 | each step sees its key's score as it was before the decay |
| ScoreManager.DecayAllCount | fraud_detection_system/recaptcha-service/fraudScoreManager.js:303-327 | the returned count is the number of listed IPs with a positive score |
| ScoreManager.DecayAllEffect | fraud_detection_system/recaptcha-service/fraudScoreManager.js:298-332 | every listed IP's positive score is lowered by the amount, not below 0, and deleted at 0 |
| ScoreManager.ScoreKeyNotEvent | fraud_detection_system/recaptcha-service/fraudScoreManager.js:27-30 | a score key is never an event key |
| ScoreManager.ListedScoreKeys | fraud_detection_system/recaptcha-service/fraudScoreManager.js:302 | the keys decay walks are distinct score keys |
| ScoreManager.FraudScoreManager.constructor | fraud_detection_system/recaptcha-service/fraudScoreManager.js:11-14 | the configuration is read from the environment |
| ScoreManager.FraudScoreManager.GetScore | fraud_detection_system/recaptcha-service/fraudScoreManager.js:36-44 | the stored score, as `ScoreIn` reads it |
| ScoreManager.FraudScoreManager.LogEvent | fraud_detection_system/recaptcha-service/fraudScoreManager.js:175-193 | the new contents are the log write |
| ScoreManager.FraudScoreManager.BlockIP | fraud_detection_system/recaptcha-service/fraudScoreManager.js:77-94 | the new contents are the block write; answers true |
| ScoreManager.FraudScoreManager.CountAndLogEvent | fraud_detection_system/recaptcha-service/fraudScoreManager.js:51-58 | the counter update and log write |
| ScoreManager.FraudScoreManager.IncrementScore | fraud_detection_system/recaptcha-service/fraudScoreManager.js:49-72 | the answer and new contents are the increment function's |
| ScoreManager.FraudScoreManager.IsBlocked | fraud_detection_system/recaptcha-service/fraudScoreManager.js:99-107 | blocked iff the block entry reads non-null |
| ScoreManager.FraudScoreManager.GetBlockDetails | fraud_detection_system/recaptcha-service/fraudScoreManager.js:112-132 | the parsed entry with TTL -1, or null |
| ScoreManager.FraudScoreManager.UnblockIP | fraud_detection_system/recaptcha-service/fraudScoreManager.js:137-152 | the answer and new contents are the unblock function's |
| ScoreManager.FraudScoreManager.ResetScore | fraud_detection_system/recaptcha-service/fraudScoreManager.js:157-170 | the new contents are the reset function's; answers true |
| ScoreManager.FraudScoreManager.GetAllScores | fraud_detection_system/recaptcha-service/fraudScoreManager.js:198-225 | the sorted listing of every score key's entry |
| ScoreManager.FraudScoreManager.EntryAt | fraud_detection_system/recaptcha-service/fraudScoreManager.js:204-214 | one listed entry |
| ScoreManager.FraudScoreManager.GetAllBlocked | fraud_detection_system/recaptcha-service/fraudScoreManager.js:230-252 | the loop over the block keys returns exactly the listing AllBlockedOf describes, block-time scores included |
| ScoreManager.FraudScoreManager.GetStats | fraud_detection_system/recaptcha-service/fraudScoreManager.js:257-292 | the statistics of the two listings and the client status |
| ScoreManager.Sum | fraud_detection_system/recaptcha-service/fraudScoreManager.js:268 | the loop's sum is the sum of the scores |
| ScoreManager.CountHighRisk | fraud_detection_system/recaptcha-service/fraudScoreManager.js:272 | the loop's count is the number of unblocked IPs above 50 |
| ScoreManager.FraudScoreManager.DecayOne | fraud_detection_system/recaptcha-service/fraudScoreManager.js:305-322 | one decay step |
| ScoreManager.FraudScoreManager.DecayNext | fraud_detection_system/recaptcha-service/fraudScoreManager.js:305-323 | the walk extended by one key |
| ScoreManager.FraudScoreManager.ApplyScoreDecay | fraud_detection_system/recaptcha-service/fraudScoreManager.js:298-332 | the count and new contents are the decay walk over a snapshot of the score keys |
| ScoreManager.FraudScoreManager.CheckRequest | fraud_detection_system/recaptcha-service/fraudScoreManager.js:348-372 | the request check of the current contents |

## Left out

- Training, evaluation, feature importance and model files (`train`, `evaluate`, `get_feature_importance`, `save_model`, `load_model`, `training/`). These are library calls and file I/O. The classifier and scaler are functions inside `FraudModel`.
- The floating-point transforms in feature extraction (`log1p`, the sine and cosine of the hour, `hash(...) % 10000`). They come from the `Numerics` parameter. Python salts its string hash per process, so only the fold into [0, 10000) is stated.
- Floating point in general. Amounts, probabilities and averages are exact reals; rounding is not modelled.
- Features.FromHistory: timestamps are naive whole seconds (`Instant`). A request timestamp with a UTC offset (such as `2025-10-15T14:30:00Z`, which the request model accepts) cannot be subtracted from the naive stored `last_transaction_date` (`database.py:239`, `database.py:283`). The subtraction at `features.py:233` then raises, and `features.py:245-247` substitutes the default behavioural group. The handlers always pass the history read from the store, so they never produce that fallback (`HistoryContext.Raised`) for an offset-carrying timestamp.
- Features.ExperienceAndSuccession: gaps are whole seconds, but the source's timestamps carry microseconds. With a last transaction at 10:00:00.5 and a request at 10:05:00.0, the source's gap is 299.5 s, so `is_rapid_succession` is 1.0. The model's gap is 300 s, so it is 0.0, and `hours_since_last_tx` loses the fraction as well.
- The risk messages and the explanation sentence are tags that carry their figures (`RiskFactor`, `Explanation`). The Portuguese text of `features.py:394-431` and `ml_model.py:358-376` is not reproduced, and neither is its `:.2f`, `:.1f` and `:.1%` number formatting.
- The clock is a parameter. `features.py` reads `datetime.now()` once for the temporal features and once for the behavioural ones; both are one `now` here.
- The real Redis connection of both services: `is_healthy` is whether the server is reachable, and every other exception is the unreachable case. Reconnection, retries and the `retryStrategy` back-off are not modelled either.
- TTL expiry: the Python cache keeps its TTL as data but never expires; the Node service's `setTimeout`-based memory expiry and the `setInterval` decay schedule (`startScoreDecay`) are timers. `expire` answers 1 and `ttl` answers -1, as in memory mode.
- The remote-Redis branches of `redisClient.js` and the `catch` branches of `fraudScoreManager.js`. In memory mode nothing can throw except `JSON.parse`, and the model covers that case (as null details).
- `JSON.parse` in general. Block entries are read by a parser for the shape `JSON.stringify` writes them in. Escapes of surrogate code units are refused, and `\u` escapes of other characters are read back.
- JavaScript numbers are integers or NaN. Precision loss beyond 2^53 and non-integer increments are not modelled.
- `SCORE_INCREMENTS[eventType]` for event types that name inherited object members (such as `constructor`) is not modelled. Only the five table keys give table values.
- Glob `keys` patterns treat every character except `*` literally. Regular-expression metacharacters in a pattern are not modelled; the service's own patterns contain none.
- ScoreManager.BlockedKeyListed: requires an IP without line terminators, because the regular expression's `.` does not match them.
- ProfileStore.RedisClient.GetUserHistory: the "most common" category and location are some member of the set (Python's `list(s)[0]`). The model does not say which, because set order is not specified.
- Base.Lower: lower-cases only A-Z and the Latin-1 capitals. Python's `str.lower()` maps all of Unicode: the Kelvin sign U+212A becomes `k`, and `İ` becomes two code points, so the length is not kept. The location and device rules (`features.py:290`, `features.py:319`) on text outside Latin-1 are not modelled.
- `predict` extracts the features twice: once itself, and once inside `explain_features` (`features.py:374-434`). Each extraction reads the user's history and the clock again. The model uses one history and one `now` for both.
- Scoring.PredictAll: every batch item gets the same `now` and the same `elapsedMs`. The source reads the clock and times each item separately (`ml_model.py:230`, `ml_model.py:269`, `ml_model.py:310-312`).
- Scoring.Predict: models the intended explanation step. As written, a loaded model raises in that step for an explicit `null` timestamp between 00:00 and 05:59; `Scoring.PredictAsWritten` models that.
- Scoring.PredictSucceeds: states that the intended prediction never fails. As written, the night-time input above fails (`Scoring.PredictAsWrittenNightFailure`).
- Scoring.PredictAllFails: states that the intended batch never fails on a well-behaved model. As written, it fails before 06:00 when one item has no timestamp (`Scoring.PredictAllAsWrittenCases`).
- Api.CacheMissPipeline: states the intended save. As written, a timestamped request, which is practically every request, is not saved (`Api.TimestampedRequestNotSaved`); an explicit `null` timestamp at night gets 500 (`Api.NightRequestFails`).
- Api.HandleFresh: describes the intended handler; `Api.HandleAsWrittenAgrees` says where the handler as written agrees with it.
- Api.FreshWrites: describes the intended save; the as-written writes are `Api.WritesAsWrittenSkipSave`.
- Api.BatchStep: steps the intended save loop; the as-written loop is `Api.SaveAllAsWritten` (`Api.SaveAllAsWrittenCases`).
- Api.SaveAllCounts: counts the intended saves. As written, timestamped transactions add nothing (`Api.SaveAllAsWrittenCases`).
- Api.SaveCount: counts one intended save. As written, a timestamped transaction adds nothing (`ProfileStore.SaveAsWrittenDropsTimestamped`).
- Api.BatchOutcome: describes the intended batch handler; `Api.BatchAsWrittenAgrees` says where the handler as written agrees with it.
- Api.BatchWrites: states the intended batch saves. As written, a timestamped batch saves nothing (`Api.BatchTimestampedNotSaved`).
- Api.BatchServedResponse: holds for the intended batch handler. As written, a night-time batch with an untimestamped item is not served (`Api.BatchNightFails`).
- Api.BatchFailures: holds for the intended predictions; as written, failures also come from the explanation step (`Api.BatchNightFails`).
- Api.App.PredictFraud: calls the intended save and prediction; the handler as written is `Api.HandlePredictAsWritten`.
- Api.App.SaveAndRecord: calls the intended save; the as-written loop is `Api.SaveAllAsWritten`.
- Api.App.PredictBatch: calls the intended save and predictions; the handler as written is `Api.HandleBatchAsWritten`.
- Concurrency and atomicity between requests: every handler runs alone.
- `server.js`, the reCAPTCHA verification, the admin middleware, the UI, the PDF reports, the enterprise endpoints, the operational scripts and the network test scripts are not part of this model.
- Prometheus metric objects, the histograms fed by processing times, HTTP request metrics, logging and CORS are not modelled.
- `record_http_request`, `update_model_metrics` and `set_model_info` of the metrics collector are not modelled. They only feed Prometheus objects.

## Findings

| source | as written | input that shows it | evidently intended | confidence | as-written member | corrected member |
|---|---|---|---|---|---|---|
| fraud_detection_system/app/database.py:171-176 | the record is serialized with `json.dumps(transaction.model_dump())`, and the dump still holds the `datetime` timestamp; the encoder raises `TypeError`, so the call logs the error and answers False without saving | any transaction with a timestamp on a reachable store; a request that omits the field gets the request time (models.py:64), so this is practically every request | the transaction is saved and the user's statistics updated | high, not executed | ProfileStore.SaveAsWrittenDropsTimestamped | ProfileStore.Save |
| fraud_detection_system/app/features.py:405-406 | the suspicious-hour message reads `transaction.timestamp.hour`, but the flag was computed from `timestamp or now()`; a missing timestamp raises `AttributeError` | a transaction whose request sends an explicit `null` timestamp, explained between 00:00 and 05:59 | the message quotes the hour the features were computed from | high, not executed | Features.ExplainAsWrittenCounterexample | Features.ExplainFeatures |

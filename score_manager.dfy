// The Node service's per-IP fraud scores: events raise a score kept as
// decimal text in the key-value store, a score at the threshold writes a
// block entry, a periodic decay lowers every positive score, and
// administrators can unblock an IP or reset its score.

module ScoreManager {
  import opened Base
  import opened JsText
  import opened MemoryStore

  // ---------------------------------------------------------------------
  // Configuration

  /** The environment variables the service reads; `None` is an unset variable. */
  datatype Env = Env(blockThreshold: Option<string>, blockTtl: Option<string>,
                     decayInterval: Option<string>, decayAmount: Option<string>)

  datatype Config = Config(blockThreshold: int, blockTtl: int, decayInterval: int, decayAmount: int)

  /** `parseInt(process.env.X) || fallback`: unset, unparsable and zero all give the fallback. */
  function EnvInt(v: Option<string>, fallback: int): (r: int)
    ensures v.None? ==> r == fallback
    ensures v.Some? && ParseInt(v.value).Some? && ParseInt(v.value).value != 0 ==> r == ParseInt(v.value).value
  {
    OrElse(if v.Some? then ParseInt(v.value) else None, fallback)
  }

  function ConfigFrom(env: Env): Config
  {
    Config(EnvInt(env.blockThreshold, 100), EnvInt(env.blockTtl, 900),
           EnvInt(env.decayInterval, 3600), EnvInt(env.decayAmount, 10))
  }

  const Defaults := Config(100, 900, 3600, 10)

  /** With nothing set the defaults apply, and so they do for a variable set to "0" or to a word. */
  lemma ConfigDefaults(env: Env)
    requires env.blockThreshold.None? && env.blockTtl.None? && env.decayInterval.None? && env.decayAmount.None?
    ensures ConfigFrom(env) == Defaults
    ensures EnvInt(Some("0"), 100) == 100
    ensures EnvInt(Some("NaN"), 100) == 100
  {
    ParseShowInt(0);
    assert ShowInt(0) == "0";
    ParseIntExamples();
  }

  // ---------------------------------------------------------------------
  // Keys

  const ScorePrefix := "fraud:score:"
  const BlockedPrefix := "fraud:blocked:"
  const MetaPrefix := "fraud:meta:"
  const EventPrefix := "fraud:events:"

  function ScoreKey(ip: string): string { ScorePrefix + ip }
  function BlockedKey(ip: string): string { BlockedPrefix + ip }
  function MetaKey(ip: string): string { MetaPrefix + ip }
  function EventKey(ip: string): string { EventPrefix + ip }

  const ScorePattern := ScoreKey("*")
  const BlockedPattern := BlockedKey("*")

  predicate HasPrefix(s: string, p: string)
  {
    |p| <= |s| && s[..|p|] == p
  }

  /** `s.replace(needle, with)` with a string needle: only the first occurrence is replaced. */
  function ReplaceFirst(s: string, needle: string, with: string): (r: string)
    ensures HasPrefix(s, needle) ==> r == with + s[|needle|..]
    decreases |s|
  {
    if |s| < |needle| then s
    else if s[..|needle|] == needle then with + s[|needle|..]
    else [s[0]] + ReplaceFirst(s[1..], needle, with)
  }

  /** The IP a score key belongs to. */
  function IpOf(key: string): string
  {
    ReplaceFirst(key, ScorePrefix, "")
  }

  /** The four key families never collide, and each family is one-to-one in the IP. */
  lemma KeysDistinct(a: string, b: string)
    ensures ScoreKey(a) != BlockedKey(b) && ScoreKey(a) != EventKey(b) && ScoreKey(a) != MetaKey(b)
    ensures BlockedKey(a) != EventKey(b) && BlockedKey(a) != MetaKey(b)
    ensures ScoreKey(a) == ScoreKey(b) ==> a == b
    ensures BlockedKey(a) == BlockedKey(b) ==> a == b
  {
    assert ScoreKey(a)[6] == 's' && BlockedKey(b)[6] == 'b' && EventKey(b)[6] == 'e' && MetaKey(b)[6] == 'm';
    assert BlockedKey(a)[6] == 'b';
    if ScoreKey(a) == ScoreKey(b) {
      assert a == ScoreKey(a)[|ScorePrefix|..];
      assert b == ScoreKey(b)[|ScorePrefix|..];
    }
    if BlockedKey(a) == BlockedKey(b) {
      assert a == BlockedKey(a)[|BlockedPrefix|..];
      assert b == BlockedKey(b)[|BlockedPrefix|..];
    }
  }

  /** A key listed by `keys('fraud:score:*')` is the score key of its IP. */
  lemma ScoreKeyOfListed(key: string)
    requires GlobMatch(ScorePattern, key)
    ensures HasPrefix(key, ScorePrefix)
    ensures ScoreKey(IpOf(key)) == key
  {
    assert '*' !in ScorePrefix;
    PrefixStarMatches(ScorePrefix, key);
    assert ScorePrefix + key[|ScorePrefix|..] == key;
  }

  /** No block key is listed as a score key. */
  lemma BlockedKeyNotScore(ip: string)
    ensures !GlobMatch(ScorePattern, BlockedKey(ip))
  {
    if GlobMatch(ScorePattern, BlockedKey(ip)) {
      ScoreKeyOfListed(BlockedKey(ip));
      KeysDistinct(IpOf(BlockedKey(ip)), ip);
      assert false;
    }
  }

  // ---------------------------------------------------------------------
  // Reading a score

  /** `getScore`: `parseInt` of the stored text, where null, NaN and 0 all read as 0. */
  function ScoreIn(m: Mem, ip: string): (r: int)
    ensures Lookup(m, ScoreKey(ip)).None? ==> r == 0
  {
    var stored := Lookup(m, ScoreKey(ip));
    OrElse(if stored.Some? then ParseInt(stored.value) else None, 0)
  }

  /** A score written as `String(n)` reads back as `n`. */
  lemma ScoreOfText(m: Mem, ip: string, n: int)
    requires ScoreKey(ip) in m.values && m.values[ScoreKey(ip)] == ShowInt(n)
    ensures ScoreIn(m, ip) == n
  {
    ParseShowInt(n);
    if n == 0 {
      assert ShowInt(0) == "0";
    }
  }

  // ---------------------------------------------------------------------
  // Event log and block entries

  /** `logEvent`'s JSON text; a NaN score is written as null. */
  function EventText(timestamp: string, eventType: string, scoreChange: int, newScore: JsNumber): string
  {
    "{\"timestamp\":" + Quote(timestamp) + ",\"eventType\":" + Quote(eventType)
    + ",\"scoreChange\":" + ShowInt(scoreChange) + ",\"newScore\":" + JsonNumber(newScore) + "}"
  }

  /** `logEvent` keeps only the latest event of an IP. */
  function AfterLog(m: Mem, ip: string, eventType: string, scoreChange: int, newScore: JsNumber, now: string): (r: Mem)
    ensures forall key :: key != EventKey(ip) ==> SameAt(m, r, key)
  {
    Put(m, EventKey(ip), EventText(now, eventType, scoreChange, newScore))
  }

  datatype BlockRecord = BlockRecord(blockedAt: string, reason: string, score: int)

  const BlockedAtField := "{\"blockedAt\":"
  const ReasonField := ",\"reason\":"
  const ScoreField := ",\"score\":"

  /** `JSON.stringify` of a block entry. */
  function BlockText(b: BlockRecord): string
  {
    BlockedAtField + (Quote(b.blockedAt) + (ReasonField + (Quote(b.reason) + (ScoreField + (ShowInt(b.score) + "}")))))
  }

  /** `JSON.parse` of text in the shape `BlockText` writes; anything else fails. */
  function ParseBlock(s: string): Option<BlockRecord>
  {
    if !HasPrefix(s, BlockedAtField) then None
    else
      var at := ParseJsonString(s[|BlockedAtField|..]);
      if at.None? || !HasPrefix(at.value.1, ReasonField) then None
      else
        var reason := ParseJsonString(at.value.1[|ReasonField|..]);
        if reason.None? || !HasPrefix(reason.value.1, ScoreField) then None
        else
          var score := ParseJsonInt(reason.value.1[|ScoreField|..]);
          if score.None? || score.value.1 != "}" then None
          else Some(BlockRecord(at.value.0, reason.value.0, score.value.0))
  }

  lemma PrefixThenRest(p: string, rest: string)
    ensures HasPrefix(p + rest, p) && (p + rest)[|p|..] == rest
  {
    assert (p + rest)[..|p|] == p;
  }

  /** A block entry reads back as written. */
  lemma BlockRoundTrip(b: BlockRecord)
    ensures ParseBlock(BlockText(b)) == Some(b)
  {
    var scoreText := ScoreField + (ShowInt(b.score) + "}");
    var reasonText := ReasonField + (Quote(b.reason) + scoreText);
    PrefixThenRest(BlockedAtField, Quote(b.blockedAt) + reasonText);
    QuoteRoundTrip(b.blockedAt, reasonText);
    PrefixThenRest(ReasonField, Quote(b.reason) + scoreText);
    QuoteRoundTrip(b.reason, scoreText);
    PrefixThenRest(ScoreField, ShowInt(b.score) + "}");
    JsonIntRoundTrip(b.score, "}");
  }

  /** `blockIP`: the entry records the time, the reason and the IP's current score. */
  function AfterBlock(m: Mem, ip: string, reason: string, now: string): (r: Mem)
    ensures forall key :: key != BlockedKey(ip) ==> SameAt(m, r, key)
  {
    Put(m, BlockedKey(ip), BlockText(BlockRecord(now, reason, ScoreIn(m, ip))))
  }

  /** `isBlocked`: the entry is there and not empty. */
  predicate BlockedIn(m: Mem, ip: string)
  {
    Lookup(m, BlockedKey(ip)).Some?
  }

  /** What `getBlockDetails` returns: the parsed entry with its time to live. */
  datatype BlockDetails = BlockDetails(entry: BlockRecord, ttl: int, expiresIn: string)

  /** The memory store tracks no expiry, so `ttl` is always -1. */
  const MemoryTtl := -1

  function ExpiresIn(ttl: int): (r: string)
    ensures ttl <= 0 ==> r == "N/A"
  {
    if ttl > 0 then ShowInt(ttl / 60) + " minutes" else "N/A"
  }

  /** `getBlockDetails`: null when there is no entry or it does not parse. */
  function DetailsIn(m: Mem, ip: string): (r: Option<BlockDetails>)
    ensures r.Some? ==> BlockedIn(m, ip)
  {
    var stored := Lookup(m, BlockedKey(ip));
    if stored.None? then None
    else
      var entry := ParseBlock(stored.value);
      if entry.None? then None
      else Some(BlockDetails(entry.value, MemoryTtl, ExpiresIn(MemoryTtl)))
  }

  /** After `blockIP` the IP is blocked and its details give back the reason and score. */
  lemma BlockThenDetails(m: Mem, ip: string, reason: string, now: string)
    ensures BlockedIn(AfterBlock(m, ip, reason, now), ip)
    ensures DetailsIn(AfterBlock(m, ip, reason, now), ip)
         == Some(BlockDetails(BlockRecord(now, reason, ScoreIn(m, ip)), -1, "N/A"))
    ensures ScoreIn(AfterBlock(m, ip, reason, now), ip) == ScoreIn(m, ip)
  {
    var b := BlockRecord(now, reason, ScoreIn(m, ip));
    BlockRoundTrip(b);
    KeysDistinct(ip, ip);
  }

  // ---------------------------------------------------------------------
  // Raising a score

  /** The increment `SCORE_INCREMENTS` gives an event type. */
  function TableIncrement(eventType: string): Option<int>
  {
    if eventType == "FAILED_CAPTCHA" then Some(25)
    else if eventType == "INVALID_CREDENTIALS" then Some(15)
    else if eventType == "RATE_LIMIT_HIT" then Some(30)
    else if eventType == "SUSPICIOUS_PATTERN" then Some(20)
    else if eventType == "AUTOMATED_BEHAVIOR" then Some(50)
    else None
  }

  /** `incrementAmount || SCORE_INCREMENTS[eventType] || 10`. */
  function IncrementFor(eventType: string, amount: JsNumber): (r: int)
    ensures amount.Some? && amount.value != 0 ==> r == amount.value
    ensures (amount.None? || amount == Some(0)) && TableIncrement(eventType).Some? ==> r == TableIncrement(eventType).value
    ensures (amount.None? || amount == Some(0)) && TableIncrement(eventType).None? ==> r == 10
    ensures r != 0
  {
    OrElse(amount, OrElse(TableIncrement(eventType), 10))
  }

  function ThresholdReason(score: int, threshold: int): string
  {
    "Score exceeded threshold (" + ShowInt(score) + "/" + ShowInt(threshold) + ")"
  }

  /**
   * `incrementScore`: add the increment to the stored counter, log the
   * event, and write a block entry when the new score reaches the
   * threshold. The new score is returned; a counter holding text that is
   * not a number yields NaN and never blocks.
   */
  function AfterIncrement(m: Mem, cfg: Config, ip: string, eventType: string, amount: JsNumber, now: string): (JsNumber, Mem)
  {
    var increment := IncrementFor(eventType, amount);
    var (next, logged) := CountAndLog(m, ip, eventType, increment, now);
    if next.Some? && next.value >= cfg.blockThreshold then
      (next, AfterBlock(logged, ip, ThresholdReason(next.value, cfg.blockThreshold), now))
    else (next, logged)
  }

  /** A score that is missing or was written as `String(s)`. */
  predicate HoldsScore(m: Mem, ip: string, s: int)
  {
    if ScoreKey(ip) in m.values && m.values[ScoreKey(ip)] != "" then m.values[ScoreKey(ip)] == ShowInt(s) else s == 0
  }

  /** The counter and log writes of `incrementScore`, before any block entry. */
  function CountAndLog(m: Mem, ip: string, eventType: string, increment: int, now: string): (JsNumber, Mem)
  {
    var (next, counted) := IncrementBy(m, ScoreKey(ip), increment);
    (next, AfterLog(counted, ip, eventType, increment, next, now))
  }

  lemma CountAndLogEffect(m: Mem, ip: string, eventType: string, increment: int, now: string, s: int)
    requires HoldsScore(m, ip, s)
    ensures var r := CountAndLog(m, ip, eventType, increment, now);
            var logged := r.1;
            && r.0 == Some(s + increment)
            && HoldsScore(logged, ip, s + increment)
            && ScoreIn(logged, ip) == s + increment
            && SameAt(m, logged, BlockedKey(ip))
  {
    var key := ScoreKey(ip);
    KeysDistinct(ip, ip);
    if Lookup(m, key).None? {
      IncrByMissing(m, key, increment);
    } else {
      IncrByCounter(m, key, s, increment);
    }
    var (next, counted) := IncrementBy(m, key, increment);
    var logged := AfterLog(counted, ip, eventType, increment, next, now);
    assert SameAt(counted, logged, key);
    ScoreOfText(logged, ip, s + increment);
  }

  /** Below the threshold no block entry is written. */
  lemma IncrementBelowThreshold(m: Mem, cfg: Config, ip: string, eventType: string, amount: JsNumber, now: string, n: int)
    requires CountAndLog(m, ip, eventType, IncrementFor(eventType, amount), now).0 == Some(n)
    requires n < cfg.blockThreshold
    ensures var logged := CountAndLog(m, ip, eventType, IncrementFor(eventType, amount), now).1;
      var after := AfterIncrement(m, cfg, ip, eventType, amount, now);
      after == (Some(n), logged)
  {
  }

  /** At the threshold the block entry is written over the counter and log writes, with the new score. */
  lemma IncrementAtThreshold(m: Mem, cfg: Config, ip: string, eventType: string, amount: JsNumber, now: string, n: int)
    requires CountAndLog(m, ip, eventType, IncrementFor(eventType, amount), now).0 == Some(n)
    requires n >= cfg.blockThreshold
    ensures var logged := CountAndLog(m, ip, eventType, IncrementFor(eventType, amount), now).1;
      var after := AfterIncrement(m, cfg, ip, eventType, amount, now);
      after == (Some(n), AfterBlock(logged, ip, ThresholdReason(n, cfg.blockThreshold), now))
  {
  }

  /** The block entry `blockIP` writes, over a store whose score reads `n`. */
  lemma BlockEntryWritten(m: Mem, ip: string, reason: string, now: string, n: int)
    requires ScoreIn(m, ip) == n
    ensures var after := AfterBlock(m, ip, reason, now);
      && SameAt(m, after, ScoreKey(ip))
      && BlockedKey(ip) in after.values
      && after.values[BlockedKey(ip)] == BlockText(BlockRecord(now, reason, n))
  {
    KeysDistinct(ip, ip);
  }

  /** `IncrementEffect` once the counter and log writes are known to have produced `n`. */
  lemma IncrementFromCount(m: Mem, cfg: Config, ip: string, eventType: string, amount: JsNumber, now: string, n: int, logged: Mem)
    requires CountAndLog(m, ip, eventType, IncrementFor(eventType, amount), now) == (Some(n), logged)
    requires HoldsScore(logged, ip, n) && ScoreIn(logged, ip) == n && SameAt(m, logged, BlockedKey(ip))
    ensures var r := AfterIncrement(m, cfg, ip, eventType, amount, now);
            var after := r.1;
            && r.0 == Some(n)
            && HoldsScore(after, ip, n)
            && ScoreIn(after, ip) == n
            && (n >= cfg.blockThreshold ==>
                  after.values[BlockedKey(ip)] == BlockText(BlockRecord(now, ThresholdReason(n, cfg.blockThreshold), n)))
            && (n < cfg.blockThreshold ==> SameAt(m, after, BlockedKey(ip)))
  {
    if n >= cfg.blockThreshold {
      IncrementAtThreshold(m, cfg, ip, eventType, amount, now, n);
      var reason := ThresholdReason(n, cfg.blockThreshold);
      BlockEntryWritten(logged, ip, reason, now, n);
      SameScore(logged, AfterBlock(logged, ip, reason, now), ip);
      SameHolds(logged, AfterBlock(logged, ip, reason, now), ip, n);
    } else {
      IncrementBelowThreshold(m, cfg, ip, eventType, amount, now, n);
    }
  }

  /**
   * From a score `s`, the new score is `s` plus the increment, it is what
   * reads back afterwards, and a block entry is written exactly when it
   * reaches the threshold; the block entry is untouched otherwise.
   */
  lemma IncrementEffect(m: Mem, cfg: Config, ip: string, eventType: string, amount: JsNumber, now: string, s: int)
    requires HoldsScore(m, ip, s)
    ensures var inc := IncrementFor(eventType, amount);
            var r := AfterIncrement(m, cfg, ip, eventType, amount, now);
            var after := r.1;
            && r.0 == Some(s + inc)
            && HoldsScore(after, ip, s + inc)
            && ScoreIn(after, ip) == s + inc
            && (s + inc >= cfg.blockThreshold ==>
                  after.values[BlockedKey(ip)]
                  == BlockText(BlockRecord(now, ThresholdReason(s + inc, cfg.blockThreshold), s + inc)))
            && (s + inc < cfg.blockThreshold ==> SameAt(m, after, BlockedKey(ip)))
  {
    var inc := IncrementFor(eventType, amount);
    CountAndLogEffect(m, ip, eventType, inc, now, s);
    var logged := CountAndLog(m, ip, eventType, inc, now).1;
    IncrementFromCount(m, cfg, ip, eventType, amount, now, s + inc, logged);
  }


  /** A score held as `HoldsScore` is what `getScore` reads. */
  lemma ScoreOfHolds(m: Mem, ip: string, s: int)
    requires HoldsScore(m, ip, s)
    ensures ScoreIn(m, ip) == s
  {
    if ScoreKey(ip) in m.values && m.values[ScoreKey(ip)] != "" {
      ScoreOfText(m, ip, s);
    }
  }

  /** After an increment the IP is blocked exactly when it was already, or the new score reaches the threshold. */
  lemma IncrementBlockedIff(m: Mem, cfg: Config, ip: string, eventType: string, amount: JsNumber, now: string, s: int)
    requires HoldsScore(m, ip, s)
    ensures BlockedIn(AfterIncrement(m, cfg, ip, eventType, amount, now).1, ip)
            <==> BlockedIn(m, ip) || s + IncrementFor(eventType, amount) >= cfg.blockThreshold
  {
    var inc := IncrementFor(eventType, amount);
    IncrementEffect(m, cfg, ip, eventType, amount, now, s);
    if s + inc >= cfg.blockThreshold {
      var text := BlockText(BlockRecord(now, ThresholdReason(s + inc, cfg.blockThreshold), s + inc));
      assert text[0] == '{';
    }
  }

  /** The store after `step` is applied `k` times. */
  function Iterate(step: Mem -> Mem, m: Mem, k: nat): Mem
    decreases k
  {
    if k == 0 then m else step(Iterate(step, m, k - 1))
  }

  /**
   * `step` adds `inc` to the score of `ip` and blocks it exactly when it
   * was blocked already or the new score reaches `threshold`.
   */
  ghost predicate CountsTowardBlock(step: Mem -> Mem, ip: string, inc: int, threshold: int)
  {
    forall x: Mem, s: int {:trigger HoldsScore(x, ip, s), step(x)} :: HoldsScore(x, ip, s) ==>
      HoldsScore(step(x), ip, s + inc) && (BlockedIn(step(x), ip) <==> BlockedIn(x, ip) || s + inc >= threshold)
  }

  /**
   * Repeating such a step with a positive increment from a score of 0 and
   * no block gives `k` times the increment, and a block exactly once that
   * reaches a positive threshold.
   */
  lemma {:induction false} RepeatedReports(step: Mem -> Mem, m: Mem, ip: string, inc: int, threshold: int, k: nat)
    requires CountsTowardBlock(step, ip, inc, threshold)
    requires inc > 0 && threshold > 0
    requires HoldsScore(m, ip, 0) && !BlockedIn(m, ip)
    ensures HoldsScore(Iterate(step, m, k), ip, k * inc)
    ensures BlockedIn(Iterate(step, m, k), ip) <==> k * inc >= threshold
    decreases k
  {
    if k > 0 {
      RepeatedReports(step, m, ip, inc, threshold, k - 1);
      var before := Iterate(step, m, k - 1);
      assert HoldsScore(before, ip, (k - 1) * inc);
      assert (k - 1) * inc + inc == k * inc;
    }
  }

  /** One `incrementScore` call for a fixed IP and event, as a step on the store. */
  function Report(cfg: Config, ip: string, eventType: string, amount: JsNumber, now: string): Mem -> Mem
  {
    x => AfterIncrement(x, cfg, ip, eventType, amount, now).1
  }

  /** Each `incrementScore` for one IP and event counts toward its block. */
  lemma IncrementCountsTowardBlock(cfg: Config, ip: string, eventType: string, amount: JsNumber, now: string)
    ensures CountsTowardBlock(Report(cfg, ip, eventType, amount, now), ip,
                              IncrementFor(eventType, amount), cfg.blockThreshold)
  {
    var step := Report(cfg, ip, eventType, amount, now);
    forall x: Mem, s: int | HoldsScore(x, ip, s)
      ensures HoldsScore(step(x), ip, s + IncrementFor(eventType, amount))
      ensures BlockedIn(step(x), ip) <==> BlockedIn(x, ip) || s + IncrementFor(eventType, amount) >= cfg.blockThreshold
    {
      IncrementEffect(x, cfg, ip, eventType, amount, now, s);
      IncrementBlockedIff(x, cfg, ip, eventType, amount, now, s);
    }
  }

  /**
   * A fresh IP reported `k` times for the same event, with a positive
   * increment and threshold, has score `k` times the increment and is
   * blocked exactly once that reaches the threshold.
   */
  lemma RepeatedIncrements(m: Mem, cfg: Config, ip: string, eventType: string, amount: JsNumber, now: string, k: nat)
    requires Lookup(m, ScoreKey(ip)).None? && !BlockedIn(m, ip)
    requires IncrementFor(eventType, amount) > 0 && cfg.blockThreshold > 0
    ensures var after := Iterate(Report(cfg, ip, eventType, amount, now), m, k);
            && ScoreIn(after, ip) == k * IncrementFor(eventType, amount)
            && (BlockedIn(after, ip) <==> k * IncrementFor(eventType, amount) >= cfg.blockThreshold)
  {
    var step := Report(cfg, ip, eventType, amount, now);
    var inc := IncrementFor(eventType, amount);
    IncrementCountsTowardBlock(cfg, ip, eventType, amount, now);
    RepeatedReports(step, m, ip, inc, cfg.blockThreshold, k);
    ScoreOfHolds(Iterate(step, m, k), ip, k * inc);
  }

  /**
   * With the default configuration, a fresh IP that fails `k` captchas has
   * score 25 * k and is blocked exactly from the fourth failure on.
   */
  lemma FailedCaptchasBlockAtFour(m: Mem, ip: string, now: string, k: nat)
    requires Lookup(m, ScoreKey(ip)).None? && !BlockedIn(m, ip)
    ensures var after := Iterate(Report(Defaults, ip, "FAILED_CAPTCHA", None, now), m, k);
            ScoreIn(after, ip) == 25 * k && (BlockedIn(after, ip) <==> k >= 4)
  {
    assert IncrementFor("FAILED_CAPTCHA", None) == 25;
    RepeatedIncrements(m, Defaults, ip, "FAILED_CAPTCHA", None, now, k);
  }




  // ---------------------------------------------------------------------
  // Unblocking and resetting

  /** `unblockIP`: true exactly when a block entry was deleted, which is then logged. */
  function AfterUnblock(m: Mem, ip: string, now: string): (bool, Mem)
  {
    var (deleted, removed) := Remove(m, BlockedKey(ip));
    if deleted > 0 then (true, AfterLog(removed, ip, "MANUAL_UNBLOCK", 0, Some(ScoreIn(removed, ip)), now))
    else (false, removed)
  }

  lemma UnblockEffect(m: Mem, ip: string, now: string)
    requires WellFormed(m)
    ensures AfterUnblock(m, ip, now).0 <==> BlockedKey(ip) in m.values
    ensures !BlockedIn(AfterUnblock(m, ip, now).1, ip)
    ensures ScoreIn(AfterUnblock(m, ip, now).1, ip) == ScoreIn(m, ip)
  {
    KeysDistinct(ip, ip);
    RemoveEffect(m, BlockedKey(ip), ScoreKey(ip));
  }

  /** `resetScore`: delete the score and metadata, log the reset; always true. */
  function AfterReset(m: Mem, ip: string, now: string): Mem
  {
    var withoutScore := Remove(m, ScoreKey(ip)).1;
    var withoutMeta := Remove(withoutScore, MetaKey(ip)).1;
    AfterLog(withoutMeta, ip, "MANUAL_RESET", 0, Some(0), now)
  }

  /** After a reset the score reads 0, and a block entry stays as it was. */
  lemma ResetEffect(m: Mem, ip: string, now: string)
    requires WellFormed(m)
    ensures ScoreIn(AfterReset(m, ip, now), ip) == 0
    ensures SameAt(m, AfterReset(m, ip, now), BlockedKey(ip))
    ensures BlockedIn(AfterReset(m, ip, now), ip) == BlockedIn(m, ip)
  {
    KeysDistinct(ip, ip);
    var withoutScore := Remove(m, ScoreKey(ip)).1;
    RemoveEffect(m, ScoreKey(ip), BlockedKey(ip));
    RemoveEffect(withoutScore, MetaKey(ip), ScoreKey(ip));
  }

  // ---------------------------------------------------------------------
  // The request check

  datatype Decision =
    | Denied(reason: string, score: int, expiresIn: string, ttl: int)
    | Allowed(score: int, threshold: int, warning: Option<string>)

  /** `checkRequest`: a blocked IP is refused with its block reason; others pass, warned above 50. */
  function CheckOf(m: Mem, cfg: Config, ip: string): (r: Decision)
    ensures r.Denied? <==> BlockedIn(m, ip)
    ensures r.score == ScoreIn(m, ip)
    ensures r.Allowed? ==> r.threshold == cfg.blockThreshold && (r.warning.Some? <==> r.score > 50)
  {
    if BlockedIn(m, ip) then
      var details := DetailsIn(m, ip);
      Denied(if details.Some? && details.value.entry.reason != "" then details.value.entry.reason else "IP is blocked",
             ScoreIn(m, ip),
             if details.Some? && details.value.expiresIn != "" then details.value.expiresIn else "N/A",
             if details.Some? then details.value.ttl else 0)
    else
      var score := ScoreIn(m, ip);
      Allowed(score, cfg.blockThreshold, if score > 50 then Some("High fraud score") else None)
  }

  /** An IP blocked by `blockIP` is refused with the reason it was blocked for. */
  lemma BlockedRequestDenied(m: Mem, cfg: Config, ip: string, reason: string, now: string)
    requires reason != ""
    ensures CheckOf(AfterBlock(m, ip, reason, now), cfg, ip)
         == Denied(reason, ScoreIn(m, ip), "N/A", -1)
  {
    BlockThenDetails(m, ip, reason, now);
  }

  // ---------------------------------------------------------------------
  // Listing scores

  datatype ScoreEntry = ScoreEntry(ip: string, score: int, blocked: bool, details: Option<BlockDetails>)

  function EntryOf(m: Mem, key: string): (e: ScoreEntry)
    ensures e.ip == IpOf(key)
  {
    var ip := IpOf(key);
    var stored := Lookup(m, key);
    var score := OrElse(if stored.Some? then ParseInt(stored.value) else None, 0);
    var blocked := BlockedIn(m, ip);
    ScoreEntry(ip, score, blocked, if blocked then DetailsIn(m, ip) else None)
  }

  function EntriesOf(m: Mem, keys: seq<string>): (r: seq<ScoreEntry>)
    ensures |r| == |keys|
    ensures forall i :: 0 <= i < |keys| ==> r[i] == EntryOf(m, keys[i])
  {
    if |keys| == 0 then [] else EntriesOf(m, keys[..|keys| - 1]) + [EntryOf(m, keys[|keys| - 1])]
  }

  predicate Descending(s: seq<ScoreEntry>)
  {
    forall i, j :: 0 <= i < j < |s| ==> s[j].score <= s[i].score
  }

  /** The entries with one score, in their order. */
  function WithScore(s: seq<ScoreEntry>, v: int): seq<ScoreEntry>
  {
    if |s| == 0 then [] else (if s[0].score == v then [s[0]] else []) + WithScore(s[1..], v)
  }

  /** Insert after every entry whose score is at least as high, which keeps the sort stable. */
  function InsertByScore(e: ScoreEntry, s: seq<ScoreEntry>): (r: seq<ScoreEntry>)
    ensures multiset(r) == multiset(s) + multiset{e}
  {
    if |s| == 0 then [e]
    else if s[0].score >= e.score then
      assert s == [s[0]] + s[1..];
      [s[0]] + InsertByScore(e, s[1..])
    else [e] + s
  }

  /** `Array.prototype.sort` with `(a, b) => b.score - a.score`, which is stable. */
  function SortByScore(s: seq<ScoreEntry>): (r: seq<ScoreEntry>)
    ensures multiset(r) == multiset(s)
  {
    if |s| == 0 then []
    else
      assert s == s[..|s| - 1] + [s[|s| - 1]];
      InsertByScore(s[|s| - 1], SortByScore(s[..|s| - 1]))
  }

  lemma {:induction false} InsertDescending(e: ScoreEntry, s: seq<ScoreEntry>)
    requires Descending(s)
    ensures Descending(InsertByScore(e, s))
    decreases |s|
  {
    if |s| > 0 && s[0].score >= e.score {
      var t := InsertByScore(e, s[1..]);
      InsertDescending(e, s[1..]);
      var r := [s[0]] + t;
      forall i, j | 0 <= i < j < |r|
        ensures r[j].score <= r[i].score
      {
        if i == 0 {
          assert r[j] in multiset(t);
          assert r[j] == e || r[j] in multiset(s[1..]);
          if r[j] != e {
            var k :| 0 <= k < |s[1..]| && s[1..][k] == r[j];
            assert s[k + 1] == r[j];
          }
        } else {
          assert r[i] == t[i - 1] && r[j] == t[j - 1];
        }
      }
    }
  }

  lemma {:induction false} WithScoreAppend(a: seq<ScoreEntry>, b: seq<ScoreEntry>, v: int)
    ensures WithScore(a + b, v) == WithScore(a, v) + WithScore(b, v)
    decreases |a|
  {
    if |a| == 0 {
      assert a + b == b;
    } else {
      assert (a + b)[1..] == a[1..] + b;
      WithScoreAppend(a[1..], b, v);
      ConcatAssoc(if a[0].score == v then [a[0]] else [], WithScore(a[1..], v), WithScore(b, v));
    }
  }

  /** In a descending list, no entry has a score above the first one's. */
  lemma {:induction false} NoneAbove(s: seq<ScoreEntry>, v: int)
    requires Descending(s) && |s| > 0 && v > s[0].score
    ensures WithScore(s, v) == []
    decreases |s|
  {
    if |s| > 1 {
      NoneAbove(s[1..], v);
    }
  }

  lemma {:induction false} InsertWithScore(e: ScoreEntry, s: seq<ScoreEntry>, v: int)
    requires Descending(s)
    ensures WithScore(InsertByScore(e, s), v) == WithScore(s, v) + (if e.score == v then [e] else [])
    decreases |s|
  {
    if |s| == 0 {
    } else if s[0].score >= e.score {
      InsertWithScore(e, s[1..], v);
      var head := if s[0].score == v then [s[0]] else [];
      assert ([s[0]] + InsertByScore(e, s[1..]))[1..] == InsertByScore(e, s[1..]);
      ConcatAssoc(head, WithScore(s[1..], v), if e.score == v then [e] else []);
    } else {
      assert ([e] + s)[1..] == s;
      if e.score == v {
        NoneAbove(s, v);
      }
    }
  }

  lemma {:induction false} SortDescending(s: seq<ScoreEntry>)
    ensures Descending(SortByScore(s))
    decreases |s|
  {
    if |s| > 0 {
      SortDescending(s[..|s| - 1]);
      InsertDescending(s[|s| - 1], SortByScore(s[..|s| - 1]));
    }
  }

  /** The entries with score `v`, split off at the last entry. */
  lemma WithScoreLast(s: seq<ScoreEntry>, v: int)
    requires |s| > 0
    ensures WithScore(s, v) == WithScore(s[..|s| - 1], v) + (if s[|s| - 1].score == v then [s[|s| - 1]] else [])
  {
    var last := s[|s| - 1];
    assert s == s[..|s| - 1] + [last];
    WithScoreAppend(s[..|s| - 1], [last], v);
    assert [last][1..] == [];
  }

  /** Sorting one more entry adds it after the sorted entries of its score. */
  lemma SortLast(s: seq<ScoreEntry>, v: int)
    requires |s| > 0
    ensures WithScore(SortByScore(s), v)
            == WithScore(SortByScore(s[..|s| - 1]), v) + (if s[|s| - 1].score == v then [s[|s| - 1]] else [])
  {
    SortDescending(s[..|s| - 1]);
    InsertWithScore(s[|s| - 1], SortByScore(s[..|s| - 1]), v);
  }

  lemma {:induction false} SortStable(s: seq<ScoreEntry>, v: int)
    ensures WithScore(SortByScore(s), v) == WithScore(s, v)
    decreases |s|
  {
    if |s| > 0 {
      SortStable(s[..|s| - 1], v);
      SortLast(s, v);
      WithScoreLast(s, v);
    }
  }


  /**
   * The listing is sorted by score, highest first, holds the same entries,
   * and entries with equal scores keep their order.
   */
  lemma SortByScoreCorrect(s: seq<ScoreEntry>)
    ensures Descending(SortByScore(s))
    ensures multiset(SortByScore(s)) == multiset(s)
    ensures forall v :: WithScore(SortByScore(s), v) == WithScore(s, v)
  {
    SortDescending(s);
    forall v
      ensures WithScore(SortByScore(s), v) == WithScore(s, v)
    {
      SortStable(s, v);
    }
  }

  /** `getAllScores`: an entry per score key, highest score first. */
  function AllScoresOf(m: Mem): seq<ScoreEntry>
  {
    SortByScore(EntriesOf(m, KeysOf(m, ScorePattern)))
  }

  /** Each listed entry is the IP's score and block state as the single-IP reads give them. */
  lemma ListedEntries(m: Mem, key: string)
    requires key in KeysOf(m, ScorePattern)
    ensures EntryOf(m, key).score == ScoreIn(m, IpOf(key))
    ensures EntryOf(m, key).blocked == BlockedIn(m, IpOf(key))
  {
    ScoreKeyOfListed(key);
  }

  datatype BlockedEntry = BlockedEntry(ip: string, score: int, details: Option<BlockDetails>)

  /**
   * The listed entry for a blocked IP: `{ ip, score, ...details }`, so the
   * score recorded in a parsed block entry overrides the current one.
   */
  function BlockedEntryOf(m: Mem, ip: string): (e: BlockedEntry)
    ensures e.ip == ip && e.details == DetailsIn(m, ip)
    ensures e.details.Some? ==> e.score == e.details.value.entry.score
    ensures e.details.None? ==> e.score == ScoreIn(m, ip)
  {
    var details := DetailsIn(m, ip);
    BlockedEntry(ip, if details.Some? then details.value.entry.score else ScoreIn(m, ip), details)
  }

  /** `getAllBlocked`: an entry per block key, in key order. */
  function AllBlockedOf(m: Mem): (r: seq<BlockedEntry>)
    ensures |r| == |KeysOf(m, BlockedPattern)|
    ensures forall i :: 0 <= i < |r| ==>
      r[i] == BlockedEntryOf(m, ReplaceFirst(KeysOf(m, BlockedPattern)[i], BlockedPrefix, ""))
  {
    var keys := KeysOf(m, BlockedPattern);
    seq(|keys|, i requires 0 <= i < |keys| => BlockedEntryOf(m, ReplaceFirst(keys[i], BlockedPrefix, "")))
  }

  /**
   * A freshly blocked IP is listed with the score it had when blocked, even
   * where a later read of its score would differ.
   */
  lemma BlockedListingKeepsBlockScore(m: Mem, ip: string, reason: string, now: string, i: int)
    requires 0 <= i < |AllBlockedOf(AfterBlock(m, ip, reason, now))|
    requires AllBlockedOf(AfterBlock(m, ip, reason, now))[i].ip == ip
    ensures var e := AllBlockedOf(AfterBlock(m, ip, reason, now))[i];
      && e.score == ScoreIn(m, ip)
      && e.details == Some(BlockDetails(BlockRecord(now, reason, ScoreIn(m, ip)), -1, "N/A"))
  {
    BlockThenDetails(m, ip, reason, now);
  }

  // ---------------------------------------------------------------------
  // Statistics

  function SumScores(s: seq<ScoreEntry>): int
  {
    if |s| == 0 then 0 else SumScores(s[..|s| - 1]) + s[|s| - 1].score
  }

  function HighRisk(s: seq<ScoreEntry>): (r: nat)
    ensures r <= |s|
  {
    if |s| == 0 then 0
    else HighRisk(s[..|s| - 1]) + (if s[|s| - 1].score > 50 && !s[|s| - 1].blocked then 1 else 0)
  }

  /** `Math.round(x * 10) / 10`: `Math.round` rounds halves up. */
  function RoundTenth(x: real): (r: real)
    ensures x - 0.05 < r <= x + 0.05
    ensures (r * 10.0).Floor as real == r * 10.0
  {
    (x * 10.0 + 0.5).Floor as real / 10.0
  }

  datatype Stats = Stats(totalIPs: int, activeCount: int, blockedCount: int, highRiskCount: int,
                         averageScore: real, threshold: int, blockTtl: int,
                         redisStatus: Status, timestamp: string)

  /** `getStats`, from the two listings. */
  function StatsFrom(scores: seq<ScoreEntry>, blocked: seq<BlockedEntry>, cfg: Config,
                     status: Status, now: string): (r: Stats)
    ensures r.activeCount == r.totalIPs - r.blockedCount
    ensures r.totalIPs == |scores| && r.blockedCount == |blocked|
    ensures 0 <= r.highRiskCount <= r.totalIPs
    ensures r.totalIPs == 0 ==> r.averageScore == 0.0
    ensures r.totalIPs > 0 ==>
      var mean := SumScores(scores) as real / |scores| as real;
      mean - 0.05 < r.averageScore <= mean + 0.05
  {
    var total := |scores|;
    var mean := if total > 0 then SumScores(scores) as real / total as real else 0.0;
    Stats(total, total - |blocked|, |blocked|, HighRisk(scores), RoundTenth(mean),
          cfg.blockThreshold, cfg.blockTtl, status, now)
  }

  /** The loop in `getStats` that adds up the scores. */
  method Sum(scores: seq<ScoreEntry>) returns (sum: int)
    ensures sum == SumScores(scores)
  {
    sum := 0;
    for i := 0 to |scores|
      invariant sum == SumScores(scores[..i])
    {
      assert scores[..i + 1][..i] == scores[..i];
      sum := sum + scores[i].score;
    }
    assert scores[..|scores|] == scores;
  }

  /** The loop in `getStats` that counts unblocked IPs scoring above 50. */
  method CountHighRisk(scores: seq<ScoreEntry>) returns (count: int)
    ensures count == HighRisk(scores)
  {
    count := 0;
    for i := 0 to |scores|
      invariant count == HighRisk(scores[..i])
    {
      assert scores[..i + 1][..i] == scores[..i];
      if scores[i].score > 50 && !scores[i].blocked {
        count := count + 1;
      }
    }
    assert scores[..|scores|] == scores;
  }

  function StatsOf(m: Mem, cfg: Config, status: Status, now: string): Stats
  {
    StatsFrom(AllScoresOf(m), AllBlockedOf(m), cfg, status, now)
  }

  /** A block entry that is stored is listed by `getAllBlocked`. */
  lemma BlockedKeyListed(m: Mem, ip: string)
    requires BlockedKey(ip) in m.order && SingleLine(ip)
    ensures BlockedKey(ip) in KeysOf(m, BlockedPattern)
  {
    assert "*" != BlockedPattern;
    assert '*' !in BlockedPrefix;
    PrefixStarMatches(BlockedPrefix, BlockedKey(ip));
    assert BlockedKey(ip)[|BlockedPrefix|..] == ip;
    assert GlobMatch(BlockedPattern, BlockedKey(ip));
  }

  /** An event-log key is never listed as a score key. */
  lemma EventKeyNotScore(ip: string)
    ensures !GlobMatch(ScorePattern, EventKey(ip))
  {
    if GlobMatch(ScorePattern, EventKey(ip)) {
      ScoreKeyOfListed(EventKey(ip));
      ScoreKeyNotEvent(EventKey(ip), ip);
    }
  }

  /** A store holding only a block entry and an event log has no score keys. */
  lemma NoScoreKeysListed(m: Mem, ip: string)
    requires forall key :: key in m.order ==> key == BlockedKey(ip) || key == EventKey(ip)
    ensures KeysOf(m, ScorePattern) == []
  {
    BlockedKeyNotScore(ip);
    EventKeyNotScore(ip);
    assert "*" != ScorePattern;
    MatchingNone(m.order, ScorePattern);
  }

  /** A block adds only the block entry's key to the store's keys. */
  lemma KeysAfterBlock(m: Mem, ip: string, reason: string, now: string)
    requires WellFormed(m)
    ensures BlockedKey(ip) in AfterBlock(m, ip, reason, now).order
    ensures forall key :: key in AfterBlock(m, ip, reason, now).order ==> key in m.order || key == BlockedKey(ip)
  {
  }

  /** A reset adds only the event log's key to the store's keys and keeps a block entry's key. */
  lemma KeysAfterReset(m: Mem, ip: string, now: string)
    ensures BlockedKey(ip) in m.order ==> BlockedKey(ip) in AfterReset(m, ip, now).order
    ensures forall key :: key in AfterReset(m, ip, now).order ==> key in m.order || key == EventKey(ip)
  {
    KeysDistinct(ip, ip);
    var withoutScore := Remove(m, ScoreKey(ip)).1;
    var withoutMeta := Remove(withoutScore, MetaKey(ip)).1;
    assert forall key :: key in withoutMeta.order ==> key in m.order;
    assert BlockedKey(ip) in m.order ==> BlockedKey(ip) in withoutMeta.order;
  }


  /**
   * `activeCount` subtracts every block entry, including those of IPs
   * with no score key, so it goes negative once a blocked IP's score has
   * been reset.
   */
  lemma ActiveCountCanGoNegative(cfg: Config, status: Status, ip: string, reason: string, now: string)
    requires SingleLine(ip)
    ensures var m := AfterReset(AfterBlock(Empty, ip, reason, now), ip, now);
            StatsOf(m, cfg, status, now).activeCount < 0
  {
    var m := AfterReset(AfterBlock(Empty, ip, reason, now), ip, now);
    KeysAfterBlock(Empty, ip, reason, now);
    KeysAfterReset(AfterBlock(Empty, ip, reason, now), ip, now);
    BlockedKeyListed(m, ip);
    NoScoreKeysListed(m, ip);
    assert |EntriesOf(m, KeysOf(m, ScorePattern))| == 0;
    assert |AllScoresOf(m)| == 0;
  }


  // ---------------------------------------------------------------------
  // Decay

  /** The score decay gives a positive score: lowered by the amount, never below 0. */
  function Decayed(score: int, amount: int): int
  {
    if score > 0 then (if score - amount > 0 then score - amount else 0) else score
  }

  /** Store a decayed score: 0 deletes the key, any other score is written as text. */
  function WriteDecayed(m: Mem, key: string, next: int): (r: Mem)
    ensures forall other :: other != key ==> SameAt(m, r, other)
    ensures next == 0 ==> key !in r.values
    ensures next != 0 ==> key in r.values && r.values[key] == ShowInt(next)
  {
    if next == 0 then Remove(m, key).1 else Put(m, key, ShowInt(next))
  }

  /** One step of `applyScoreDecay`: whether the key's IP was decayed, and the store after. */
  function DecayKey(m: Mem, cfg: Config, key: string, now: string): (r: (bool, Mem))
    ensures r.0 <==> ScoreIn(m, IpOf(key)) > 0
    ensures forall other :: other != key && other != EventKey(IpOf(key)) ==> SameAt(m, r.1, other)
  {
    var ip := IpOf(key);
    var current := ScoreIn(m, ip);
    if current > 0 then
      var next := Decayed(current, cfg.decayAmount);
      (true, AfterLog(WriteDecayed(m, key, next), ip, "SCORE_DECAY", -cfg.decayAmount, Some(next), now))
    else (false, m)
  }

  /** The two outcomes of one decay step, spelled out for the method that performs it. */
  lemma DecayKeyCases(m: Mem, cfg: Config, key: string, now: string)
    ensures var current := ScoreIn(m, IpOf(key));
            && (current > 0 ==>
                  DecayKey(m, cfg, key, now)
                  == (true, AfterLog(WriteDecayed(m, key, Decayed(current, cfg.decayAmount)), IpOf(key),
                                     "SCORE_DECAY", -cfg.decayAmount, Some(Decayed(current, cfg.decayAmount)), now)))
            && (current <= 0 ==> DecayKey(m, cfg, key, now) == (false, m))
  {
  }

  /** `applyScoreDecay` over a snapshot of the score keys: the count of decayed IPs and the store after. */
  function DecayAll(m: Mem, cfg: Config, keys: seq<string>, now: string): (int, Mem)
  {
    if |keys| == 0 then (0, m)
    else
      var (count, before) := DecayAll(m, cfg, keys[..|keys| - 1], now);
      var (decayed, after) := DecayKey(before, cfg, keys[|keys| - 1], now);
      (count + (if decayed then 1 else 0), after)
  }

  /** The last key's step of the decay walk. */
  lemma DecayAllLast(m: Mem, cfg: Config, keys: seq<string>, now: string)
    requires |keys| > 0
    ensures var before := DecayAll(m, cfg, keys[..|keys| - 1], now);
            var step := DecayKey(before.1, cfg, keys[|keys| - 1], now);
            && DecayAll(m, cfg, keys, now).0 == before.0 + (if step.0 then 1 else 0)
            && DecayAll(m, cfg, keys, now).1 == step.1
  {
  }

  /** The key's IP has its decayed score afterwards, and a positive score decayed to 0 loses its key. */
  ghost predicate DecayedAt(before: Mem, after: Mem, key: string, amount: int)
  {
    var old_score := ScoreIn(before, IpOf(key));
    && ScoreIn(after, IpOf(key)) == Decayed(old_score, amount)
    && (old_score > 0 && Decayed(old_score, amount) == 0 ==> key !in after.values)
  }

  /** Score keys, each listed once. */
  ghost predicate ScoreKeys(keys: seq<string>)
  {
    && Distinct(keys)
    && (forall key :: key in keys ==> HasPrefix(key, ScorePrefix) && ScoreKey(IpOf(key)) == key)
  }

  lemma ScoreKeysInit(keys: seq<string>)
    requires ScoreKeys(keys) && |keys| > 0
    ensures ScoreKeys(keys[..|keys| - 1])
    ensures keys[|keys| - 1] !in keys[..|keys| - 1]
  {
    var init := keys[..|keys| - 1];
    forall i | 0 <= i < |init|
      ensures init[i] != keys[|keys| - 1]
    {
      assert init[i] == keys[i];
    }
  }

  lemma ScoreKeyNotEvent(key: string, ip: string)
    requires HasPrefix(key, ScorePrefix)
    ensures key != EventKey(ip)
  {
    assert key[6] == 's';
    assert EventKey(ip)[6] == 'e';
  }

  /** A decay step gives the key's IP its decayed score. */
  lemma DecayKeyEffect(m: Mem, cfg: Config, key: string, now: string)
    requires HasPrefix(key, ScorePrefix)
    ensures DecayedAt(m, DecayKey(m, cfg, key, now).1, key, cfg.decayAmount)
  {
    var ip := IpOf(key);
    assert ScoreKey(ip) == key by {
      assert ScorePrefix + key[|ScorePrefix|..] == key;
    }
    ScoreKeyNotEvent(key, ip);
    var current := ScoreIn(m, ip);
    if current > 0 {
      var next := Decayed(current, cfg.decayAmount);
      var written := WriteDecayed(m, key, next);
      var after := DecayKey(m, cfg, key, now).1;
      assert SameAt(written, after, key);
      if next != 0 {
        ScoreOfText(written, ip, next);
        SameScore(written, after, ip);
      }
    }
  }

  lemma {:induction false} DecayAllFrame(m: Mem, cfg: Config, keys: seq<string>, now: string, other: string)
    requires other !in keys
    requires forall key :: key in keys ==> other != EventKey(IpOf(key))
    ensures SameAt(m, DecayAll(m, cfg, keys, now).1, other)
    decreases |keys|
  {
    if |keys| > 0 {
      DecayAllFrame(m, cfg, keys[..|keys| - 1], now, other);
    }
  }

  /** A score key's value decides the score read for its IP. */
  lemma SameScore(m1: Mem, m2: Mem, ip: string)
    requires SameAt(m1, m2, ScoreKey(ip))
    ensures ScoreIn(m1, ip) == ScoreIn(m2, ip)
  {
  }

  lemma SameHolds(m1: Mem, m2: Mem, ip: string, s: int)
    requires SameAt(m1, m2, ScoreKey(ip)) && HoldsScore(m1, ip, s)
    ensures HoldsScore(m2, ip, s)
  {
  }


  /** The number of listed IPs whose score is positive. */
  function PositiveCount(m: Mem, keys: seq<string>): nat
  {
    if |keys| == 0 then 0
    else PositiveCount(m, keys[..|keys| - 1]) + (if ScoreIn(m, IpOf(keys[|keys| - 1])) > 0 then 1 else 0)
  }

  /** The decay step for the last key sees that key's score as it was before the decay. */
  lemma DecayLastSeesOriginal(m: Mem, cfg: Config, keys: seq<string>, now: string)
    requires ScoreKeys(keys) && |keys| > 0
    ensures var last := keys[|keys| - 1];
            SameAt(m, DecayAll(m, cfg, keys[..|keys| - 1], now).1, last)
            && ScoreIn(DecayAll(m, cfg, keys[..|keys| - 1], now).1, IpOf(last)) == ScoreIn(m, IpOf(last))
  {
    var init := keys[..|keys| - 1];
    var last := keys[|keys| - 1];
    ScoreKeysInit(keys);
    assert last in keys;
    forall key | key in init
      ensures last != EventKey(IpOf(key))
    {
      ScoreKeyNotEvent(last, IpOf(key));
    }
    DecayAllFrame(m, cfg, init, now, last);
    SameScore(m, DecayAll(m, cfg, init, now).1, IpOf(last));
  }

  /** The count `applyScoreDecay` returns is the number of listed IPs with a positive score. */
  lemma {:induction false} DecayAllCount(m: Mem, cfg: Config, keys: seq<string>, now: string)
    requires ScoreKeys(keys)
    ensures DecayAll(m, cfg, keys, now).0 == PositiveCount(m, keys)
    decreases |keys|
  {
    if |keys| > 0 {
      ScoreKeysInit(keys);
      DecayAllCount(m, cfg, keys[..|keys| - 1], now);
      DecayLastSeesOriginal(m, cfg, keys, now);
    }
  }

  /**
   * Decay lowers each listed IP's positive score by the decay amount,
   * not below 0, and deletes its key when it reaches 0.
   */
  lemma {:induction false} DecayAllEffect(m: Mem, cfg: Config, keys: seq<string>, now: string)
    requires ScoreKeys(keys)
    ensures forall key :: key in keys ==> DecayedAt(m, DecayAll(m, cfg, keys, now).1, key, cfg.decayAmount)
    decreases |keys|
  {
    if |keys| > 0 {
      var init := keys[..|keys| - 1];
      var last := keys[|keys| - 1];
      ScoreKeysInit(keys);
      DecayAllEffect(m, cfg, init, now);
      var before := DecayAll(m, cfg, init, now).1;
      var after := DecayAll(m, cfg, keys, now).1;
      assert after == DecayKey(before, cfg, last, now).1;
      DecayLastSeesOriginal(m, cfg, keys, now);
      assert last in keys;
      DecayKeyEffect(before, cfg, last, now);
      forall key | key in keys
        ensures DecayedAt(m, after, key, cfg.decayAmount)
      {
        if key != last {
          assert key in init;
          ScoreKeyNotEvent(key, IpOf(last));
          assert SameAt(before, after, key);
          SameScore(before, after, IpOf(key));
        }
      }
    }
  }

  // ---------------------------------------------------------------------
  // The manager

  class FraudScoreManager {
    const store: KeyValueStore
    const config: Config

    ghost predicate Valid()
      reads this, store
    {
      store.Valid()
    }

    constructor(store: KeyValueStore, env: Env)
      ensures this.store == store && config == ConfigFrom(env)
    {
      this.store := store;
      config := ConfigFrom(env);
    }

    method GetScore(ip: string) returns (r: int)
      ensures r == ScoreIn(store.Contents(), ip)
    {
      var stored := store.Get(ScoreKey(ip));
      r := OrElse(if stored.Some? then ParseInt(stored.value) else None, 0);
    }

    method LogEvent(ip: string, eventType: string, scoreChange: int, newScore: JsNumber, now: string)
      requires Valid()
      modifies store
      ensures Valid()
      ensures store.Contents() == AfterLog(old(store.Contents()), ip, eventType, scoreChange, newScore, now)
    {
      var _ := store.Set(EventKey(ip), EventText(now, eventType, scoreChange, newScore), 86400);
    }

    method BlockIP(ip: string, reason: string, now: string) returns (r: bool)
      requires Valid()
      modifies store
      ensures Valid() && r
      ensures store.Contents() == AfterBlock(old(store.Contents()), ip, reason, now)
    {
      var score := GetScore(ip);
      var _ := store.Set(BlockedKey(ip), BlockText(BlockRecord(now, reason, score)), config.blockTtl);
      r := true;
    }

    /** The counter update, its expiry and the event log of `incrementScore`. */
    method CountAndLogEvent(ip: string, eventType: string, increment: int, now: string) returns (r: JsNumber)
      requires Valid()
      modifies store
      ensures Valid()
      ensures (r, store.Contents()) == CountAndLog(old(store.Contents()), ip, eventType, increment, now)
    {
      r := store.IncrBy(ScoreKey(ip), increment);
      var _ := store.Expire(ScoreKey(ip), 86400);
      LogEvent(ip, eventType, increment, r, now);
    }

    method IncrementScore(ip: string, eventType: string, amount: JsNumber, now: string) returns (r: JsNumber)
      requires Valid()
      modifies store
      ensures Valid()
      ensures (r, store.Contents()) == AfterIncrement(old(store.Contents()), config, ip, eventType, amount, now)
    {
      var increment := IncrementFor(eventType, amount);
      r := CountAndLogEvent(ip, eventType, increment, now);
      if r.Some? && r.value >= config.blockThreshold {
        var _ := BlockIP(ip, ThresholdReason(r.value, config.blockThreshold), now);
      }
    }

    method IsBlocked(ip: string) returns (r: bool)
      ensures r == BlockedIn(store.Contents(), ip)
    {
      var stored := store.Get(BlockedKey(ip));
      r := stored.Some?;
    }

    method GetBlockDetails(ip: string) returns (r: Option<BlockDetails>)
      ensures r == DetailsIn(store.Contents(), ip)
    {
      var stored := store.Get(BlockedKey(ip));
      if stored.None? {
        return None;
      }
      var entry := ParseBlock(stored.value);
      if entry.None? {
        return None;
      }
      var ttl := store.Ttl(BlockedKey(ip));
      r := Some(BlockDetails(entry.value, ttl, ExpiresIn(ttl)));
    }

    method UnblockIP(ip: string, now: string) returns (r: bool)
      requires Valid()
      modifies store
      ensures Valid()
      ensures (r, store.Contents()) == AfterUnblock(old(store.Contents()), ip, now)
    {
      var deleted := store.Del(BlockedKey(ip));
      if deleted > 0 {
        var score := GetScore(ip);
        LogEvent(ip, "MANUAL_UNBLOCK", 0, Some(score), now);
        return true;
      }
      r := false;
    }

    method ResetScore(ip: string, now: string) returns (r: bool)
      requires Valid()
      modifies store
      ensures Valid() && r
      ensures store.Contents() == AfterReset(old(store.Contents()), ip, now)
    {
      var _ := store.Del(ScoreKey(ip));
      var _ := store.Del(MetaKey(ip));
      LogEvent(ip, "MANUAL_RESET", 0, Some(0), now);
      r := true;
    }

    method GetAllScores() returns (r: seq<ScoreEntry>)
      ensures r == AllScoresOf(store.Contents())
    {
      var keys := store.Keys(ScorePattern);
      var entries: seq<ScoreEntry> := [];
      for i := 0 to |keys|
        invariant entries == EntriesOf(store.Contents(), keys[..i])
      {
        var e := EntryAt(keys[i]);
        assert keys[..i + 1][..i] == keys[..i];
        entries := entries + [e];
      }
      assert keys[..|keys|] == keys;
      r := SortByScore(entries);
    }

    /** One pass of the `getAllScores` loop: the listed entry for a score key. */
    method EntryAt(key: string) returns (e: ScoreEntry)
      ensures e == EntryOf(store.Contents(), key)
    {
      var ip := IpOf(key);
      var stored := store.Get(key);
      var score := OrElse(if stored.Some? then ParseInt(stored.value) else None, 0);
      var blocked := IsBlocked(ip);
      var details := None;
      if blocked {
        details := GetBlockDetails(ip);
      }
      e := ScoreEntry(ip, score, blocked, details);
    }

    method GetAllBlocked() returns (r: seq<BlockedEntry>)
      ensures r == AllBlockedOf(store.Contents())
    {
      var keys := store.Keys(BlockedPattern);
      r := [];
      for i := 0 to |keys|
        invariant |r| == i
        invariant forall j :: 0 <= j < i ==> r[j] == AllBlockedOf(store.Contents())[j]
      {
        var ip := ReplaceFirst(keys[i], BlockedPrefix, "");
        var details := GetBlockDetails(ip);
        var score := GetScore(ip);
        if details.Some? {
          score := details.value.entry.score;
        }
        r := r + [BlockedEntry(ip, score, details)];
      }
    }

    method GetStats(now: string) returns (r: Stats)
      ensures r == StatsOf(store.Contents(), config, StatusOf(store.connected, store.fallbackMode,
                                                              store.connectionAttempts, store.Contents()), now)
    {
      var scores := GetAllScores();
      var blocked := GetAllBlocked();
      var status := store.GetStatus();
      var total := |scores|;
      var mean := 0.0;
      if total > 0 {
        var sum := Sum(scores);
        mean := sum as real / total as real;
      }
      var highRisk := CountHighRisk(scores);
      r := Stats(total, total - |blocked|, |blocked|, highRisk, RoundTenth(mean),
                 config.blockThreshold, config.blockTtl, status, now);
      assert r == StatsFrom(scores, blocked, config, status, now);
    }


    /** One pass of the decay loop: decay the key's IP if its score is positive. */
    method DecayOne(key: string, now: string) returns (decayed: bool)
      requires Valid()
      modifies store
      ensures Valid()
      ensures (decayed, store.Contents()) == DecayKey(old(store.Contents()), config, key, now)
    {
      DecayKeyCases(store.Contents(), config, key, now);
      var ip := IpOf(key);
      var current := GetScore(ip);
      decayed := current > 0;
      if decayed {
        WriteDecayedScore(key, ip, Decayed(current, config.decayAmount), now);
      }
    }

    /** The writes of one decayed IP: its score (deleted at 0) and then its event log. */
    method WriteDecayedScore(key: string, ip: string, next: int, now: string)
      requires Valid()
      modifies store
      ensures Valid()
      ensures store.Contents()
              == AfterLog(WriteDecayed(old(store.Contents()), key, next), ip, "SCORE_DECAY", -config.decayAmount, Some(next), now)
    {
      ghost var m0 := store.Contents();
      WriteScore(key, next);
      ghost var m1 := store.Contents();
      assert m1 == WriteDecayed(m0, key, next);
      LogEvent(ip, "SCORE_DECAY", -config.decayAmount, Some(next), now);
    }

    /** The write of one decayed score: deleted at 0, written as text otherwise. */
    method WriteScore(key: string, next: int)
      requires Valid()
      modifies store
      ensures Valid()
      ensures store.Contents() == WriteDecayed(old(store.Contents()), key, next)
    {
      if next == 0 {
        var _ := store.Del(key);
      } else {
        var _ := store.Set(key, ShowInt(next), 86400);
      }
    }

    /** One pass of the decay loop over a snapshot of keys: the walk so far is extended by key `i`. */
    method DecayNext(ghost m0: Mem, keys: seq<string>, i: nat, count: int, now: string) returns (count': int)
      requires Valid() && i < |keys|
      requires count == DecayAll(m0, config, keys[..i], now).0
      requires store.Contents() == DecayAll(m0, config, keys[..i], now).1
      modifies store
      ensures Valid()
      ensures count' == DecayAll(m0, config, keys[..i + 1], now).0
      ensures store.Contents() == DecayAll(m0, config, keys[..i + 1], now).1
    {
      DecayAllLast(m0, config, keys[..i + 1], now);
      assert keys[..i + 1][..i] == keys[..i];
      var decayed := DecayOne(keys[i], now);
      count' := if decayed then count + 1 else count;
    }

    method ApplyScoreDecay(now: string) returns (count: int)
      requires Valid()
      modifies store
      ensures Valid()
      ensures count == DecayAll(old(store.Contents()), config, old(KeysOf(store.Contents(), ScorePattern)), now).0
      ensures store.Contents() == DecayAll(old(store.Contents()), config, old(KeysOf(store.Contents(), ScorePattern)), now).1
    {
      var keys := store.Keys(ScorePattern);
      ghost var m0 := store.Contents();
      count := 0;
      for i := 0 to |keys|
        invariant Valid()
        invariant count == DecayAll(m0, config, keys[..i], now).0
        invariant store.Contents() == DecayAll(m0, config, keys[..i], now).1
      {
        count := DecayNext(m0, keys, i, count, now);
      }
      assert keys[..|keys|] == keys;
    }


    method CheckRequest(ip: string) returns (r: Decision)
      ensures r == CheckOf(store.Contents(), config, ip)
    {
      var blocked := IsBlocked(ip);
      if blocked {
        var details := GetBlockDetails(ip);
        var score := GetScore(ip);
        r := Denied(if details.Some? && details.value.entry.reason != "" then details.value.entry.reason else "IP is blocked",
                    score,
                    if details.Some? && details.value.expiresIn != "" then details.value.expiresIn else "N/A",
                    if details.Some? then details.value.ttl else 0);
        return;
      }
      var score := GetScore(ip);
      r := Allowed(score, config.blockThreshold, if score > 50 then Some("High fraud score") else None);
    }
  }

  /** The keys `applyScoreDecay` walks are score keys, each listed once. */
  lemma ListedScoreKeys(m: Mem)
    requires WellFormed(m)
    ensures ScoreKeys(KeysOf(m, ScorePattern))
  {
    var keys := KeysOf(m, ScorePattern);
    assert ScorePattern != "*";
    assert keys == Matching(m.order, ScorePattern);
    MatchingDistinct(m.order, ScorePattern);
    forall key | key in keys
      ensures HasPrefix(key, ScorePrefix) && ScoreKey(IpOf(key)) == key
    {
      ScoreKeyOfListed(key);
    }
  }
}

// The in-memory path of the Node service's Redis client: a JavaScript Map
// from keys to string values, kept in insertion order, plus the connection
// flags that decide whether that path is taken. The remote Redis path, TTL
// timers and reconnection are not part of this model.

module MemoryStore {
  import opened Base
  import opened JsText

  /** The store's contents: its keys in insertion order and their values. */
  datatype Mem = Mem(order: seq<string>, values: map<string, string>)

  /** No key is listed twice. */
  ghost predicate Distinct(ks: seq<string>)
  {
    forall i, j :: 0 <= i < j < |ks| ==> ks[i] != ks[j]
  }

  /** Keys are listed once each, and exactly the keys that hold a value are listed. */
  ghost predicate WellFormed(m: Mem)
  {
    && Distinct(m.order)
    && (forall k :: k in m.values <==> k in m.order)
  }

  const Empty := Mem([], map[])

  /** A key holds the same value, or is absent, in both stores. */
  ghost predicate SameAt(m1: Mem, m2: Mem, key: string)
  {
    && (key in m1.values <==> key in m2.values)
    && (key in m1.values ==> m1.values[key] == m2.values[key])
  }

  /** `get`: a missing key and a stored empty string both read as null. */
  function Lookup(m: Mem, k: string): (r: Option<string>)
    ensures r.Some? <==> k in m.values && m.values[k] != ""
    ensures r.Some? ==> r.value == m.values[k]
  {
    if k in m.values && m.values[k] != "" then Some(m.values[k]) else None
  }

  /** `Map.set`: a new key goes to the end of the order, an existing one keeps its place. */
  function Put(m: Mem, k: string, v: string): (r: Mem)
    ensures Lookup(r, k) == (if v == "" then None else Some(v))
    ensures forall other {:trigger Lookup(r, other)} :: other != k ==> Lookup(r, other) == Lookup(m, other)
    ensures k in r.values && r.values[k] == v
    ensures forall other :: other != k ==> SameAt(m, r, other)
  {
    Mem(if k in m.values then m.order else m.order + [k], m.values[k := v])
  }

  function Without(ks: seq<string>, k: string): (r: seq<string>)
    ensures forall x {:trigger x in r} :: x in r <==> x in ks && x != k
  {
    if |ks| == 0 then []
    else (if ks[0] == k then [] else [ks[0]]) + Without(ks[1..], k)
  }

  /** `del`: 1 when the key was present, 0 otherwise, and the store without it. */
  function Remove(m: Mem, k: string): (int, Mem)
  {
    (if k in m.values then 1 else 0, Mem(Without(m.order, k), m.values - {k}))
  }

  /**
   * `incrby`: parse the stored text (a missing or empty value as "0"), add
   * the amount, store its decimal text and return it; a value that does
   * not parse gives NaN, stored as "NaN".
   */
  function IncrementBy(m: Mem, k: string, amount: int): (r: (JsNumber, Mem))
    ensures k in r.1.values && r.1.values[k] == ShowNumber(r.0)
    ensures forall other :: other != k ==> SameAt(m, r.1, other)
  {
    var current := ParseInt(if Lookup(m, k).Some? then Lookup(m, k).value else "0");
    var next := if current.Some? then Some(current.value + amount) else None;
    (next, Put(m, k, ShowNumber(next)))
  }

  /** The characters a regular expression's `.` does not match. */
  predicate IsLineTerminator(c: char)
  {
    c == '\n' || c == '\r' || c == '\U{2028}' || c == '\U{2029}'
  }

  predicate SingleLine(s: string)
  {
    forall i :: 0 <= i < |s| ==> !IsLineTerminator(s[i])
  }

  /**
   * Whether `s` matches the anchored regular expression made from the
   * pattern by writing each `*` as `.*`; other pattern characters are
   * taken literally.
   */
  predicate GlobMatch(p: string, s: string)
    decreases |p| + |s|
  {
    if |p| == 0 then |s| == 0
    else if p[0] == '*' then
      GlobMatch(p[1..], s) || (|s| > 0 && !IsLineTerminator(s[0]) && GlobMatch(p, s[1..]))
    else |s| > 0 && s[0] == p[0] && GlobMatch(p[1..], s[1..])
  }

  /** The keys that match, in their order. */
  function Matching(ks: seq<string>, pattern: string): (r: seq<string>)
    ensures forall k {:trigger k in r} :: k in r <==> k in ks && GlobMatch(pattern, k)
    ensures |r| <= |ks|
  {
    if |ks| == 0 then []
    else
      var last := ks[|ks| - 1];
      Matching(ks[..|ks| - 1], pattern) + (if GlobMatch(pattern, last) then [last] else [])
  }

  /** Filtering a list of distinct keys keeps them distinct. */
  lemma {:induction false} MatchingDistinct(ks: seq<string>, pattern: string)
    requires Distinct(ks)
    ensures Distinct(Matching(ks, pattern))
    decreases |ks|
  {
    if |ks| > 0 {
      var init := ks[..|ks| - 1];
      var last := ks[|ks| - 1];
      MatchingDistinct(init, pattern);
      var front := Matching(init, pattern);
      assert last !in init by {
        forall i | 0 <= i < |init|
          ensures init[i] != last
        {
          assert init[i] == ks[i];
        }
      }
      if GlobMatch(pattern, last) {
        var r := front + [last];
        assert r == Matching(ks, pattern);
        forall i, j | 0 <= i < j < |r|
          ensures r[i] != r[j]
        {
          assert r[i] == front[i] && r[i] in front;
          if j < |front| {
            assert r[j] == front[j];
          }
        }
      }
    }
  }


  /** No key matches, so none is listed. */
  lemma {:induction false} MatchingNone(ks: seq<string>, pattern: string)
    requires forall k :: k in ks ==> !GlobMatch(pattern, k)
    ensures Matching(ks, pattern) == []
    decreases |ks|
  {
    if |ks| > 0 {
      assert ks[|ks| - 1] in ks;
      MatchingNone(ks[..|ks| - 1], pattern);
    }
  }

  /** `keys`: "*" lists every key; any other pattern filters the keys in order. */
  function KeysOf(m: Mem, pattern: string): (r: seq<string>)
    ensures pattern != "*" ==> forall k {:trigger k in r} :: k in r <==> k in m.order && GlobMatch(pattern, k)
  {
    if pattern == "*" then m.order else Matching(m.order, pattern)
  }

  /** The connection status `getStatus` reports. */
  datatype Status = Status(connected: bool, fallbackMode: bool, connectionAttempts: int,
                           mode: string, memoryStoreSize: int)

  function StatusOf(connected: bool, fallbackMode: bool, attempts: int, m: Mem): (r: Status)
    ensures r.mode == "MEMORY" <==> fallbackMode
    ensures r.memoryStoreSize == |m.order|
  {
    Status(connected, fallbackMode, attempts, if fallbackMode then "MEMORY" else "REDIS", |m.order|)
  }

  // ---------------------------------------------------------------------
  // Properties of the operations

  lemma PutKeepsWellFormed(m: Mem, k: string, v: string)
    requires WellFormed(m)
    ensures WellFormed(Put(m, k, v))
    ensures |Put(m, k, v).order| == |m.order| + (if k in m.values then 0 else 1)
  {
    var r := Put(m, k, v);
    if k !in m.values {
      forall i, j | 0 <= i < j < |r.order|
        ensures r.order[i] != r.order[j]
      {
        assert r.order[i] == m.order[i] && r.order[i] in m.order;
      }
    }
  }

  lemma {:induction false} WithoutKeepsDistinct(ks: seq<string>, k: string)
    requires Distinct(ks)
    ensures Distinct(Without(ks, k))
    ensures k in ks ==> |Without(ks, k)| == |ks| - 1
    ensures k !in ks ==> Without(ks, k) == ks
    decreases |ks|
  {
    if |ks| > 0 {
      var tail := ks[1..];
      WithoutKeepsDistinct(tail, k);
      var rest := Without(tail, k);
      var r := Without(ks, k);
      assert ks[0] !in tail by {
        forall i | 0 <= i < |tail|
          ensures tail[i] != ks[0]
        {
          assert tail[i] == ks[i + 1];
        }
      }
      if ks[0] != k {
        assert r == [ks[0]] + rest;
        forall i, j | 0 <= i < j < |r|
          ensures r[i] != r[j]
        {
          assert r[j] == rest[j - 1] && rest[j - 1] in rest;
          if i > 0 {
            assert r[i] == rest[i - 1];
          }
        }
      } else {
        assert r == rest;
        assert k !in tail;
        assert rest == tail;
      }
      if k !in ks {
        assert r == [ks[0]] + tail;
        assert [ks[0]] + tail == ks;
      }
    }
  }


  /** `del` reports whether the key was there and removes only that key. */
  lemma RemoveEffect(m: Mem, k: string, other: string)
    requires WellFormed(m)
    requires other != k
    ensures Remove(m, k).0 == 1 <==> k in m.values
    ensures Remove(m, k).0 == 0 <==> k !in m.values
    ensures Lookup(Remove(m, k).1, k) == None
    ensures Lookup(Remove(m, k).1, other) == Lookup(m, other)
    ensures SameAt(m, Remove(m, k).1, other)
    ensures WellFormed(Remove(m, k).1)
  {
    WithoutKeepsDistinct(m.order, k);
  }

  /** `incrby` on a missing key starts from 0 and stores the decimal text of the result. */
  lemma IncrByMissing(m: Mem, k: string, amount: int)
    requires Lookup(m, k).None?
    ensures IncrementBy(m, k, amount).0 == Some(amount)
  {
    ParseShowInt(0);
    assert ShowInt(0) == "0";
  }

  /** `incrby` on a counter it wrote before adds to it, and the stored text reads back as the sum. */
  lemma IncrByCounter(m: Mem, k: string, n: int, amount: int)
    requires k in m.values && m.values[k] == ShowInt(n)
    ensures IncrementBy(m, k, amount).0 == Some(n + amount)
    ensures ParseInt(IncrementBy(m, k, amount).1.values[k]) == Some(n + amount)
  {
    ParseShowInt(n);
    ParseShowInt(n + amount);
  }

  /** A value that is not a number poisons the counter: NaN is returned and stored. */
  lemma IncrByNotANumber(m: Mem, k: string, amount: int)
    requires k in m.values && m.values[k] == "NaN"
    ensures IncrementBy(m, k, amount).0 == None
    ensures IncrementBy(m, k, amount).1.values[k] == "NaN"
  {
    ParseIntExamples();
  }

  /** A lone `*` matches exactly the single-line strings. */
  lemma {:induction false} StarMatches(s: string)
    ensures GlobMatch("*", s) <==> SingleLine(s)
    decreases |s|
  {
    assert "*"[1..] == "";
    if |s| > 0 {
      StarMatches(s[1..]);
      assert SingleLine(s) <==> !IsLineTerminator(s[0]) && SingleLine(s[1..]) by {
        if !IsLineTerminator(s[0]) && SingleLine(s[1..]) {
          forall i | 0 <= i < |s|
            ensures !IsLineTerminator(s[i])
          {
            if i > 0 {
              assert s[i] == s[1..][i - 1];
            }
          }
        }
      }
    }
  }

  /** A literal prefix then `*` matches the strings with that prefix and a single-line rest. */
  lemma {:induction false} PrefixStarMatches(p: string, s: string)
    requires '*' !in p
    ensures GlobMatch(p + "*", s) <==>
      |p| <= |s| && s[..|p|] == p && SingleLine(s[|p|..])
    decreases |p|
  {
    if |p| == 0 {
      assert p + "*" == "*";
      StarMatches(s);
    } else {
      assert (p + "*")[1..] == p[1..] + "*";
      assert p[0] != '*' by {
        assert p[0] in p;
      }
      if |s| > 0 && s[0] == p[0] {
        PrefixStarMatches(p[1..], s[1..]);
        if |p| <= |s| {
          assert s[1..][..|p| - 1] == s[1..|p|];
          assert s[1..][|p| - 1..] == s[|p|..];
          assert s[..|p|] == [s[0]] + s[1..|p|];
          assert p == [p[0]] + p[1..];
        }
      }
    }
  }

  // ---------------------------------------------------------------------
  // The client

  class KeyValueStore {
    var order: seq<string>
    var values: map<string, string>
    var connected: bool
    var fallbackMode: bool
    var connectionAttempts: int

    function Contents(): Mem
      reads this
    {
      Mem(order, values)
    }

    /** Well-formed contents, and the memory path is the one taken. */
    ghost predicate Valid()
      reads this
    {
      WellFormed(Contents()) && (fallbackMode || !connected)
    }

    constructor()
      ensures Valid()
      ensures Contents() == Empty
      ensures !connected && !fallbackMode && connectionAttempts == 0
    {
      order := [];
      values := map[];
      connected := false;
      fallbackMode := false;
      connectionAttempts := 0;
    }

    /** The `connect` handler counts an attempt. */
    method OnConnect()
      modifies this
      ensures connectionAttempts == old(connectionAttempts) + 1
      ensures Contents() == old(Contents())
      ensures connected == old(connected) && fallbackMode == old(fallbackMode)
    {
      connectionAttempts := connectionAttempts + 1;
    }

    /** The `error` and `close` handlers mark the connection down. */
    method OnConnectionLost()
      requires Valid()
      modifies this
      ensures Valid() && !connected
      ensures Contents() == old(Contents())
      ensures fallbackMode == old(fallbackMode) && connectionAttempts == old(connectionAttempts)
    {
      connected := false;
    }

    /** A failed `connect` and exhausted retries switch to the in-memory fallback. */
    method EnterFallback()
      requires Valid()
      modifies this
      ensures Valid() && fallbackMode
      ensures Contents() == old(Contents())
      ensures connected == old(connected) && connectionAttempts == old(connectionAttempts)
    {
      fallbackMode := true;
    }

    /** `isRedisConnected` is false whenever the memory path is taken. */
    method IsRedisConnected() returns (r: bool)
      requires Valid()
      ensures !r
    {
      r := connected && !fallbackMode;
    }

    method Get(k: string) returns (r: Option<string>)
      ensures r == Lookup(Contents(), k)
    {
      if k in values && values[k] != "" {
        r := Some(values[k]);
      } else {
        r := None;
      }
    }

    /** `set`: the expiry would start a timer, which this model leaves out. */
    method Set(k: string, v: string, expirySeconds: int) returns (r: string)
      requires Valid()
      modifies this
      ensures Valid()
      ensures Contents() == Put(old(Contents()), k, v)
      ensures r == "OK"
      ensures connected == old(connected) && fallbackMode == old(fallbackMode)
      ensures connectionAttempts == old(connectionAttempts)
    {
      ghost var m0 := Contents();
      PutKeepsWellFormed(m0, k, v);
      if k !in values {
        order := order + [k];
      }
      values := values[k := v];
      assert Contents() == Put(m0, k, v);
      r := "OK";
    }

    method IncrBy(k: string, amount: int) returns (r: JsNumber)
      requires Valid()
      modifies this
      ensures Valid()
      ensures (r, Contents()) == IncrementBy(old(Contents()), k, amount)
      ensures connected == old(connected) && fallbackMode == old(fallbackMode)
      ensures connectionAttempts == old(connectionAttempts)
    {
      ghost var m0 := Contents();
      var text := if k in values && values[k] != "" then values[k] else "0";
      assert text == if Lookup(m0, k).Some? then Lookup(m0, k).value else "0";
      var current := ParseInt(text);
      r := if current.Some? then Some(current.value + amount) else None;
      assert r == IncrementBy(m0, k, amount).0;
      var _ := Set(k, ShowNumber(r), 0);
    }

    method Incr(k: string) returns (r: JsNumber)
      requires Valid()
      modifies this
      ensures Valid()
      ensures (r, Contents()) == IncrementBy(old(Contents()), k, 1)
      ensures connected == old(connected) && fallbackMode == old(fallbackMode)
      ensures connectionAttempts == old(connectionAttempts)
    {
      r := IncrBy(k, 1);
    }

    method Del(k: string) returns (r: int)
      requires Valid()
      modifies this
      ensures Valid()
      ensures (r, Contents()) == Remove(old(Contents()), k)
      ensures connected == old(connected) && fallbackMode == old(fallbackMode)
      ensures connectionAttempts == old(connectionAttempts)
    {
      WithoutKeepsDistinct(order, k);
      r := if k in values then 1 else 0;
      order := Without(order, k);
      values := values - {k};
    }

    method Keys(pattern: string) returns (r: seq<string>)
      ensures r == KeysOf(Contents(), pattern)
    {
      if pattern == "*" {
        return order;
      }
      r := [];
      var i := 0;
      while i < |order|
        invariant 0 <= i <= |order|
        invariant r == Matching(order[..i], pattern)
      {
        if GlobMatch(pattern, order[i]) {
          r := r + [order[i]];
        }
        assert order[..i + 1][..i] == order[..i];
        i := i + 1;
      }
      assert order[..|order|] == order;
    }

    /** `expire` would start a timer; the store is unchanged and 1 is returned. */
    method Expire(k: string, seconds: int) returns (r: int)
      ensures r == 1
    {
      r := 1;
    }

    /** No expiry is tracked in memory. */
    method Ttl(k: string) returns (r: int)
      ensures r == -1
    {
      r := -1;
    }

    method MGet(ks: seq<string>) returns (r: seq<Option<string>>)
      ensures |r| == |ks|
      ensures forall i :: 0 <= i < |ks| ==> r[i] == Lookup(Contents(), ks[i])
    {
      r := seq(|ks|, i requires 0 <= i < |ks| reads this => Lookup(Contents(), ks[i]));
    }

    method FlushAll() returns (r: string)
      requires Valid()
      modifies this
      ensures Valid()
      ensures Contents() == Empty && r == "OK"
      ensures connected == old(connected) && fallbackMode == old(fallbackMode)
      ensures connectionAttempts == old(connectionAttempts)
    {
      order := [];
      values := map[];
      r := "OK";
    }

    method GetStatus() returns (r: Status)
      ensures r == StatusOf(connected, fallbackMode, connectionAttempts, Contents())
    {
      r := Status(connected, fallbackMode, connectionAttempts,
                  if fallbackMode then "MEMORY" else "REDIS", |order|);
    }
  }
}

/** The fixed-window limiter (backend/src/lib/rateLimit.ts): buckets in memory, or a
counter in the shared store incremented by INCR and PEXPIRE in one script.

A key of the shared store is gone once its expiry time is reached.
*/
module RateLimit {
  import opened Tables

  type Key = string

  const SWEEP_EVERY_MS: int := 60_000

  datatype Bucket = Bucket(count: int, resetAt: int)

  datatype Result = Result(allowed: bool, retryAfterSeconds: int)

  /** How often a key may be used; a key is always checked under one rule. */
  datatype Rule = Rule(limit: int, windowMs: int)

  datatype Call = Call(key: Key, at: int)

  function CeilSeconds(ms: int): int { Max(1, (ms + 999) / 1000) }

  predicate Open(b: Option<Bucket>, now: int) { b.Some? && b.value.resetAt > now }

  /** One check of a key's own bucket. */
  function Decide(b: Option<Bucket>, rule: Rule, now: int): (Bucket, Result) {
    if !Open(b, now) then (Bucket(1, now + rule.windowMs), Result(true, 0))
    else if b.value.count >= rule.limit then (b.value, Result(false, CeilSeconds(b.value.resetAt - now)))
    else (b.value.(count := b.value.count + 1), Result(true, 0))
  }

  /* ------------------------------------------------------------------ *
   * In memory
   * ------------------------------------------------------------------ */

  datatype Memory = Memory(buckets: map<Key, Bucket>, lastSweep: int)

  function Sweep(m: Memory, now: int): Memory {
    if now - m.lastSweep < SWEEP_EVERY_MS then m
    else Memory(map k | k in m.buckets && m.buckets[k].resetAt > now :: m.buckets[k], now)
  }

  function CheckMemory(m: Memory, k: Key, rule: Rule, now: int): (Memory, Result) {
    var swept := Sweep(m, now);
    var (b, r) := Decide(Lookup(swept.buckets, k), rule, now);
    (swept.(buckets := swept.buckets[k := b]), r)
  }

  const NewMemory := Memory(map[], 0)

  function MemoryFrom(m: Memory, calls: seq<Call>, rules: Key -> Rule): Memory {
    if |calls| == 0 then m
    else
      var c := calls[|calls| - 1];
      CheckMemory(MemoryFrom(m, calls[..|calls| - 1], rules), c.key, rules(c.key), c.at).0
  }

  function AnswerFrom(m: Memory, calls: seq<Call>, i: nat, rules: Key -> Rule): Result
    requires i < |calls|
  {
    CheckMemory(MemoryFrom(m, calls[..i], rules), calls[i].key, rules(calls[i].key), calls[i].at).1
  }

  function MemoryAnswer(calls: seq<Call>, i: nat, rules: Key -> Rule): Result
    requires i < |calls|
  {
    AnswerFrom(NewMemory, calls, i, rules)
  }

  /* ------------------------------------------------------------------ *
   * In the shared store
   * ------------------------------------------------------------------ */

  datatype Counter = Counter(n: int, expireAt: int)

  predicate Counting(c: Option<Counter>, now: int) { c.Some? && c.value.expireAt > now }

  /** INCR, and PEXPIRE on the first. */
  function Increment(c: Option<Counter>, windowMs: int, now: int): Counter {
    if Counting(c, now) then c.value.(n := c.value.n + 1) else Counter(1, now + windowMs)
  }

  function Ttl(c: Counter, now: int): int { if c.expireAt > now then c.expireAt - now else -2 }

  function SharedResult(c: Counter, rule: Rule, now: int): Result {
    if c.n > rule.limit
    then Result(false, CeilSeconds(if Ttl(c, now) > 0 then Ttl(c, now) else rule.windowMs))
    else Result(true, 0)
  }

  function SharedAfter(calls: seq<Call>, k: Key, windowMs: int): Option<Counter> {
    if |calls| == 0 then None
    else
      var before, c := SharedAfter(calls[..|calls| - 1], k, windowMs), calls[|calls| - 1];
      if c.key == k then Some(Increment(before, windowMs, c.at)) else before
  }

  function SharedAnswer(calls: seq<Call>, i: nat, rules: Key -> Rule): Result
    requires i < |calls|
  {
    var k := calls[i].key;
    var c := Increment(SharedAfter(calls[..i], k, rules(k).windowMs), rules(k).windowMs, calls[i].at);
    SharedResult(c, rules(k), calls[i].at)
  }

  /* ------------------------------------------------------------------ *
   * One key, never swept
   * ------------------------------------------------------------------ */

  function BucketAfter(calls: seq<Call>, k: Key, rule: Rule): Option<Bucket> {
    if |calls| == 0 then None
    else
      var before, c := BucketAfter(calls[..|calls| - 1], k, rule), calls[|calls| - 1];
      if c.key == k then Some(Decide(before, rule, c.at).0) else before
  }

  function Answer(calls: seq<Call>, i: nat, rules: Key -> Rule): Result
    requires i < |calls|
  {
    var k := calls[i].key;
    Decide(BucketAfter(calls[..i], k, rules(k)), rules(k), calls[i].at).1
  }

  /** A clock that never runs backwards. */
  ghost predicate Ordered(calls: seq<Call>) {
    forall i, j :: 0 <= i <= j < |calls| ==> calls[i].at <= calls[j].at
  }

  ghost predicate NotBefore(calls: seq<Call>, now: int) {
    forall i :: 0 <= i < |calls| ==> calls[i].at <= now
  }

  /** Swept or not, the open bucket of a key unknown at first is the same, and a closed one
      does not matter. */
  lemma {:induction false} SweptBucketsWereClosed(m: Memory, calls: seq<Call>, rules: Key -> Rule, k: Key, now: int)
    requires k !in m.buckets && Ordered(calls) && NotBefore(calls, now)
    ensures var memory := Lookup(MemoryFrom(m, calls, rules).buckets, k);
            var alone := BucketAfter(calls, k, rules(k));
            (Open(memory, now) <==> Open(alone, now)) && (Open(memory, now) ==> memory == alone)
  {
    if |calls| > 0 {
      var init, c := calls[..|calls| - 1], calls[|calls| - 1];
      SweptBucketsWereClosed(m, init, rules, k, c.at);
    }
  }

  /** Sweeping expired buckets changes no answer, for any keys under any rules. */
  lemma SweepingChangesNoAnswer(calls: seq<Call>, rules: Key -> Rule, i: nat)
    requires Ordered(calls) && i < |calls|
    ensures MemoryAnswer(calls, i, rules) == Answer(calls, i, rules)
  {
    SweptBucketsWereClosed(NewMemory, calls[..i], rules, calls[i].key, calls[i].at);
  }

  function Cleared(m: Memory, keys: set<Key>): Memory { m.(buckets := m.buckets - keys) }

  lemma {:induction false} OthersUncleared(m: Memory, keys: set<Key>, calls: seq<Call>, rules: Key -> Rule, k: Key)
    requires k !in keys
    ensures var cleared, uncleared := MemoryFrom(Cleared(m, keys), calls, rules), MemoryFrom(m, calls, rules);
            cleared.lastSweep == uncleared.lastSweep && Lookup(cleared.buckets, k) == Lookup(uncleared.buckets, k)
  {
    if |calls| > 0 {
      OthersUncleared(m, keys, calls[..|calls| - 1], rules, k);
    }
  }

  /** A cleared key is answered as though it had never been used, whatever it was used for
      before, and every other key as though nothing had been cleared. */
  lemma ClearedKeysStartOver(m: Memory, keys: set<Key>, calls: seq<Call>, rules: Key -> Rule, i: nat)
    requires Ordered(calls) && i < |calls|
    ensures AnswerFrom(Cleared(m, keys), calls, i, rules)
            == if calls[i].key in keys then MemoryAnswer(calls, i, rules) else AnswerFrom(m, calls, i, rules)
  {
    var k := calls[i].key;
    if k in keys {
      SweptBucketsWereClosed(Cleared(m, keys), calls[..i], rules, k, calls[i].at);
      SweepingChangesNoAnswer(calls, rules, i);
    } else {
      OthersUncleared(m, keys, calls[..i], rules, k);
    }
  }

  /** How often a key was used since some moment. */
  function CallsSince(calls: seq<Call>, k: Key, start: int): nat {
    if |calls| == 0 then 0
    else
      var c := calls[|calls| - 1];
      CallsSince(calls[..|calls| - 1], k, start) + if c.key == k && c.at >= start then 1 else 0
  }

  /** A key's last use is before its window closes, and the counter is its uses in the window. */
  ghost predicate CountsTheWindow(calls: seq<Call>, k: Key, windowMs: int, c: Option<Counter>) {
    && (c == None ==> forall i :: 0 <= i < |calls| ==> calls[i].key != k)
    && (c.Some? ==>
          && c.value.n >= 1
          && c.value.n == CallsSince(calls, k, c.value.expireAt - windowMs)
          && (exists i :: 0 <= i < |calls| && calls[i].key == k && calls[i].at == c.value.expireAt - windowMs)
          && forall i :: 0 <= i < |calls| && calls[i].key == k ==> calls[i].at < c.value.expireAt)
  }

  lemma {:induction false} CounterCounts(calls: seq<Call>, k: Key, windowMs: int)
    requires Ordered(calls) && windowMs > 0
    ensures CountsTheWindow(calls, k, windowMs, SharedAfter(calls, k, windowMs))
  {
    if |calls| > 0 {
      var init, c := calls[..|calls| - 1], calls[|calls| - 1];
      CounterCounts(init, k, windowMs);
      var before := SharedAfter(init, k, windowMs);
      if c.key == k && !Counting(before, c.at) {
        NoneOfThisKey(init, k, c.at);
      } else if before.Some? {
        var i :| 0 <= i < |init| && init[i].key == k && init[i].at == before.value.expireAt - windowMs;
        assert calls[i] == init[i];
      }
    }
  }

  /** If every use of a key was before `start`, none is counted from then on. */
  lemma {:induction false} NoneOfThisKey(calls: seq<Call>, k: Key, start: int)
    requires forall i :: 0 <= i < |calls| && calls[i].key == k ==> calls[i].at < start
    ensures CallsSince(calls, k, start) == 0
  {
    if |calls| > 0 {
      NoneOfThisKey(calls[..|calls| - 1], k, start);
    }
  }

  /** The bucket in memory is the counter cut off at the limit. */
  lemma {:induction false} BucketFollowsCounter(calls: seq<Call>, k: Key, rule: Rule)
    requires rule.limit >= 1
    ensures var b, c := BucketAfter(calls, k, rule), SharedAfter(calls, k, rule.windowMs);
            && (b.Some? <==> c.Some?)
            && (b.Some? ==> b.value.resetAt == c.value.expireAt && b.value.count == Min(c.value.n, rule.limit)
                            && c.value.n >= 1)
  {
    if |calls| > 0 {
      BucketFollowsCounter(calls[..|calls| - 1], k, rule);
    }
  }

  /** The two stores give the same answer to every call, to the second, when the limit
      allows anything at all. */
  lemma StoresAgree(calls: seq<Call>, rules: Key -> Rule, i: nat)
    requires Ordered(calls) && i < |calls|
    requires rules(calls[i].key).limit >= 1
    ensures MemoryAnswer(calls, i, rules) == SharedAnswer(calls, i, rules)
  {
    SweepingChangesNoAnswer(calls, rules, i);
    BucketFollowsCounter(calls[..i], calls[i].key, rules(calls[i].key));
  }

  function Always(rule: Rule): Key -> Rule { (k: Key) => rule }

  ghost predicate AgreeOn(calls: seq<Call>, i: nat, rule: Rule) {
    Ordered(calls) && i < |calls| ==> MemoryAnswer(calls, i, Always(rule)) == SharedAnswer(calls, i, Always(rule))
  }

  /** And only then: with a limit below 1 the memory limiter lets the first call of
      every window through and the shared store lets none. */
  lemma StoresAgreeIffLimitPositive(rule: Rule)
    ensures (forall calls, i: nat :: AgreeOn(calls, i, rule)) <==> rule.limit >= 1
  {
    if rule.limit >= 1 {
      forall calls, i: nat ensures AgreeOn(calls, i, rule) {
        if Ordered(calls) && i < |calls| {
          StoresAgree(calls, Always(rule), i);
        }
      }
    } else {
      var calls := [Call("", 0)];
      assert calls[..0] == [];
      assert !AgreeOn(calls, 0, rule);
    }
  }

  /* ------------------------------------------------------------------ *
   * What is allowed
   * ------------------------------------------------------------------ */

  /** When the key's last window began: at its first use, and then at its first use once the
      window before is over. */
  function WindowStart(calls: seq<Call>, k: Key, windowMs: int): Option<int> {
    if |calls| == 0 then None
    else
      var c := calls[|calls| - 1];
      var before := WindowStart(calls[..|calls| - 1], k, windowMs);
      if c.key == k && (before.Some? ==> before.value + windowMs <= c.at) then Some(c.at) else before
  }

  lemma {:induction false} BucketIsWindow(calls: seq<Call>, k: Key, rule: Rule)
    ensures var b, start := BucketAfter(calls, k, rule), WindowStart(calls, k, rule.windowMs);
            (b.Some? <==> start.Some?) && (b.Some? ==> b.value.resetAt == start.value + rule.windowMs)
  {
    if |calls| > 0 {
      BucketIsWindow(calls[..|calls| - 1], k, rule);
    }
  }

  /** Each window allows exactly its first `limit` calls, and a refused call is told, in whole
      seconds rounded up, how long the window still lasts. */
  lemma FirstCallsOfTheWindow(calls: seq<Call>, rules: Key -> Rule, i: nat)
    requires Ordered(calls) && i < |calls|
    requires rules(calls[i].key).limit >= 1 && rules(calls[i].key).windowMs > 0
    ensures var k, rule, now := calls[i].key, rules(calls[i].key), calls[i].at;
            var start, r := WindowStart(calls[..i], k, rule.windowMs), MemoryAnswer(calls, i, rules);
            var open := start.Some? && now < start.value + rule.windowMs;
            && (r.allowed <==> !open || CallsSince(calls[..i], k, start.value) < rule.limit)
            && (r.allowed ==> r.retryAfterSeconds == 0)
            && (!r.allowed ==>
                  1000 * (r.retryAfterSeconds - 1) < start.value + rule.windowMs - now <= 1000 * r.retryAfterSeconds)
  {
    var k, rule := calls[i].key, rules(calls[i].key);
    SweepingChangesNoAnswer(calls, rules, i);
    BucketFollowsCounter(calls[..i], k, rule);
    BucketIsWindow(calls[..i], k, rule);
    CounterCounts(calls[..i], k, rule.windowMs);
  }

  /** How many calls of a key the memory limiter allowed inside [from, until). */
  function AllowedWithin(calls: seq<Call>, k: Key, rules: Key -> Rule, from: int, until: int): nat {
    if |calls| == 0 then 0
    else
      var last := |calls| - 1;
      AllowedWithin(calls[..last], k, rules, from, until)
      + if calls[last].key == k && from <= calls[last].at < until && MemoryAnswer(calls, last, rules).allowed
        then 1 else 0
  }

  /** What an interval can have seen so far, by where the current bucket began. */
  ghost predicate Bounded(b: Option<Bucket>, rule: Rule, from: int, seen: nat) {
    match b
    case None => seen == 0
    case Some(bucket) =>
      var start := bucket.resetAt - rule.windowMs;
      && 1 <= bucket.count <= rule.limit
      && (start < from ==> seen <= bucket.count)
      && (from <= start < from + rule.windowMs ==> seen <= rule.limit + bucket.count)
      && seen <= 2 * rule.limit
  }

  lemma {:induction false} NothingSeenBefore(calls: seq<Call>, k: Key, rules: Key -> Rule, from: int, until: int)
    requires forall i :: 0 <= i < |calls| ==> calls[i].at < from
    ensures AllowedWithin(calls, k, rules, from, until) == 0
  {
    if |calls| > 0 {
      NothingSeenBefore(calls[..|calls| - 1], k, rules, from, until);
    }
  }

  /** A bucket starts no later than the last call. */
  lemma {:induction false} BucketsStartInThePast(calls: seq<Call>, k: Key, rule: Rule, now: int)
    requires Ordered(calls) && NotBefore(calls, now)
    ensures var b := BucketAfter(calls, k, rule); b.Some? ==> b.value.resetAt - rule.windowMs <= now
  {
    if |calls| > 0 {
      BucketsStartInThePast(calls[..|calls| - 1], k, rule, now);
    }
  }

  lemma {:induction false} IntervalIsBounded(calls: seq<Call>, k: Key, rules: Key -> Rule, from: int)
    requires Ordered(calls) && rules(k).limit >= 1
    ensures Bounded(BucketAfter(calls, k, rules(k)), rules(k), from,
                    AllowedWithin(calls, k, rules, from, from + rules(k).windowMs))
  {
    if |calls| > 0 {
      var last, rule := |calls| - 1, rules(k);
      var init, c := calls[..last], calls[last];
      IntervalIsBounded(init, k, rules, from);
      if c.key == k {
        SweepingChangesNoAnswer(calls, rules, last);
        if c.at < from {
          NothingSeenBefore(init, k, rules, from, from + rule.windowMs);
        }
        BucketsStartInThePast(init, k, rule, c.at);
      }
    }
  }

  /** However calls fall across the edges of windows, no interval as long as a window
      lets more than twice the limit through. */
  lemma AtMostTwiceTheLimit(calls: seq<Call>, k: Key, rules: Key -> Rule, from: int)
    requires Ordered(calls) && rules(k).limit >= 1
    ensures AllowedWithin(calls, k, rules, from, from + rules(k).windowMs) <= 2 * rules(k).limit
  {
    IntervalIsBounded(calls, k, rules, from);
  }

  /** A refused caller who waits as long as it was told, and is alone, gets through; one
      whole second less would not have been enough. */
  lemma RetryAfterSuffices(calls: seq<Call>, k: Key, rule: Rule, now: int, later: int)
    requires Ordered(calls) && NotBefore(calls, now) && rule.limit >= 1
    requires var (b, r) := Decide(BucketAfter(calls, k, rule), rule, now); !r.allowed
    ensures var (b, r) := Decide(BucketAfter(calls, k, rule), rule, now);
            && (later >= now + 1000 * r.retryAfterSeconds ==> Decide(Some(b), rule, later).1.allowed)
            && (later <= now + 1000 * (r.retryAfterSeconds - 1) ==> !Decide(Some(b), rule, later).1.allowed)
  {
    BucketFollowsCounter(calls, k, rule);
  }

  /* ------------------------------------------------------------------ *
   * The limiter as it runs
   * ------------------------------------------------------------------ */

  datatype Store = NotConfigured | Reachable | Unreachable

  class Limiter {
    var buckets: map<Key, Bucket>
    var lastSweep: int
    var shared: map<Key, Counter>

    constructor ()
      ensures Memory(buckets, lastSweep) == NewMemory && shared == map[]
    {
      buckets, lastSweep, shared := map[], 0, map[];
    }

    method SweepBuckets(now: int)
      modifies this`buckets, this`lastSweep
      ensures Memory(buckets, lastSweep) == Sweep(Memory(old(buckets), old(lastSweep)), now)
    {
      if now - lastSweep < SWEEP_EVERY_MS { return; }
      lastSweep := now;
      ghost var before := buckets;
      var left := buckets.Keys;
      while left != {}
        invariant left <= before.Keys && lastSweep == now
        invariant buckets == map k | k in before && (k in left || before[k].resetAt > now) :: before[k]
        decreases |left|
      {
        var k :| k in left;
        if buckets[k].resetAt <= now { buckets := buckets - {k}; }
        left := left - {k};
      }
      assert buckets == Sweep(Memory(before, old(lastSweep)), now).buckets;
    }

    method CheckInMemory(k: Key, rule: Rule, now: int) returns (r: Result)
      modifies this`buckets, this`lastSweep
      ensures (Memory(buckets, lastSweep), r) == CheckMemory(Memory(old(buckets), old(lastSweep)), k, rule, now)
    {
      SweepBuckets(now);
      if k !in buckets || buckets[k].resetAt <= now {
        buckets := buckets[k := Bucket(1, now + rule.windowMs)];
        return Result(true, 0);
      }
      var bucket := buckets[k];
      if bucket.count >= rule.limit {
        assert buckets[k := bucket] == buckets;
        return Result(false, CeilSeconds(bucket.resetAt - now));
      }
      buckets := buckets[k := bucket.(count := bucket.count + 1)];
      return Result(true, 0);
    }

    /** The script: one round trip. */
    method IncrAndExpire(k: Key, windowMs: int, now: int) returns (n: int, ttl: int)
      modifies this`shared
      ensures var c := Increment(Lookup(old(shared), k), windowMs, now);
              shared == old(shared)[k := c] && n == c.n && ttl == Ttl(c, now)
    {
      var alive := k in shared && shared[k].expireAt > now;
      n := if alive then shared[k].n + 1 else 1;
      var expireAt := if alive then shared[k].expireAt else now + windowMs;
      shared := shared[k := Counter(n, expireAt)];
      ttl := if expireAt > now then expireAt - now else -2;
    }

    method CheckRateLimit(k: Key, rule: Rule, failClosed: bool, store: Store, now: int) returns (r: Result)
      modifies this
      ensures match store {
                case NotConfigured =>
                  && (Memory(buckets, lastSweep), r) == CheckMemory(Memory(old(buckets), old(lastSweep)), k, rule, now)
                  && shared == old(shared)
                case Reachable =>
                  var c := Increment(Lookup(old(shared), k), rule.windowMs, now);
                  && shared == old(shared)[k := c] && r == SharedResult(c, rule, now)
                  && buckets == old(buckets) && lastSweep == old(lastSweep)
                case Unreachable =>
                  && r == (if failClosed then Result(false, 30) else Result(true, 0))
                  && shared == old(shared) && buckets == old(buckets) && lastSweep == old(lastSweep)
              }
    {
      match store
      case NotConfigured => r := CheckInMemory(k, rule, now);
      case Reachable =>
        var count, ttlMs := IncrAndExpire(k, rule.windowMs, now);
        if count > rule.limit {
          return Result(false, CeilSeconds(if ttlMs > 0 then ttlMs else rule.windowMs));
        }
        return Result(true, 0);
      case Unreachable =>
        return if failClosed then Result(false, 30) else Result(true, 0);
    }

    /** Forgets counters as though their windows had never started. */
    method ClearRateLimit(keys: set<Key>, store: Store)
      modifies this
      ensures var before := Memory(old(buckets), old(lastSweep));
              Memory(buckets, lastSweep) == if store == NotConfigured then Cleared(before, keys) else before
      ensures shared == if store == Reachable then old(shared) - keys else old(shared)
    {
      if store == NotConfigured {
        buckets := buckets - keys;
      } else if store == Reachable {
        shared := shared - keys;
      }
    }
  }
}

/** The read-through cache (backend/src/lib/cache.ts) over a store of keys that expire.
A key is gone once its expiry time is reached, and the store refuses an expiry of zero
or less, so such a write leaves nothing behind.
*/
module Cache {
  import opened Tables

  type Key = string

  const LOCK_TTL_MS: int := 10_000

  datatype Options = Options(staleSeconds: Option<int>, negativeTtlSeconds: Option<int>)

  /** How one call asks for its key to be cached: the TTL and the options it passes. */
  datatype Rule = Rule(ttlSeconds: int, opts: Options)

  /** A cached `null` is `None`. `softExpiry` is the envelope's own, `expireAt` the key's;
      `writtenAt` is history. */
  datatype Entry<V> = Entry(value: Option<V>, softExpiry: int, expireAt: int, writtenAt: int)

  function TtlFor<V>(value: Option<V>, rule: Rule): int {
    if value.Some? then rule.ttlSeconds else OrElse(rule.opts.negativeTtlSeconds, Min(rule.ttlSeconds, 15))
  }

  /** Derived from the TTL actually being written, not from the nominal one. */
  function StaleFor(liveSeconds: int, rule: Rule): int { OrElse(rule.opts.staleSeconds, Min(liveSeconds, 60)) }

  /** How long the key of this value is kept, in seconds. */
  function KeptFor<V>(value: Option<V>, rule: Rule): int {
    TtlFor(value, rule) + StaleFor(TtlFor(value, rule), rule)
  }

  function NewEntry<V>(value: Option<V>, rule: Rule, now: int): Entry<V> {
    Entry(value, now + TtlFor(value, rule) * 1000, now + KeptFor(value, rule) * 1000, now)
  }

  function Put<V>(store: map<Key, Entry<V>>, k: Key, value: Option<V>, rule: Rule, now: int): map<Key, Entry<V>> {
    if KeptFor(value, rule) > 0 then store[k := NewEntry(value, rule, now)] else store
  }

  /** What a GET finds. */
  function Stored<V>(store: map<Key, Entry<V>>, k: Key, now: int): Option<Entry<V>> {
    if k in store && store[k].expireAt > now then Some(store[k]) else None
  }

  /* ------------------------------------------------------------------ *
   * Every run of `cached`, with refreshes in the background
   * ------------------------------------------------------------------ */

  datatype Write<V> = Write(key: Key, value: Option<V>, rule: Rule, at: int)

  /** An answer given from the store; `stale` if it was past its soft expiry. */
  datatype Serving<V> = Serving(key: Key, value: Option<V>, at: int, stale: bool)

  /** A caller or a background refresh that is loading `key`, under its own rule. */
  datatype Load<V> = Load(key: Key, rule: Rule, background: bool, value: Option<Option<V>>, done: bool)

  /** `writes` and `servings` are history. */
  datatype State<V> = State(
    store: map<Key, Entry<V>>,
    locks: map<Key, int>,
    loads: seq<Load<V>>,
    writes: seq<Write<V>>,
    servings: seq<Serving<V>>,
    now: int)

  datatype Step<V> =
    | Read(key: Key, rule: Rule)
    | LoadReturns(load: nat, value: Option<V>)
    | WriteBack(load: nat)
    | ReleaseLock(load: nat)
    | Invalidate(key: Key)
    | Tick(ms: nat)

  function LockFree(locks: map<Key, int>, k: Key, now: int): bool { k !in locks || locks[k] <= now }

  /** One call of `cached` up to its first wait: a hit is served, and the one caller that
      finds it stale and takes the lock starts a refresh; a miss starts a load. */
  function ReadKey<V>(s: State<V>, k: Key, rule: Rule): State<V> {
    match Stored(s.store, k, s.now)
    case None => s.(loads := s.loads + [Load(k, rule, false, None, false)])
    case Some(hit) =>
      var stale := hit.softExpiry <= s.now;
      var served := s.(servings := s.servings + [Serving(k, hit.value, s.now, stale)]);
      if stale && LockFree(s.locks, k, s.now)
      then served.(locks := s.locks[k := s.now + LOCK_TTL_MS], loads := s.loads + [Load(k, rule, true, None, false)])
      else served
  }

  function WriteLoaded<V>(s: State<V>, k: Key, value: Option<V>, rule: Rule): State<V> {
    s.(store := Put(s.store, k, value, rule, s.now),
       writes := if KeptFor(value, rule) > 0 then s.writes + [Write(k, value, rule, s.now)] else s.writes)
  }

  function Do<V>(s: State<V>, step: Step<V>): State<V> {
    match step
    case Read(k, rule) => ReadKey(s, k, rule)
    case LoadReturns(i, value) =>
      if i < |s.loads| && s.loads[i].value == None
      then s.(loads := s.loads[i := s.loads[i].(value := Some(value))]) else s
    case WriteBack(i) =>
      if i < |s.loads| && s.loads[i].value.Some? && !s.loads[i].done
      then WriteLoaded(s, s.loads[i].key, s.loads[i].value.value, s.loads[i].rule)
             .(loads := s.loads[i := s.loads[i].(done := true)])
      else s
    case ReleaseLock(i) =>
      if i < |s.loads| && s.loads[i].background then s.(locks := s.locks - {s.loads[i].key}) else s
    case Invalidate(k) => s.(store := s.store - {k})
    case Tick(ms) => s.(now := s.now + ms)
  }

  function Run<V>(steps: seq<Step<V>>): State<V> {
    if |steps| == 0 then State(map[], map[], [], [], [], 0)
    else Do(Run(steps[..|steps| - 1]), steps[|steps| - 1])
  }

  /** An entry is exactly what this write made of its value. */
  ghost predicate MadeBy<V>(w: Write<V>, k: Key, e: Entry<V>) {
    w.key == k && e == NewEntry(w.value, w.rule, w.at)
  }

  /** This write made what was served: not yet as long ago as it had its key kept, and the
      answer is called stale exactly when the TTL it was written with had run out. */
  ghost predicate ServedFrom<V>(w: Write<V>, v: Serving<V>) {
    && w.key == v.key && w.value == v.value
    && w.at <= v.at < w.at + KeptFor(w.value, w.rule) * 1000
    && (v.stale <==> w.at + TtlFor(w.value, w.rule) * 1000 <= v.at)
  }

  /** What the store has of a key, and what was served of it since some moment, was written
      from the write numbered `from` on. */
  ghost predicate Traced<V>(s: State<V>, k: Key, from: nat, since: nat) {
    && (k in s.store ==>
          exists w :: from <= w < |s.writes| && MadeBy(s.writes[w], k, s.store[k]) && s.writes[w].at <= s.now)
    && (forall i :: since <= i < |s.servings| && s.servings[i].key == k ==>
          exists w :: from <= w < |s.writes| && ServedFrom(s.writes[w], s.servings[i]))
  }

  lemma WriteKeepsTrace<V>(s: State<V>, q: Key, value: Option<V>, rule: Rule, k: Key, from: nat, since: nat)
    requires Traced(s, k, from, since) && from <= |s.writes|
    ensures Traced(WriteLoaded(s, q, value, rule), k, from, since)
  {
    var s' := WriteLoaded(s, q, value, rule);
    if k in s'.store {
      if q == k && KeptFor(value, rule) > 0 {
        assert MadeBy(s'.writes[|s.writes|], k, s'.store[k]);
      } else {
        var w :| from <= w < |s.writes| && MadeBy(s.writes[w], k, s.store[k]) && s.writes[w].at <= s.now;
        assert s'.writes[w] == s.writes[w];
      }
    }
    forall i | since <= i < |s'.servings| && s'.servings[i].key == k
      ensures exists w :: from <= w < |s'.writes| && ServedFrom(s'.writes[w], s'.servings[i])
    {
      var w :| from <= w < |s.writes| && ServedFrom(s.writes[w], s.servings[i]);
      assert s'.writes[w] == s.writes[w];
    }
  }

  lemma ReadKeepsTrace<V>(s: State<V>, q: Key, rule: Rule, k: Key, from: nat, since: nat)
    requires Traced(s, k, from, since)
    ensures Traced(ReadKey(s, q, rule), k, from, since)
  {
    if q == k && Stored(s.store, k, s.now).Some? {
      var hit := s.store[k];
      var w :| from <= w < |s.writes| && MadeBy(s.writes[w], k, hit) && s.writes[w].at <= s.now;
      assert ServedFrom(s.writes[w], Serving(k, hit.value, s.now, hit.softExpiry <= s.now));
    }
  }

  lemma StepKeepsTrace<V>(s: State<V>, step: Step<V>, k: Key, from: nat, since: nat)
    requires Traced(s, k, from, since) && from <= |s.writes|
    ensures Traced(Do(s, step), k, from, since) && from <= |Do(s, step).writes|
  {
    match step {
      case Read(q, rule) => ReadKeepsTrace(s, q, rule, k, from, since);
      case WriteBack(i) =>
        if i < |s.loads| && s.loads[i].value.Some? {
          WriteKeepsTrace(s, s.loads[i].key, s.loads[i].value.value, s.loads[i].rule, k, from, since);
        }
      case _ =>
    }
  }

  lemma RunOneMore<V>(steps: seq<Step<V>>, step: Step<V>)
    ensures Run(steps + [step]) == Do(Run(steps), step)
  {
    assert (steps + [step])[..|steps|] == steps;
  }

  lemma {:induction false} RunKeepsTrace<V>(steps: seq<Step<V>>, more: seq<Step<V>>, k: Key, from: nat, since: nat)
    requires Traced(Run(steps), k, from, since) && from <= |Run(steps).writes|
    ensures Traced(Run(steps + more), k, from, since) && from <= |Run(steps + more).writes|
  {
    if |more| == 0 {
      assert steps + more == steps;
    } else {
      var init, last := more[..|more| - 1], more[|more| - 1];
      RunKeepsTrace(steps, init, k, from, since);
      LastStep(steps, more);
      RunOneMore(steps + init, last);
      StepKeepsTrace(Run(steps + init), last, k, from, since);
    }
  }

  /** In the seconds the writer chose: a present value lives `ttlSeconds`, an absence
      `negativeTtlSeconds` if that was given and else at most fifteen seconds; and it may be
      served stale for `staleSeconds` if that was given and else as long again, at most a minute. */
  ghost predicate KeptSeconds<V>(value: Option<V>, rule: Rule, live: int, stale: int) {
    && live == (if value.Some? then rule.ttlSeconds
                else if rule.opts.negativeTtlSeconds.Some? then rule.opts.negativeTtlSeconds.value
                else if rule.ttlSeconds < 15 then rule.ttlSeconds else 15)
    && stale == (if rule.opts.staleSeconds.Some? then rule.opts.staleSeconds.value
                 else if live < 60 then live else 60)
  }

  lemma ServedInSeconds<V>(w: Write<V>, v: Serving<V>)
    requires ServedFrom(w, v)
    ensures exists live, stale :: && KeptSeconds(w.value, w.rule, live, stale)
                                  && w.at <= v.at < w.at + 1000 * (live + stale)
                                  && (v.stale <==> w.at + 1000 * live <= v.at)
  {
    assert KeptSeconds(w.value, w.rule, TtlFor(w.value, w.rule), StaleFor(TtlFor(w.value, w.rule), w.rule));
  }

  /** Whatever is refreshed in the background, invalidated or raced, and whatever TTL and
      options each caller passes: a value served from the store was written less than its live
      and stale seconds before, both following the TTL it was written with. */
  lemma StalenessIsBounded<V>(steps: seq<Step<V>>, i: nat)
    requires i < |Run(steps).servings|
    ensures var v, writes := Run(steps).servings[i], Run(steps).writes;
            exists w, live, stale ::
              && 0 <= w < |writes| && writes[w].key == v.key && writes[w].value == v.value
              && KeptSeconds(v.value, writes[w].rule, live, stale)
              && writes[w].at <= v.at < writes[w].at + 1000 * (live + stale)
              && (v.stale <==> writes[w].at + 1000 * live <= v.at)
  {
    assert [] + steps == steps;
    var v, writes := Run(steps).servings[i], Run(steps).writes;
    RunKeepsTrace([], steps, v.key, 0, 0);
    var w :| 0 <= w < |writes| && ServedFrom(writes[w], v);
    ServedInSeconds(writes[w], v);
  }

  /** Written with default options, a cached absence is believed for less than thirty seconds. */
  lemma AbsenceIsForgotten<V>(w: Write<V>, v: Serving<V>)
    requires ServedFrom(w, v) && v.value == None && w.rule.opts == Options(None, None)
    ensures w.at <= v.at < w.at + 30_000
  {
    ServedInSeconds(w, v);
  }

  /** What the store holds of a key after this write. */
  ghost predicate HoldsWrite<V>(s: State<V>, k: Key, value: Option<V>, live: int, stale: int, at: int) {
    k in s.store && s.store[k] == Entry(value, at + 1000 * live, at + 1000 * (live + stale), at)
  }

  lemma StepKeepsWrite<V>(s: State<V>, step: Step<V>, k: Key, value: Option<V>, live: int, stale: int, at: int)
    requires HoldsWrite(s, k, value, live, stale, at) && step != Invalidate(k)
    requires forall w :: |s.writes| <= w < |Do(s, step).writes| ==> Do(s, step).writes[w].key != k
    ensures HoldsWrite(Do(s, step), k, value, live, stale, at) && s.writes <= Do(s, step).writes
  {
    if step.WriteBack? && Do(s, step).writes != s.writes {
      assert Do(s, step).writes[|s.writes|].key == s.loads[step.load].key;
    }
  }

  lemma {:induction false} WriteStays<V>(
      steps: seq<Step<V>>, more: seq<Step<V>>, k: Key, value: Option<V>, live: int, stale: int, at: int)
    requires HoldsWrite(Run(steps), k, value, live, stale, at) && Invalidate(k) !in more
    requires Run(steps).writes <= Run(steps + more).writes
    requires forall w :: |Run(steps).writes| <= w < |Run(steps + more).writes| ==> Run(steps + more).writes[w].key != k
    ensures HoldsWrite(Run(steps + more), k, value, live, stale, at)
  {
    if |more| == 0 {
      assert steps + more == steps;
    } else {
      var init, last := more[..|more| - 1], more[|more| - 1];
      LastStep(steps, more);
      RunOneMore(steps + init, last);
      RunGrows(steps, init);
      StepGrows(Run(steps + init), last);
      var mid, end := Run(steps + init), Run(steps + more);
      assert mid.writes <= end.writes;
      assert forall w :: 0 <= w < |mid.writes| ==> end.writes[w] == mid.writes[w];
      WriteStays(steps, init, k, value, live, stale, at);
      assert last in more;
      StepKeepsWrite(mid, last, k, value, live, stale, at);
    }
  }

  lemma StepGrows<V>(s: State<V>, step: Step<V>)
    ensures s.writes <= Do(s, step).writes && s.now <= Do(s, step).now
  {
  }

  lemma {:induction false} RunGrows<V>(steps: seq<Step<V>>, more: seq<Step<V>>)
    ensures Run(steps).writes <= Run(steps + more).writes && Run(steps).now <= Run(steps + more).now
  {
    if |more| == 0 {
      assert steps + more == steps;
    } else {
      var init, last := more[..|more| - 1], more[|more| - 1];
      RunGrows(steps, init);
      LastStep(steps, more);
      RunOneMore(steps + init, last);
      StepGrows(Run(steps + init), last);
    }
  }

  /** The other half: what a load brings back is served, without another load, to whoever
      reads the key within its live and stale seconds, as long as the key is neither
      invalidated nor written again; and called stale exactly from the end of the live ones. */
  lemma KeptIsServed<V>(steps: seq<Step<V>>, i: nat, more: seq<Step<V>>, rule: Rule, live: int, stale: int)
    requires var s := Run(steps); i < |s.loads| && s.loads[i].value.Some? && !s.loads[i].done
    requires var load := Run(steps).loads[i];
             KeptSeconds(load.value.value, load.rule, live, stale)
    requires Invalidate(Run(steps).loads[i].key) !in more
    requires var written, after := Run(steps + [WriteBack(i)]), Run(steps + [WriteBack(i)] + more);
             && after.now < Run(steps).now + 1000 * (live + stale)
             && forall w :: |written.writes| <= w < |after.writes| ==> after.writes[w].key != Run(steps).loads[i].key
    ensures var load, at := Run(steps).loads[i], Run(steps).now;
            var after := Run(steps + [WriteBack(i)] + more);
            Do(after, Read(load.key, rule)).servings
            == after.servings + [Serving(load.key, load.value.value, after.now, at + 1000 * live <= after.now)]
  {
    var s, load := Run(steps), Run(steps).loads[i];
    RunOneMore(steps, WriteBack(i));
    RunGrows(steps + [WriteBack(i)], more);
    assert HoldsWrite(Run(steps + [WriteBack(i)]), load.key, load.value.value, live, stale, s.now);
    WriteStays(steps + [WriteBack(i)], more, load.key, load.value.value, live, stale, s.now);
  }

  /** The key now holds the value for its live and stale seconds, or nothing changed because
      the store would have kept it for none. */
  ghost predicate Saved<V>(before: map<Key, Entry<V>>, after: map<Key, Entry<V>>, k: Key, value: Option<V>,
      rule: Rule, now: int)
  {
    forall live, stale :: KeptSeconds(value, rule, live, stale) ==>
      after == if live + stale > 0
               then before[k := Entry(value, now + 1000 * live, now + 1000 * (live + stale), now)] else before
  }

  /** One read. What the store still has is served, stale from the end of its live seconds on,
      and only then a refresh is started, if nobody holds the key's lock; it holds it for ten
      seconds. What the store does not have is loaded, and nothing is served. */
  lemma ReadMeans<V>(s: State<V>, k: Key, rule: Rule)
    ensures var after := Do(s, Read(k, rule));
            && after == s.(locks := after.locks, loads := after.loads, servings := after.servings)
            && if k in s.store && s.now < s.store[k].expireAt then
                 && after.servings
                    == s.servings + [Serving(k, s.store[k].value, s.now, s.store[k].softExpiry <= s.now)]
                 && if s.store[k].softExpiry <= s.now && (k in s.locks ==> s.locks[k] <= s.now) then
                      && after.loads == s.loads + [Load(k, rule, true, None, false)]
                      && after.locks == s.locks[k := s.now + 10_000]
                    else
                      after.loads == s.loads && after.locks == s.locks
               else
                 && after.servings == s.servings && after.locks == s.locks
                 && after.loads == s.loads + [Load(k, rule, false, None, false)]
    ensures StartsRefresh(s, k, rule)
            <==> && k in s.store && s.now < s.store[k].expireAt && s.store[k].softExpiry <= s.now
                 && (k in s.locks ==> s.locks[k] <= s.now)
  {
  }

  /** A load that returns and is written back with nothing in between leaves its value under its
      own rule, once; a refresh then gives its lock up. This is `RedisCache.Cached` of a miss,
      and `RedisCache.Refresh`. */
  lemma LoadAloneSaves<V>(s: State<V>, i: nat, value: Option<V>)
    requires i < |s.loads| && s.loads[i].value == None && !s.loads[i].done
    ensures var load, written := s.loads[i], Do(Do(s, LoadReturns(i, value)), WriteBack(i));
            && Saved(s.store, written.store, load.key, value, load.rule, s.now)
            && written.locks == s.locks && written.servings == s.servings && written.now == s.now
            && Do(written, WriteBack(i)) == written
            && Do(written, ReleaseLock(i)).store == written.store
            && Do(written, ReleaseLock(i)).locks == (if load.background then s.locks - {load.key} else s.locks)
            && forall live, stale :: KeptSeconds(value, load.rule, live, stale) ==>
                 written.writes
                 == s.writes + if live + stale > 0 then [Write(load.key, value, load.rule, s.now)] else []
  {
  }

  /** The read starts a refresh in the background. */
  predicate StartsRefresh<V(==)>(s: State<V>, k: Key, rule: Rule) {
    var loads := Do(s, Read(k, rule)).loads;
    |loads| == |s.loads| + 1 && loads[|s.loads|].background
  }

  lemma StepKeepsLock<V>(s: State<V>, step: Step<V>, k: Key, until: int)
    requires k in s.locks && until <= s.locks[k]
    requires step.ReleaseLock? && step.load < |s.loads| ==> s.loads[step.load].key != k
    ensures k in Do(s, step).locks && until <= Do(s, step).locks[k]
    ensures |s.loads| <= |Do(s, step).loads|
    ensures forall i :: 0 <= i < |s.loads| ==> Do(s, step).loads[i].key == s.loads[i].key
  {
  }

  lemma {:induction false} LockIsHeld<V>(steps: seq<Step<V>>, more: seq<Step<V>>, k: Key, until: int)
    requires k in Run(steps).locks && until <= Run(steps).locks[k]
    requires forall i: nat :: i < |Run(steps + more).loads| && Run(steps + more).loads[i].key == k ==>
               ReleaseLock(i) !in more
    ensures k in Run(steps + more).locks && until <= Run(steps + more).locks[k]
  {
    if |more| == 0 {
      assert steps + more == steps;
    } else {
      var init, last := more[..|more| - 1], more[|more| - 1];
      LastStep(steps, more);
      RunOneMore(steps + init, last);
      LoadsStay(Run(steps + init), last);
      assert last in more;
      LockIsHeld(steps, init, k, until);
      StepKeepsLock(Run(steps + init), last, k, until);
    }
  }

  lemma LoadsStay<V>(s: State<V>, step: Step<V>)
    ensures |s.loads| <= |Do(s, step).loads|
    ensures forall i :: 0 <= i < |s.loads| ==> Do(s, step).loads[i].key == s.loads[i].key
  {
  }

  /** What was kept is gone once its live and stale seconds have passed: the next read loads. */
  lemma LapsedIsLoaded<V>(s: State<V>, i: nat, value: Option<V>, live: int, stale: int, ms: nat, rule: Rule)
    requires i < |s.loads| && s.loads[i].value == None && !s.loads[i].done
    requires KeptSeconds(value, s.loads[i].rule, live, stale) && 0 < 1000 * (live + stale) <= ms
    ensures var written := Do(Do(s, LoadReturns(i, value)), WriteBack(i));
            var later := Do(written, Tick(ms));
            var after := Do(later, Read(s.loads[i].key, rule));
            && later.now == s.now + ms && after.servings == s.servings
            && after.loads == later.loads + [Load(s.loads[i].key, rule, false, None, false)]
  {
    LoadAloneSaves(s, i, value);
    ReadMeans(Do(Do(Do(s, LoadReturns(i, value)), WriteBack(i)), Tick(ms)), s.loads[i].key, rule);
  }

  /** However many find a key stale at once, one refreshes it: until some refresh of the key gives
      its lock up, none other starts within ten seconds of the last. */
  lemma OneRefreshAtATime<V>(steps: seq<Step<V>>, k: Key, rule: Rule, more: seq<Step<V>>, another: Rule)
    requires StartsRefresh(Run(steps), k, rule)
    requires var after := Run(steps + [Read(k, rule)] + more);
             && (forall i: nat :: i < |after.loads| && after.loads[i].key == k ==> ReleaseLock(i) !in more)
             && StartsRefresh(after, k, another)
    ensures Run(steps).now + 10_000 <= Run(steps + [Read(k, rule)] + more).now
  {
    RunOneMore(steps, Read(k, rule));
    LockIsHeld(steps + [Read(k, rule)], more, k, Run(steps).now + LOCK_TTL_MS);
  }

  /** Once a key is invalidated, whatever is served of it was written after that, however
      stale what a load in flight then writes may be. */
  lemma InvalidatedIsNotServed<V>(steps: seq<Step<V>>, k: Key, more: seq<Step<V>>, i: nat)
    requires var before, after := Run(steps), Run(steps + [Invalidate(k)] + more);
             |before.servings| <= i < |after.servings| && after.servings[i].key == k
    ensures var before, after := Run(steps), Run(steps + [Invalidate(k)] + more);
            exists w :: |before.writes| <= w < |after.writes| && ServedFrom(after.writes[w], after.servings[i])
  {
    var before := Run(steps);
    RunOneMore(steps, Invalidate(k));
    assert Traced(Run(steps + [Invalidate(k)]), k, |before.writes|, |before.servings|);
    RunKeepsTrace(steps + [Invalidate(k)], more, k, |before.writes|, |before.servings|);
  }

  /* ------------------------------------------------------------------ *
   * Many keys at once
   * ------------------------------------------------------------------ */

  /** A hit of `cachedMany`: there is no stale window here. */
  predicate IsHit<V>(store: map<Key, Entry<V>>, id: Key, now: int) {
    Stored(store, id, now).Some? && store[id].softExpiry > now
  }

  /** `load`: the database's rows among the ids asked for. */
  function LoadFrom<V>(db: map<Key, V>, ids: seq<Key>): map<Key, V> {
    map id | id in db && id in ids :: db[id]
  }

  /** What one id resolves to: an unexpired entry wins, and everything else is loaded. */
  function Resolve<V>(store: map<Key, Entry<V>>, db: map<Key, V>, id: Key, now: int): Option<V> {
    if IsHit(store, id, now) then store[id].value else Lookup(db, id)
  }

  function ManyTtl<V>(value: Option<V>, rule: Rule): int {
    if value.Some? then rule.ttlSeconds else TtlFor<V>(None, rule)
  }

  function ManyEntry<V>(value: Option<V>, rule: Rule, now: int): Entry<V> {
    var expiry := now + ManyTtl(value, rule) * 1000;
    Entry(value, expiry, expiry, now)
  }

  function StoreMissing<V>(store: map<Key, Entry<V>>, missing: seq<Key>, db: map<Key, V>, rule: Rule, now: int)
      : map<Key, Entry<V>>
  {
    if |missing| == 0 then store
    else
      var before, id := StoreMissing(store, missing[..|missing| - 1], db, rule, now), missing[|missing| - 1];
      if ManyTtl(Lookup(db, id), rule) > 0 then before[id := ManyEntry(Lookup(db, id), rule, now)] else before
  }

  /** Every unexpired entry says what the database says. */
  ghost predicate Agrees<V(!new)>(store: map<Key, Entry<V>>, db: map<Key, V>, now: int) {
    forall id: Key :: IsHit(store, id, now) ==> store[id].value == Lookup(db, id)
  }

  ghost predicate NoRepeats(ids: seq<Key>) { forall i, j :: 0 <= i < j < |ids| ==> ids[i] != ids[j] }

  lemma {:induction false} StoringAgrees<V(!new)>(
      store: map<Key, Entry<V>>, missing: seq<Key>, db: map<Key, V>, rule: Rule, now: int, later: int)
    requires Agrees(store, db, later)
    ensures Agrees(StoreMissing(store, missing, db, rule, now), db, later)
  {
    if |missing| > 0 {
      StoringAgrees(store, missing[..|missing| - 1], db, rule, now, later);
    }
  }

  /** If every unexpired entry agrees with the database, then whatever mix of hits, cached
      absences, expired entries and repeated ids is asked for, each id resolves to what a
      plain load gives, and the store agrees afterwards and for as long as the database stays. */
  lemma CachedManyAgrees<V(!new)>(
      store: map<Key, Entry<V>>, ids: seq<Key>, missing: seq<Key>, db: map<Key, V>, rule: Rule, now: int, later: int)
    requires Agrees(store, db, now) && now <= later
    ensures Resolved(store, ids, db, now) == LoadFrom(db, ids)
    ensures Agrees(StoreMissing(store, missing, db, rule, now), db, later)
  {
    StoringAgrees(store, missing, db, rule, now, later);
    forall id: Key ensures Resolve(store, db, id, now) == Lookup(db, id) {
      assert IsHit(store, id, now) ==> store[id].value == Lookup(db, id);
    }
    assert Resolved(store, ids, db, now) == LoadFrom(db, ids);
  }

  /** The ids that resolve to something, and what; an absent id has no entry in the result. */
  function Resolved<V>(store: map<Key, Entry<V>>, ids: seq<Key>, db: map<Key, V>, now: int): map<Key, V> {
    map id | id in ids && Resolve(store, db, id, now).Some? :: Resolve(store, db, id, now).value
  }

  /** The ids in order of first appearance. */
  function Unique(ids: seq<Key>): seq<Key> {
    if |ids| == 0 then []
    else
      var before, last := Unique(ids[..|ids| - 1]), ids[|ids| - 1];
      if last in before then before else before + [last]
  }

  lemma {:induction false} UniqueKeeps(ids: seq<Key>)
    ensures NoRepeats(Unique(ids)) && forall id :: id in Unique(ids) <==> id in ids
  {
    if |ids| > 0 {
      UniqueKeeps(ids[..|ids| - 1]);
      assert ids == ids[..|ids| - 1] + [ids[|ids| - 1]];
    }
  }

  function Missing<V>(store: map<Key, Entry<V>>, ids: seq<Key>, now: int): seq<Key> {
    if |ids| == 0 then []
    else
      var before, last := Missing(store, ids[..|ids| - 1], now), ids[|ids| - 1];
      if IsHit(store, last, now) then before else before + [last]
  }

  /** `load` sees each id without an unexpired entry, once. */
  lemma {:induction false} EachMissingIdOnce<V>(store: map<Key, Entry<V>>, ids: seq<Key>, now: int)
    requires NoRepeats(ids)
    ensures var missing := Missing(store, ids, now);
            && NoRepeats(missing) && |missing| <= |ids|
            && forall id :: id in missing <==> id in ids && !IsHit(store, id, now)
  {
    if |ids| > 0 {
      var init, last := ids[..|ids| - 1], ids[|ids| - 1];
      EachMissingIdOnce(store, init, now);
      assert ids == init + [last] && last !in init;
    }
  }

  datatype Stats = Stats(hits: nat, misses: nat, stale: nat, errors: nat)

  /** How the shared store is: without it every call loads, and any error loads too. */
  datatype Health = NotConfigured | Up | ReadsFail | WritesFail

  /** The part of the answer the store gives. */
  function HitsIn<V>(store: map<Key, Entry<V>>, ids: seq<Key>, now: int): map<Key, V> {
    map id | id in ids && IsHit(store, id, now) && store[id].value.Some? :: store[id].value.value
  }

  function HitCount<V>(store: map<Key, Entry<V>>, ids: seq<Key>, now: int): nat {
    if |ids| == 0 then 0
    else HitCount(store, ids[..|ids| - 1], now) + if IsHit(store, ids[|ids| - 1], now) then 1 else 0
  }

  /** What one call of `cachedMany` adds to the counters. */
  function ManyStats<V>(stats: Stats, store: map<Key, Entry<V>>, ids: seq<Key>, health: Health, now: int): Stats {
    if |ids| == 0 || health == NotConfigured then stats
    else if health == ReadsFail then stats.(errors := stats.errors + 1)
    else
      var missing := Missing(store, Unique(ids), now);
      Stats(stats.hits + HitCount(store, Unique(ids), now), stats.misses + |missing|, stats.stale,
            stats.errors + if health == WritesFail && |missing| > 0 then 1 else 0)
  }

  /** Every id asked for is counted once. */
  lemma {:induction false} HitsAndMissesAdd<V>(store: map<Key, Entry<V>>, ids: seq<Key>, now: int)
    ensures HitCount(store, ids, now) + |Missing(store, ids, now)| == |ids|
  {
    if |ids| > 0 {
      HitsAndMissesAdd(store, ids[..|ids| - 1], now);
    }
  }

  lemma HitsNext<V>(store: map<Key, Entry<V>>, ids: seq<Key>, i: nat, now: int)
    requires i < |ids|
    ensures var hit := IsHit(store, ids[i], now);
            && Missing(store, ids[..i + 1], now) == Missing(store, ids[..i], now) + (if hit then [] else [ids[i]])
            && HitCount(store, ids[..i + 1], now) == HitCount(store, ids[..i], now) + (if hit then 1 else 0)
            && HitsIn(store, ids[..i + 1], now)
               == if hit && store[ids[i]].value.Some?
                  then HitsIn(store, ids[..i], now)[ids[i] := store[ids[i]].value.value]
                  else HitsIn(store, ids[..i], now)
  {
    PrefixNext(ids, i);
  }

  /** Hits and loads together are the answer. */
  lemma HitsAndLoads<V>(store: map<Key, Entry<V>>, ids: seq<Key>, db: map<Key, V>, now: int)
    ensures HitsIn(store, Unique(ids), now) + LoadFrom(db, Missing(store, Unique(ids), now))
            == Resolved(store, ids, db, now)
  {
    UniqueKeeps(ids);
    EachMissingIdOnce(store, Unique(ids), now);
  }

  lemma NothingToLoad<V>(db: map<Key, V>, hits: map<Key, V>)
    ensures hits + LoadFrom(db, []) == hits
  {
  }

  lemma SameIdsSameLoad<V>(db: map<Key, V>, ids: seq<Key>)
    ensures LoadFrom(db, Unique(ids)) == LoadFrom(db, ids)
  {
    UniqueKeeps(ids);
  }

  /* ------------------------------------------------------------------ *
   * The functions as the code runs them
   * ------------------------------------------------------------------ */

  class RedisCache<V(!new)> {
    var store: map<Key, Entry<V>>
    var locks: map<Key, int>
    var stats: Stats

    method Write(k: Key, value: Option<V>, rule: Rule, now: int) returns (ok: bool)
      modifies this`store
      ensures store == Put(old(store), k, value, rule, now)
      ensures ok <==> KeptFor(value, rule) > 0
      ensures Saved(old(store), store, k, value, rule, now)
    {
      var live := TtlFor(value, rule);
      var seconds := live + StaleFor(live, rule);
      if seconds <= 0 { return false; }
      store := store[k := Entry(value, now + live * 1000, now + seconds * 1000, now)];
      return true;
    }

    /** NX with a TTL: a refresh that crashes gives the lock up by itself. */
    method ClaimRefresh(k: Key, now: int) returns (got: bool)
      modifies this`locks
      ensures got <==> k !in old(locks) || old(locks)[k] <= now
      ensures locks == if got then old(locks)[k := now + LOCK_TTL_MS] else old(locks)
    {
      if k in locks && locks[k] > now { return false; }
      locks := locks[k := now + LOCK_TTL_MS];
      return true;
    }

    /** `loaded` is what `load` would return. `refreshes` says that a background refresh was started. */
    method Cached(k: Key, rule: Rule, loaded: Option<V>, health: Health, now: int)
        returns (value: Option<V>, refreshes: bool)
      modifies this
      ensures health in {NotConfigured, ReadsFail} ==>
                value == loaded && !refreshes && store == old(store) && locks == old(locks)
      ensures health in {Up, WritesFail} ==>
                if k in old(store) && now < old(store)[k].expireAt then
                  && value == old(store)[k].value && store == old(store)
                  && (refreshes <==> && old(store)[k].softExpiry <= now && health == Up
                                     && (k in old(locks) ==> old(locks)[k] <= now))
                  && locks == if refreshes then old(locks)[k := now + LOCK_TTL_MS] else old(locks)
                else
                  && value == loaded && !refreshes && locks == old(locks)
                  && (health == Up ==> Saved(old(store), store, k, loaded, rule, now))
                  && store == if health == Up then Put(old(store), k, loaded, rule, now) else old(store)
      ensures var hit, asked := Stored(old(store), k, now), health in {Up, WritesFail};
              stats == Stats(
                old(stats).hits + (if asked && hit.Some? then 1 else 0),
                old(stats).misses + (if asked && hit == None then 1 else 0),
                old(stats).stale + (if asked && hit.Some? && hit.value.softExpiry <= now then 1 else 0),
                old(stats).errors + if health == ReadsFail
                                       || (asked && hit == None && (health == WritesFail || KeptFor(loaded, rule) <= 0))
                                    then 1 else 0)
    {
      if health == NotConfigured { return loaded, false; }
      if health == ReadsFail {
        stats := stats.(errors := stats.errors + 1);
        return loaded, false;
      }
      if k in store && store[k].expireAt > now {
        var hit := store[k];
        stats := stats.(hits := stats.hits + 1);
        if hit.softExpiry > now { return hit.value, false; }
        stats := stats.(stale := stats.stale + 1);
        refreshes := false;
        if health == Up { refreshes := ClaimRefresh(k, now); }
        return hit.value, refreshes;
      }
      stats := stats.(misses := stats.misses + 1);
      var ok := false;
      if health == Up { ok := Write(k, loaded, rule, now); }
      if !ok { stats := stats.(errors := stats.errors + 1); }
      return loaded, false;
    }

    /** The background refresh; `loaded` is `None` when the load throws. The lock goes either way. */
    method Refresh(k: Key, rule: Rule, loaded: Option<Option<V>>, now: int)
      modifies this
      ensures store == if loaded.Some? then Put(old(store), k, loaded.value, rule, now) else old(store)
      ensures loaded.Some? ==> Saved(old(store), store, k, loaded.value, rule, now)
      ensures locks == old(locks) - {k}
    {
      if loaded.Some? {
        var _ := Write(k, loaded.value, rule, now);
      }
      locks := locks - {k};
    }

    /** Never fails: if the keys cannot be dropped they stay, and that is counted. */
    method Invalidate(keys: set<Key>, health: Health)
      modifies this`store, this`stats
      ensures store == if health in {Up, ReadsFail} then old(store) - keys else old(store)
      ensures stats == if health == WritesFail && keys != {} then old(stats).(errors := old(stats).errors + 1)
                       else old(stats)
    {
      if health == NotConfigured || keys == {} { return; }
      if health == WritesFail {
        stats := stats.(errors := stats.errors + 1);
        return;
      }
      store := store - keys;
    }

    method Dedupe(ids: seq<Key>) returns (unique: seq<Key>)
      ensures unique == Unique(ids)
    {
      unique := [];
      for i := 0 to |ids|
        invariant unique == Unique(ids[..i])
      {
        PrefixNext(ids, i);
        if ids[i] !in unique { unique := unique + [ids[i]]; }
      }
      assert ids[..|ids|] == ids;
    }

    /** One MGET, sorted into hits and misses. A cached absence is a hit that is left out of the result. */
    method LookUp(ids: seq<Key>, now: int) returns (found: map<Key, V>, missing: seq<Key>, hits: nat)
      ensures missing == Missing(store, ids, now) && hits == HitCount(store, ids, now)
      ensures found == HitsIn(store, ids, now)
    {
      found, missing, hits := map[], [], 0;
      for i := 0 to |ids|
        invariant missing == Missing(store, ids[..i], now) && hits == HitCount(store, ids[..i], now)
        invariant found == HitsIn(store, ids[..i], now)
      {
        var id := ids[i];
        HitsNext(store, ids, i, now);
        if !(id in store && store[id].expireAt > now) || store[id].softExpiry <= now {
          missing := missing + [id];
        } else {
          hits := hits + 1;
          if store[id].value.Some? { found := found[id := store[id].value.value]; }
        }
      }
      assert ids[..|ids|] == ids;
    }

    /** The pipeline: one entry per id that was missing, present or not. */
    method StoreLoaded(missing: seq<Key>, db: map<Key, V>, loaded: map<Key, V>, rule: Rule, now: int)
      requires loaded == LoadFrom(db, missing)
      modifies this`store
      ensures store == StoreMissing(old(store), missing, db, rule, now)
    {
      var live := TtlFor<V>(None, rule);
      for i := 0 to |missing|
        invariant store == StoreMissing(old(store), missing[..i], db, rule, now)
      {
        var id := missing[i];
        PrefixNext(missing, i);
        assert Lookup(loaded, id) == Lookup(db, id);
        var ttl := if id in loaded then rule.ttlSeconds else live;
        if ttl > 0 {
          var value := if id in loaded then Some(loaded[id]) else None;
          store := store[id := Entry(value, now + ttl * 1000, now + ttl * 1000, now)];
        }
      }
      assert missing[..|missing|] == missing;
    }

    /** A pipeline that fails is counted and costs nothing else. */
    method TryStore(missing: seq<Key>, db: map<Key, V>, loaded: map<Key, V>, rule: Rule, health: Health, now: int)
      requires loaded == LoadFrom(db, missing)
      modifies this`store, this`stats
      ensures store == if health == Up then StoreMissing(old(store), missing, db, rule, now) else old(store)
      ensures stats == if health == Up then old(stats) else old(stats).(errors := old(stats).errors + 1)
    {
      if health == Up {
        StoreLoaded(missing, db, loaded, rule, now);
      } else {
        stats := stats.(errors := stats.errors + 1);
      }
    }

    /** The call once Redis answered the MGET for `unique`. */
    method ReadThrough(ids: seq<Key>, unique: seq<Key>, rule: Rule, db: map<Key, V>, health: Health, now: int)
        returns (found: map<Key, V>, asked: Option<seq<Key>>)
      requires |ids| > 0 && unique == Unique(ids) && health in {Up, WritesFail}
      modifies this
      ensures var missing := Missing(old(store), Unique(ids), now);
              && found == Resolved(old(store), ids, db, now)
              && asked == (if |missing| == 0 then None else Some(missing))
              && store == if health == Up then StoreMissing(old(store), missing, db, rule, now) else old(store)
      ensures stats == ManyStats(old(stats), old(store), ids, health, now)
    {
      var known, missing, hits := LookUp(unique, now);
      HitsAndLoads(store, ids, db, now);
      stats := stats.(hits := stats.hits + hits, misses := stats.misses + |missing|);
      if |missing| == 0 {
        NothingToLoad(db, known);
        return known, None;
      }
      var loaded := LoadFrom(db, missing);
      TryStore(missing, db, loaded, rule, health, now);
      return known + loaded, Some(missing);
    }

    /** `asked` is what `load` was called with, if it was called. */
    method CachedMany(ids: seq<Key>, rule: Rule, db: map<Key, V>, health: Health, now: int)
        returns (found: map<Key, V>, asked: Option<seq<Key>>)
      modifies this
      ensures |ids| == 0 ==> found == map[] && asked == None && store == old(store)
      ensures |ids| > 0 && health in {NotConfigured, ReadsFail} ==>
                && found == LoadFrom(db, ids) && store == old(store)
                && asked == Some(if health == ReadsFail then Unique(ids) else ids)
      ensures |ids| > 0 && health in {Up, WritesFail} ==>
                var missing := Missing(old(store), Unique(ids), now);
                && found == Resolved(old(store), ids, db, now)
                && asked == (if |missing| == 0 then None else Some(missing))
                && store == if health == Up then StoreMissing(old(store), missing, db, rule, now) else old(store)
      ensures stats == ManyStats(old(stats), old(store), ids, health, now)
    {
      if |ids| == 0 { return map[], None; }
      if health == NotConfigured { return LoadFrom(db, ids), Some(ids); }
      var unique := Dedupe(ids);
      if health == ReadsFail {
        stats := stats.(errors := stats.errors + 1);
        SameIdsSameLoad(db, ids);
        return LoadFrom(db, unique), Some(unique);
      }
      found, asked := ReadThrough(ids, unique, rule, db, health, now);
    }
  }
}

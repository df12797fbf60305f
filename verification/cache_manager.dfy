/** The Redis-backed cache of cache/cache_manager.py.

    Redis is a finite map from key to entry; every entry carries its payload,
    the slot format it was written in and the instant it expires. An entry is
    live while the clock is before its expiry, which is how SETEX behaves.
    The clock is an explicit `now` argument. */
module CacheManager {
  import opened Wrappers
  import opened Text
  import opened Json
  import KwArgs

  const KeyPrefix: string := "tou_connect:"
  const DefaultTtl: int := 3600
  const PickleSuffix: string := ":pickle"

  datatype Strategy = Strategy(name: string, ttl: int, prefix: string)

  /** The strategy table of the manager. */
  const Strategies: seq<Strategy> := [
    Strategy("user_data", 1800, "user:"),
    Strategy("analysis_results", 7200, "analysis:"),
    Strategy("matching_results", 3600, "match:"),
    Strategy("api_responses", 300, "api:"),
    Strategy("session_data", 86400, "session:"),
    Strategy("static_content", 86400, "static:")
  ]

  function FindStrategy(table: seq<Strategy>, cacheType: string): Option<Strategy>
    decreases |table|
  {
    if |table| == 0 then None
    else if table[0].name == cacheType then Some(table[0])
    else FindStrategy(table[1..], cacheType)
  }

  function Lookup(cacheType: string): Option<Strategy> {
    FindStrategy(Strategies, cacheType)
  }

  function TypePrefix(cacheType: string): string {
    match Lookup(cacheType)
    case Some(s) => s.prefix
    case None => ""
  }

  /** `_get_cache_key` */
  function CacheKey(key: string, cacheType: string): string {
    KeyPrefix + TypePrefix(cacheType) + key
  }

  /** `_get_ttl` */
  function TypeTtl(cacheType: string): int {
    match Lookup(cacheType)
    case Some(s) => s.ttl
    case None => DefaultTtl
  }

  /** `ttl or self._get_ttl(cache_type)`: `None` and `0` are both falsy. */
  function EffectiveTtl(ttl: Option<int>, cacheType: string): int {
    if ttl.Some? && ttl.value != 0 then ttl.value else TypeTtl(cacheType)
  }

  datatype Format = JsonSlot | PickleSlot

  /** `Corrupt` is a stored text that does not decode (written by another client).
      The format records how `set` serialised the entry: JSON text for the plain
      slot, pickle hex for the `:pickle` slot. */
  datatype Payload = Encoded(v: Value) | Corrupt

  datatype Entry = Entry(payload: Payload, fmt: Format, expiry: int)

  type Store = map<string, Entry>

  predicate Live(store: Store, k: string, now: int) {
    k in store && now < store[k].expiry
  }

  datatype Stats = Stats(hits: nat, misses: nat, sets: nat, deletes: nat, errors: nat)

  const NoStats := Stats(0, 0, 0, 0, 0)

  datatype Manager = Manager(connected: bool, store: Store, stats: Stats)

  /** The result of an operation together with the manager after it. */
  datatype Outcome<T> = Outcome(m: Manager, r: T)

  /** `set`: JSON-encodable values go to the plain slot, others to `key:pickle`. */
  function Set(m: Manager, key: string, v: Value, ttl: Option<int>, cacheType: string, now: int)
    : (o: Outcome<bool>)
    ensures !m.connected ==> o == Outcome(m, false)
    ensures o.m.connected == m.connected
    ensures o.r <==> m.connected && (Encodable(v) || Picklable(v)) && EffectiveTtl(ttl, cacheType) > 0
    ensures o.r ==> o.m.stats == m.stats.(sets := m.stats.sets + 1)
    ensures m.connected && !o.r ==> o.m == m.(stats := m.stats.(errors := m.stats.errors + 1))
  {
    if !m.connected then Outcome(m, false)
    else
      var ck := CacheKey(key, cacheType);
      var eff := EffectiveTtl(ttl, cacheType);
      var failed := m.(stats := m.stats.(errors := m.stats.errors + 1));
      if !Encodable(v) && !Picklable(v) then Outcome(failed, false)
      else if eff <= 0 then Outcome(failed, false)
      else
        var slot := if Encodable(v) then ck else ck + PickleSuffix;
        var fmt := if Encodable(v) then JsonSlot else PickleSlot;
        Outcome(Manager(true, m.store[slot := Entry(Encoded(v), fmt, now + eff)],
                        m.stats.(sets := m.stats.sets + 1)), true)
  }

  /** `delete`: removes both slots; succeeds iff one of them was live. */
  function Delete(m: Manager, key: string, cacheType: string, now: int): (o: Outcome<bool>)
    ensures !m.connected ==> o == Outcome(m, false)
    ensures o.r <==> (m.connected &&
      (Live(m.store, CacheKey(key, cacheType), now) || Live(m.store, CacheKey(key, cacheType) + PickleSuffix, now)))
    ensures m.connected ==>
      !Live(o.m.store, CacheKey(key, cacheType), now) && !Live(o.m.store, CacheKey(key, cacheType) + PickleSuffix, now)
    ensures forall k :: k != CacheKey(key, cacheType) && k != CacheKey(key, cacheType) + PickleSuffix ==>
      (k in o.m.store <==> k in m.store) && (k in m.store ==> o.m.store[k] == m.store[k])
    ensures o.m.stats == m.stats.(deletes := m.stats.deletes + if o.r then 1 else 0)
    ensures o.m.connected == m.connected
  {
    if !m.connected then Outcome(m, false)
    else
      var ck := CacheKey(key, cacheType);
      var pk := ck + PickleSuffix;
      var existed := Live(m.store, ck, now) || Live(m.store, pk, now);
      var store := m.store - {ck, pk};
      Outcome(m.(store := store, stats := m.stats.(deletes := m.stats.deletes + if existed then 1 else 0)), existed)
  }

  /** Decodes an entry found in the slot `expected`: `json.loads` for the plain
      slot, `pickle.loads` for the `:pickle` slot. An entry written in the other
      format fails to decode as well: pickle hex ends in `2e` (the STOP opcode),
      which no JSON text does, and `json.dumps` never yields a pickle with its
      STOP byte. A decode failure deletes both slots and yields `None`. */
  function Decode(m: Manager, e: Entry, expected: Format, key: string, cacheType: string, now: int)
    : (o: Outcome<Value>)
    requires m.connected
    ensures e.payload.Encoded? && e.fmt == expected ==> o == Outcome(m, e.payload.v)
    ensures e.payload.Corrupt? || e.fmt != expected ==> o == Outcome(Delete(m, key, cacheType, now).m, Null)
  {
    if e.payload.Encoded? && e.fmt == expected then Outcome(m, e.payload.v)
    else Outcome(Delete(m, key, cacheType, now).m, Null)
  }

  /** `get`: the plain slot first, then the `:pickle` slot. `Null` is Python's `None`. */
  function Get(m: Manager, key: string, cacheType: string, now: int): (o: Outcome<Value>)
    ensures !m.connected ==> o == Outcome(m, Null)
    ensures o.m.connected == m.connected
    ensures m.connected ==> o.m.stats.hits + o.m.stats.misses == m.stats.hits + m.stats.misses + 1
    ensures m.connected ==> (o.m.stats.hits == m.stats.hits + 1 <==>
      Live(m.store, CacheKey(key, cacheType), now) || Live(m.store, CacheKey(key, cacheType) + PickleSuffix, now))
  {
    if !m.connected then Outcome(m, Null)
    else
      var ck := CacheKey(key, cacheType);
      var pk := ck + PickleSuffix;
      var hit := m.(stats := m.stats.(hits := m.stats.hits + 1));
      if Live(m.store, ck, now) then Decode(hit, m.store[ck], JsonSlot, key, cacheType, now)
      else if Live(m.store, pk, now) then Decode(hit, m.store[pk], PickleSlot, key, cacheType, now)
      else Outcome(m.(stats := m.stats.(misses := m.stats.misses + 1)), Null)
  }

  /** `exists` */
  function Exists(m: Manager, key: string, cacheType: string, now: int): (r: bool)
    ensures r <==> (m.connected &&
      (Live(m.store, CacheKey(key, cacheType), now) || Live(m.store, CacheKey(key, cacheType) + PickleSuffix, now)))
  {
    m.connected && (Live(m.store, CacheKey(key, cacheType), now) || Live(m.store, CacheKey(key, cacheType) + PickleSuffix, now))
  }

  /** The key pattern `clear_cache` deletes: a falsy type clears the whole namespace. */
  function ClearPattern(cacheType: Option<string>): string {
    if cacheType.Some? && cacheType.value != "" then KeyPrefix + TypePrefix(cacheType.value) else KeyPrefix
  }

  /** `clear_cache` */
  function Clear(m: Manager, cacheType: Option<string>): (o: Outcome<bool>)
    ensures o.r == m.connected
    ensures !m.connected ==> o.m == m
    ensures o.m.stats == m.stats && o.m.connected == m.connected
    ensures m.connected ==> forall k :: k in o.m.store <==> k in m.store && !IsPrefix(ClearPattern(cacheType), k)
    ensures forall k :: k in o.m.store ==> k in m.store && o.m.store[k] == m.store[k]
  {
    if !m.connected then Outcome(m, false)
    else
      var pattern := ClearPattern(cacheType);
      Outcome(m.(store := map k | k in m.store && !IsPrefix(pattern, k) :: m.store[k]), true)
  }

  /** `round(x, 2)` for the non-negative values it is applied to (ties round up). */
  function Round2(x: real): real {
    ((x * 100.0 + 0.5).Floor as real) / 100.0
  }

  lemma RatioBounds(part: real, total: real)
    requires 0.0 <= part <= total && total > 0.0
    ensures 0.0 <= part / total <= 1.0
    ensures part == total ==> part / total == 1.0
  {
    assert part / total * total == part;
  }

  /** `hit_rate` of `get_stats`. */
  function HitRate(s: Stats): (r: real)
    ensures 0.0 <= r <= 100.0
    ensures s.hits + s.misses == 0 ==> r == 0.0
    ensures s.misses == 0 && s.hits > 0 ==> r == 100.0
  {
    if s.hits + s.misses == 0 then 0.0
    else
      var ratio := (s.hits as real) / ((s.hits + s.misses) as real);
      RatioBounds(s.hits as real, (s.hits + s.misses) as real);
      var x := ratio * 100.0;
      assert s.misses == 0 ==> x == 100.0 && (x * 100.0 + 0.5).Floor == 10000;
      Round2(x)
  }

  function LiveKeys(store: Store, now: int): set<string> {
    set k | k in store && now < store[k].expiry
  }

  datatype Report = Report(stats: Stats, totalKeys: nat, hitRate: real, connected: bool)

  /** `get_stats`; `total_keys` is refreshed from the database size only while connected. */
  function GetStats(m: Manager, lastTotal: nat, now: int): (r: Report)
    ensures r.stats == m.stats && r.connected == m.connected
    ensures 0.0 <= r.hitRate <= 100.0
    ensures !m.connected ==> r.totalKeys == lastTotal
  {
    Report(m.stats, if m.connected then |LiveKeys(m.store, now)| else lastTotal, HitRate(m.stats), m.connected)
  }

  datatype Health = Healthy | Degraded

  /** `health_check`: a ping is attempted only while connected. */
  function HealthCheck(m: Manager, pingSucceeds: bool): (h: Health)
    ensures h == Healthy <==> m.connected && pingSucceeds
  {
    if m.connected && pingSucceeds then Healthy else Degraded
  }

  /** What the memoising decorator digests: the function name, the `str()` of the
      positional arguments and `sorted(kwargs.items())`. */
  datatype KeyData = KeyData(func: string, args: seq<string>, kwargs: seq<KwArgs.Pair>)

  function MemoKey(func: string, args: seq<string>, kwargs: seq<KwArgs.Pair>, digest: KeyData -> string): string {
    digest(KeyData(func, args, KwArgs.SortPairs(kwargs)))
  }

  datatype Call = Call(m: Manager, result: Value, called: bool)

  /** `cache_decorator(cache_type, ttl)` applied to a function whose result on this
      call would be `computed`. */
  function Memoize(m: Manager, func: string, args: seq<string>, kwargs: seq<KwArgs.Pair>,
                   cacheType: string, ttl: Option<int>, computed: Value,
                   digest: KeyData -> string, now: int): (c: Call)
    ensures c.called ==> c.result == computed
    ensures !c.called ==> c.result != Null
    ensures c.called <==> Get(m, MemoKey(func, args, kwargs, digest), cacheType, now).r == Null
  {
    var key := MemoKey(func, args, kwargs, digest);
    var got := Get(m, key, cacheType, now);
    if got.r != Null then Call(got.m, got.r, false)
    else Call(Set(got.m, key, computed, ttl, cacheType, now).m, computed, true)
  }

  // ---------------------------------------------------------------------
  // Laws of the cache

  /** A type outside the table (including "default") contributes no prefix. */
  lemma UnknownTypeHasNoPrefix(key: string, cacheType: string)
    requires Lookup(cacheType).None?
    ensures CacheKey(key, cacheType) == "tou_connect:" + key
  {
  }

  lemma DefaultTypeHasNoPrefix(key: string)
    ensures CacheKey(key, "default") == "tou_connect:" + key
  {
    assert Lookup("default").None?;
  }

  /** Within one type, distinct keys never share a Redis key. */
  lemma CacheKeyInjective(k1: string, k2: string, cacheType: string)
    requires CacheKey(k1, cacheType) == CacheKey(k2, cacheType)
    ensures k1 == k2
  {
    var n := |KeyPrefix + TypePrefix(cacheType)|;
    assert CacheKey(k1, cacheType)[n..] == k1;
    assert CacheKey(k2, cacheType)[n..] == k2;
  }

  lemma {:induction false} FindStrategyPositive(table: seq<Strategy>, cacheType: string)
    requires forall i :: 0 <= i < |table| ==> table[i].ttl > 0
    ensures FindStrategy(table, cacheType).Some? ==> FindStrategy(table, cacheType).value.ttl > 0
    decreases |table|
  {
    if |table| > 0 && table[0].name != cacheType {
      FindStrategyPositive(table[1..], cacheType);
    }
  }

  /** A TTL of 0 is falsy and silently falls back to the type's TTL, which is positive. */
  lemma ZeroTtlFallsBack(cacheType: string)
    ensures EffectiveTtl(Some(0), cacheType) == EffectiveTtl(None, cacheType) == TypeTtl(cacheType)
    ensures TypeTtl(cacheType) > 0
  {
    FindStrategyPositive(Strategies, cacheType);
  }

  /** While disconnected nothing changes and every operation answers False or None. */
  lemma DisconnectedIsInert(m: Manager, key: string, v: Value, ttl: Option<int>, cacheType: string,
                            clearType: Option<string>, pingSucceeds: bool, now: int)
    requires !m.connected
    ensures Set(m, key, v, ttl, cacheType, now) == Outcome(m, false)
    ensures Get(m, key, cacheType, now) == Outcome(m, Null)
    ensures Delete(m, key, cacheType, now) == Outcome(m, false)
    ensures !Exists(m, key, cacheType, now)
    ensures Clear(m, clearType) == Outcome(m, false)
    ensures HealthCheck(m, pingSucceeds) == Degraded
  {
  }

  /** A JSON-encodable value reads back from the plain slot until it expires. */
  lemma SetThenGetPlain(m: Manager, key: string, v: Value, ttl: Option<int>, cacheType: string, now: int, later: int)
    requires m.connected && Encodable(v)
    requires now <= later < now + EffectiveTtl(ttl, cacheType)
    ensures Get(Set(m, key, v, ttl, cacheType, now).m, key, cacheType, later).r == v
  {
  }

  /** A JSON-encodable value is written to the plain slot with the effective TTL. */
  lemma SetStoresPlain(m: Manager, key: string, v: Value, ttl: Option<int>, cacheType: string, now: int)
    requires m.connected && Encodable(v) && EffectiveTtl(ttl, cacheType) > 0
    ensures Set(m, key, v, ttl, cacheType, now).m.store
            == m.store[CacheKey(key, cacheType) := Entry(Encoded(v), JsonSlot, now + EffectiveTtl(ttl, cacheType))]
  {
  }

  /** Any other picklable value reads back from the `:pickle` slot, provided the
      plain slot holds nothing live. */
  lemma SetThenGetPickle(m: Manager, key: string, v: Value, ttl: Option<int>, cacheType: string, now: int, later: int)
    requires m.connected && !Encodable(v) && Picklable(v)
    requires now <= later < now + EffectiveTtl(ttl, cacheType)
    requires !Live(m.store, CacheKey(key, cacheType), later)
    ensures Get(Set(m, key, v, ttl, cacheType, now).m, key, cacheType, later).r == v
  {
    var ck := CacheKey(key, cacheType);
    assert ck + PickleSuffix != ck;
  }

  /** A live plain entry shadows a later write that went to the `:pickle` slot. */
  lemma PlainShadowsPickle(m: Manager, key: string, v: Value, w: Value, ttl: Option<int>, cacheType: string,
                           now: int, later: int)
    requires m.connected && !Encodable(v)
    requires Live(m.store, CacheKey(key, cacheType), later)
    requires m.store[CacheKey(key, cacheType)].payload == Encoded(w) && m.store[CacheKey(key, cacheType)].fmt == JsonSlot
    ensures Get(Set(m, key, v, ttl, cacheType, now).m, key, cacheType, later).r == w
  {
    var ck := CacheKey(key, cacheType);
    assert ck + PickleSuffix != ck;
  }

  /** A live entry that does not decode counts a hit, removes both slots and reads as None. */
  lemma CorruptEntryIsDropped(m: Manager, key: string, cacheType: string, now: int)
    requires m.connected
    requires Live(m.store, CacheKey(key, cacheType), now)
    requires m.store[CacheKey(key, cacheType)].payload == Corrupt
    ensures Get(m, key, cacheType, now).r == Null
    ensures Get(m, key, cacheType, now).m.stats == m.stats.(hits := m.stats.hits + 1, deletes := m.stats.deletes + 1)
    ensures !Exists(Get(m, key, cacheType, now).m, key, cacheType, now)
  {
  }

  /** A live plain-slot entry written as pickle hex does not decode as JSON: it
      counts a hit, removes both slots and reads as None. */
  lemma CrossSlotEntryIsDropped(m: Manager, key: string, cacheType: string, now: int)
    requires m.connected
    requires Live(m.store, CacheKey(key, cacheType), now)
    requires m.store[CacheKey(key, cacheType)].fmt == PickleSlot
    ensures Get(m, key, cacheType, now).r == Null
    ensures Get(m, key, cacheType, now).m.stats == m.stats.(hits := m.stats.hits + 1, deletes := m.stats.deletes + 1)
    ensures !Exists(Get(m, key, cacheType, now).m, key, cacheType, now)
  {
  }

  /** The `:pickle` slot of `key` is the plain slot of `key + ":pickle"`. */
  lemma PickleSlotIsPlainSlot(key: string, cacheType: string)
    ensures CacheKey(key, cacheType) + PickleSuffix == CacheKey(key + PickleSuffix, cacheType)
  {
  }

  /** A value pickled under `key` is not handed back by `get(key + ":pickle")`:
      that read finds the pickle hex in its plain slot, fails `json.loads`,
      deletes the entry and answers None. */
  lemma PickledNotReadAsPlain(m: Manager, key: string, v: Value, ttl: Option<int>, cacheType: string,
                              now: int, later: int)
    requires m.connected && !Encodable(v) && Picklable(v)
    requires now <= later < now + EffectiveTtl(ttl, cacheType)
    ensures Get(Set(m, key, v, ttl, cacheType, now).m, key + PickleSuffix, cacheType, later).r == Null
    ensures !Exists(Get(Set(m, key, v, ttl, cacheType, now).m, key + PickleSuffix, cacheType, later).m,
                    key + PickleSuffix, cacheType, later)
  {
    PickleSlotIsPlainSlot(key, cacheType);
    var m1 := Set(m, key, v, ttl, cacheType, now).m;
    CrossSlotEntryIsDropped(m1, key + PickleSuffix, cacheType, later);
  }

  /** A JSON value stored under `key + ":pickle"` is not handed back by `get(key)`
      when the plain slot is empty: the read finds JSON text in the `:pickle`
      slot, fails `pickle.loads`, deletes the entry and answers None. */
  lemma PlainNotReadAsPickled(m: Manager, key: string, v: Value, ttl: Option<int>, cacheType: string,
                              now: int, later: int)
    requires m.connected && Encodable(v)
    requires now <= later < now + EffectiveTtl(ttl, cacheType)
    requires !Live(m.store, CacheKey(key, cacheType), later)
    ensures Get(Set(m, key + PickleSuffix, v, ttl, cacheType, now).m, key, cacheType, later).r == Null
  {
    PickleSlotIsPlainSlot(key, cacheType);
    var ck := CacheKey(key, cacheType);
    assert ck + PickleSuffix != ck;
  }

  /** An absent key is a miss that changes nothing else. */
  lemma MissChangesOnlyMisses(m: Manager, key: string, cacheType: string, now: int)
    requires m.connected
    requires !Exists(m, key, cacheType, now)
    ensures Get(m, key, cacheType, now) == Outcome(m.(stats := m.stats.(misses := m.stats.misses + 1)), Null)
  {
  }

  /** The keyword order of a call never changes its memo key. */
  lemma MemoKeyIgnoresKeywordOrder(func: string, args: seq<string>, p: seq<KwArgs.Pair>, q: seq<KwArgs.Pair>,
                                   digest: KeyData -> string)
    requires KwArgs.DistinctNames(p) && KwArgs.DistinctNames(q) && multiset(p) == multiset(q)
    ensures MemoKey(func, args, p, digest) == MemoKey(func, args, q, digest)
  {
    KwArgs.SortPairsOrderIndependent(p, q);
  }

  /** Calling a memoised function twice at the same instant runs it at most once:
      the second call is served what the first returned, whenever that was not None. */
  lemma MemoizeTwice(m: Manager, func: string, args: seq<string>, kwargs: seq<KwArgs.Pair>,
                     cacheType: string, ttl: Option<int>, first: Value, second: Value,
                     digest: KeyData -> string, now: int)
    requires m.connected && Encodable(first) && EffectiveTtl(ttl, cacheType) > 0
    requires Memoize(m, func, args, kwargs, cacheType, ttl, first, digest, now).result != Null
    ensures var c1 := Memoize(m, func, args, kwargs, cacheType, ttl, first, digest, now);
            var c2 := Memoize(c1.m, func, args, kwargs, cacheType, ttl, second, digest, now);
            !c2.called && c2.result == c1.result
  {
    var key := MemoKey(func, args, kwargs, digest);
    var got := Get(m, key, cacheType, now);
    var ck := CacheKey(key, cacheType);
    assert ck + PickleSuffix != ck;
    if got.r == Null {
      SetThenGetPlain(got.m, key, first, ttl, cacheType, now, now);
    }
  }

  /** A memoised function whose result is None runs again on the next call. */
  lemma MemoizeNoneRunsAgain(m: Manager, func: string, args: seq<string>, kwargs: seq<KwArgs.Pair>,
                             cacheType: string, ttl: Option<int>, second: Value,
                             digest: KeyData -> string, now: int)
    requires m.connected && EffectiveTtl(ttl, cacheType) > 0
    requires !Exists(m, MemoKey(func, args, kwargs, digest), cacheType, now)
    ensures var c1 := Memoize(m, func, args, kwargs, cacheType, ttl, Null, digest, now);
            c1.called && Memoize(c1.m, func, args, kwargs, cacheType, ttl, second, digest, now).called
  {
    var key := MemoKey(func, args, kwargs, digest);
    SetThenGetPlain(Get(m, key, cacheType, now).m, key, Null, ttl, cacheType, now, now);
  }

  /** The table's lookup spelled out entry by entry. */
  lemma LookupTable(cacheType: string)
    ensures Lookup(cacheType) ==
      if cacheType == "user_data" then Some(Strategy("user_data", 1800, "user:"))
      else if cacheType == "analysis_results" then Some(Strategy("analysis_results", 7200, "analysis:"))
      else if cacheType == "matching_results" then Some(Strategy("matching_results", 3600, "match:"))
      else if cacheType == "api_responses" then Some(Strategy("api_responses", 300, "api:"))
      else if cacheType == "session_data" then Some(Strategy("session_data", 86400, "session:"))
      else if cacheType == "static_content" then Some(Strategy("static_content", 86400, "static:"))
      else None
  {
    var t := Strategies;
    assert t[1..][1..][1..][1..][1..][1..] == [];
  }

  lemma DifferAt(a: string, b: string, i: int)
    requires 0 <= i < |a| && i < |b| && a[i] != b[i]
    ensures !IsPrefix(a, b) && !IsPrefix(b, a)
  {
  }

  /** No type prefix is a prefix of another type's prefix. */
  lemma PrefixesArePrefixFree(t1: string, t2: string)
    requires Lookup(t1).Some? && Lookup(t2).Some? && t1 != t2
    ensures !IsPrefix(TypePrefix(t1), TypePrefix(t2)) && !IsPrefix(TypePrefix(t2), TypePrefix(t1))
  {
    LookupTable(t1);
    LookupTable(t2);
    var p1 := TypePrefix(t1);
    var p2 := TypePrefix(t2);
    if p1[0] != p2[0] {
      DifferAt(p1, p2, 0);
    } else {
      DifferAt(p1, p2, 1);
    }
  }

  lemma CommonPrefix(p1: string, p2: string, k: string)
    requires IsPrefix(p1, p2 + k)
    ensures IsPrefix(p1, p2) || IsPrefix(p2, p1)
  {
    if |p1| <= |p2| {
      assert p2[..|p1|] == (p2 + k)[..|p1|];
    } else {
      assert p1[..|p2|] == (p2 + k)[..|p1|][..|p2|];
    }
  }

  lemma NotUnderOtherPrefix(p1: string, p2: string, key: string)
    requires !IsPrefix(p1, p2) && !IsPrefix(p2, p1)
    ensures !IsPrefix(KeyPrefix + p1, KeyPrefix + p2 + key)
  {
    if IsPrefix(KeyPrefix + p1, KeyPrefix + p2 + key) {
      StripNamespace(p1, p2 + key);
      CommonPrefix(p1, p2, key);
    }
  }

  lemma StripNamespace(p: string, s: string)
    requires IsPrefix(KeyPrefix + p, KeyPrefix + s)
    ensures IsPrefix(p, s)
  {
    var n := |KeyPrefix|;
    assert (KeyPrefix + s)[..|KeyPrefix + p|][n..] == s[..|p|];
    assert (KeyPrefix + p)[n..] == p;
  }

  /** Clearing one type never touches the keys of another type. */
  lemma ClearByTypeIsolated(m: Manager, t1: string, t2: string, key: string)
    requires m.connected
    requires Lookup(t1).Some? && Lookup(t2).Some? && t1 != t2
    requires CacheKey(key, t2) in m.store
    ensures CacheKey(key, t2) in Clear(m, Some(t1)).m.store
  {
    PrefixesArePrefixFree(t1, t2);
    NotUnderOtherPrefix(TypePrefix(t1), TypePrefix(t2), key);
    LookupTable(t1);
    assert ClearPattern(Some(t1)) == KeyPrefix + TypePrefix(t1);
  }

  /** Clearing without a type (or with an unknown one) removes the whole
      `tou_connect:` namespace and nothing outside it. */
  lemma ClearAllIsNamespace(m: Manager, cacheType: Option<string>, k: string)
    requires m.connected
    requires cacheType.None? || cacheType.value == "" || Lookup(cacheType.value).None?
    ensures k in Clear(m, cacheType).m.store <==> k in m.store && !IsPrefix("tou_connect:", k)
  {
  }
}

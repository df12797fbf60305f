/** The cache-aside helpers of cache/cache_integration_examples.py. They reach
    the cache through the factory, read first, fall back to the loader and
    store only truthy results. The loader's result for this call is an
    argument (`loaded`); `called` says whether it ran. */
module CacheIntegration {
  import opened Wrappers
  import opened Text
  import opened Json
  import KwArgs
  import CM = CacheManager
  import CS = CacheStrategies
  import CF = CacheFactory

  datatype Served = Served(f: CF.Factory, result: Value, called: bool)

  /** The manager of a factory that has the strategy `name` registered. */
  predicate HasStrategy(f: CF.Factory, name: string) {
    CF.GetStrategy(f, name).Some? && f.manager.Some?
  }

  /** Registered strategies only exist together with a manager. */
  predicate WellFormed(f: CF.Factory) {
    f.manager.None? ==> f.strategies == []
  }

  /** `cache_user_profile(cache_time)` around a loader, and the
      `CachedUserService.get_user_*` readers: a truthy cached record is served,
      otherwise the loader runs and a truthy result is stored under user_data.
      `cache_time` is accepted but never used. */
  function UserReadThrough(f: CF.Factory, userId: int, part: CS.UserPart, loaded: Value, now: int): (s: Served)
    requires WellFormed(f)
    ensures !s.called ==> Truthy(s.result) && HasStrategy(f, "user_data")
    ensures s.called ==> s.result == loaded
    ensures !HasStrategy(f, "user_data") ==> s == Served(f, loaded, true)
    ensures HasStrategy(f, "user_data") ==>
      (s.called <==> !Truthy(CS.GetUserData(f.manager.value, userId, part, now).r))
    ensures s.f.strategies == f.strategies && s.f.environment == f.environment
  {
    if !HasStrategy(f, "user_data") then Served(f, loaded, true)
    else
      var got := CS.GetUserData(f.manager.value, userId, part, now);
      if Truthy(got.r) then Served(f.(manager := Some(got.m)), got.r, false)
      else if Truthy(loaded) then
        Served(f.(manager := Some(CS.SetUserData(got.m, userId, part, loaded, now).m)), loaded, true)
      else Served(f.(manager := Some(got.m)), loaded, true)
  }

  /** `cache_user_profile` is `UserReadThrough` on the profile record; its
      `cache_time` is accepted and never used. */
  function CacheUserProfile(f: CF.Factory, cacheTime: int, userId: int, loaded: Value, now: int): (s: Served)
    requires WellFormed(f)
    ensures s.called ==> s.result == loaded
    ensures !s.called ==> HasStrategy(f, "user_data") && Truthy(s.result)
                          && s.result == CS.GetUserData(f.manager.value, userId, CS.Profile, now).r
  {
    UserReadThrough(f, userId, CS.Profile, loaded, now)
  }

  /** A profile loaded once is served from the cache on the next call, for the
      30 minutes of the user_data TTL. */
  lemma UserProfileServedFromCache(f: CF.Factory, userId: int, first: Value, second: Value, now: int, later: int)
    requires WellFormed(f) && HasStrategy(f, "user_data") && f.manager.value.connected
    requires Truthy(first) && Encodable(first)
    requires !Truthy(CS.GetUserData(f.manager.value, userId, CS.Profile, now).r)
    requires now <= later < now + 1800
    ensures var s1 := UserReadThrough(f, userId, CS.Profile, first, now);
            var s2 := UserReadThrough(s1.f, userId, CS.Profile, second, later);
            s1.called && !s2.called && s2.result == first
  {
    var got := CS.GetUserData(f.manager.value, userId, CS.Profile, now);
    CS.UserDataRoundTrip(got.m, userId, CS.Profile, first, now, later);
  }

  /** A falsy cached record (an empty dict, say) is a miss to these helpers: the
      loader runs again even though Redis counted a hit. */
  lemma FalsyCachedRecordReloads(f: CF.Factory, userId: int, part: CS.UserPart, loaded: Value, now: int)
    requires WellFormed(f) && HasStrategy(f, "user_data") && f.manager.value.connected
    requires CM.Live(f.manager.value.store, CM.CacheKey(CS.UserKey(userId, part), "user_data"), now)
    requires f.manager.value.store[CM.CacheKey(CS.UserKey(userId, part), "user_data")].payload == CM.Encoded(Obj([]))
    ensures UserReadThrough(f, userId, part, loaded, now).called
    ensures CS.GetUserData(f.manager.value, userId, part, now).m.stats.hits == f.manager.value.stats.hits + 1
  {
  }

  /** `cache_analysis_result(cache_time)`: keyed on a digest of the name, the
      arguments and the sorted keyword arguments, under analysis_results, with
      `cache_time` as the TTL. */
  function CacheAnalysisResult(f: CF.Factory, cacheTime: int, func: string, args: seq<string>,
                               kwargs: seq<KwArgs.Pair>, loaded: Value, digest: CM.KeyData -> string,
                               now: int): (s: Served)
    requires WellFormed(f)
    ensures !s.called ==> Truthy(s.result) && HasStrategy(f, "analysis_results")
    ensures s.called ==> s.result == loaded
    ensures !HasStrategy(f, "analysis_results") ==> s == Served(f, loaded, true)
    ensures HasStrategy(f, "analysis_results") ==>
      (s.called <==> !Truthy(CM.Get(f.manager.value, CM.MemoKey(func, args, kwargs, digest), "analysis_results", now).r))
  {
    if !HasStrategy(f, "analysis_results") then Served(f, loaded, true)
    else
      var key := CM.MemoKey(func, args, kwargs, digest);
      var got := CM.Get(f.manager.value, key, "analysis_results", now);
      if Truthy(got.r) then Served(f.(manager := Some(got.m)), got.r, false)
      else if Truthy(loaded) then
        Served(f.(manager := Some(CM.Set(got.m, key, loaded, Some(cacheTime), "analysis_results", now).m)), loaded, true)
      else Served(f.(manager := Some(got.m)), loaded, true)
  }

  /** An analysis result is kept for `cache_time` seconds rather than the type's
      two hours, and the keyword order of the call does not matter. */
  lemma AnalysisResultKeptForCacheTime(f: CF.Factory, cacheTime: int, func: string, args: seq<string>,
                                       p: seq<KwArgs.Pair>, q: seq<KwArgs.Pair>, first: Value, second: Value,
                                       digest: CM.KeyData -> string, now: int, later: int)
    requires WellFormed(f) && HasStrategy(f, "analysis_results") && f.manager.value.connected
    requires KwArgs.DistinctNames(p) && KwArgs.DistinctNames(q) && multiset(p) == multiset(q)
    requires Truthy(first) && Encodable(first) && cacheTime > 0
    requires !CM.Exists(f.manager.value, CM.MemoKey(func, args, p, digest), "analysis_results", now)
    requires now <= later < now + cacheTime
    ensures var s1 := CacheAnalysisResult(f, cacheTime, func, args, p, first, digest, now);
            var s2 := CacheAnalysisResult(s1.f, cacheTime, func, args, q, second, digest, later);
            s1.called && !s2.called && s2.result == first
  {
    var key := CM.MemoKey(func, args, p, digest);
    CM.MemoKeyIgnoresKeywordOrder(func, args, p, q, digest);
    CM.MissChangesOnlyMisses(f.manager.value, key, "analysis_results", now);
    var got := CM.Get(f.manager.value, key, "analysis_results", now);
    CM.SetThenGetPlain(got.m, key, first, Some(cacheTime), "analysis_results", now, later);
  }

  /** `CachedAnalysisService.get_twitter_analysis`: a truthy result is stamped
      and stored by the analysis strategy. The stamp is written into the
      caller's dict, so the analysis returned after storing carries it too. */
  function TwitterAnalysisReadThrough(f: CF.Factory, username: string, loaded: seq<Field>, stamp: string, now: int)
    : (s: Served)
    requires WellFormed(f)
    ensures !s.called ==> Truthy(s.result)
    ensures s.called ==> s.result == if HasStrategy(f, "analysis_results") && |loaded| > 0
                                      then Obj(CS.Stamped(loaded, stamp)) else Obj(loaded)
    ensures HasStrategy(f, "analysis_results") ==>
      (s.called <==> !Truthy(CS.GetTwitterAnalysis(f.manager.value, username, now).r))
  {
    if !HasStrategy(f, "analysis_results") then Served(f, Obj(loaded), true)
    else
      var got := CS.GetTwitterAnalysis(f.manager.value, username, now);
      if Truthy(got.r) then Served(f.(manager := Some(got.m)), got.r, false)
      else if |loaded| > 0 then
        Served(f.(manager := Some(CS.SetTwitterAnalysis(got.m, username, loaded, stamp, now).m)), Obj(CS.Stamped(loaded, stamp)), true)
      else Served(f.(manager := Some(got.m)), Obj(loaded), true)
  }

  /** `CachedAnalysisService.get_user_analysis` */
  function UserAnalysisReadThrough(f: CF.Factory, userId: int, loaded: seq<Field>, stamp: string, now: int)
    : (s: Served)
    requires WellFormed(f)
    ensures !s.called ==> Truthy(s.result)
    ensures s.called ==> s.result == if HasStrategy(f, "analysis_results") && |loaded| > 0
                                      then Obj(CS.Stamped(loaded, stamp)) else Obj(loaded)
    ensures HasStrategy(f, "analysis_results") ==>
      (s.called <==> !Truthy(CS.GetUserAnalysis(f.manager.value, userId, now).r))
  {
    if !HasStrategy(f, "analysis_results") then Served(f, Obj(loaded), true)
    else
      var got := CS.GetUserAnalysis(f.manager.value, userId, now);
      if Truthy(got.r) then Served(f.(manager := Some(got.m)), got.r, false)
      else if |loaded| > 0 then
        Served(f.(manager := Some(CS.SetUserAnalysis(got.m, userId, loaded, stamp, now).m)), Obj(CS.Stamped(loaded, stamp)), true)
      else Served(f.(manager := Some(got.m)), Obj(loaded), true)
  }

  /** The Twitter analysis served on the second call carries the stamp of the
      call that stored it. */
  lemma TwitterAnalysisServedWithStamp(f: CF.Factory, username: string, first: seq<Field>, second: seq<Field>,
                                       stamp1: string, stamp2: string, now: int, later: int)
    requires WellFormed(f) && HasStrategy(f, "analysis_results") && f.manager.value.connected
    requires |first| > 0 && Encodable(Obj(first))
    requires !Truthy(CS.GetTwitterAnalysis(f.manager.value, username, now).r)
    requires now <= later < now + 7200
    ensures var s1 := TwitterAnalysisReadThrough(f, username, first, stamp1, now);
            var s2 := TwitterAnalysisReadThrough(s1.f, username, second, stamp2, later);
            !s2.called && s2.result.Obj? && Get(s2.result.fields, "cached_at") == Some(Str(stamp1))
  {
    var got := CS.GetTwitterAnalysis(f.manager.value, username, now);
    CS.TwitterAnalysisRoundTrip(got.m, username, first, stamp1, now, later);
  }

  /** The six Redis keys that hold a user's three records. */
  predicate IsUserRecordKey(k: string, userId: int) {
    exists p: CS.UserPart :: k == CM.CacheKey(CS.UserKey(userId, p), "user_data") ||
                             k == CM.CacheKey(CS.UserKey(userId, p), "user_data") + CM.PickleSuffix
  }

  /** The two Redis slots (JSON and pickle) of a cache key. */
  predicate IsSlot(k: string, key: string, cacheType: string) {
    k == CM.CacheKey(key, cacheType) || k == CM.CacheKey(key, cacheType) + CM.PickleSuffix
  }

  /** Three deletes in a row: none of the three keys is left, nothing else moves. */
  function DeleteThree(m: CM.Manager, a: string, b: string, c: string, cacheType: string, now: int)
    : (r: CM.Manager)
    ensures r.connected == m.connected
    ensures m.connected ==>
      !CM.Exists(r, a, cacheType, now) && !CM.Exists(r, b, cacheType, now) && !CM.Exists(r, c, cacheType, now)
    ensures forall k :: !IsSlot(k, a, cacheType) && !IsSlot(k, b, cacheType) && !IsSlot(k, c, cacheType) ==>
      (k in r.store <==> k in m.store) && (k in m.store ==> r.store[k] == m.store[k])
  {
    var o1 := CM.Delete(m, a, cacheType, now);
    var o2 := CM.Delete(o1.m, b, cacheType, now);
    var o3 := CM.Delete(o2.m, c, cacheType, now);
    o3.m
  }

  /** Both slots of each of the user's three records are user record keys. */
  lemma RecordKeySlots(userId: int)
    ensures forall k, p: CS.UserPart :: IsSlot(k, CS.UserKey(userId, p), "user_data") ==> IsUserRecordKey(k, userId)
  {
    forall k, p: CS.UserPart | IsSlot(k, CS.UserKey(userId, p), "user_data")
      ensures IsUserRecordKey(k, userId)
    {
    }
  }

  /** With the profile, interests and skills keys gone, no part of the user is cached. */
  lemma AllPartsGone(m: CM.Manager, userId: int, now: int)
    ensures !CM.Exists(m, CS.UserKey(userId, CS.Profile), "user_data", now) &&
            !CM.Exists(m, CS.UserKey(userId, CS.Interests), "user_data", now) &&
            !CM.Exists(m, CS.UserKey(userId, CS.Skills), "user_data", now) ==>
            forall p: CS.UserPart :: !CM.Exists(m, CS.UserKey(userId, p), "user_data", now)
  {
    if !CM.Exists(m, CS.UserKey(userId, CS.Profile), "user_data", now) &&
       !CM.Exists(m, CS.UserKey(userId, CS.Interests), "user_data", now) &&
       !CM.Exists(m, CS.UserKey(userId, CS.Skills), "user_data", now) {
      forall p: CS.UserPart
        ensures !CM.Exists(m, CS.UserKey(userId, p), "user_data", now)
      {
        match p
        case Profile =>
        case Interests =>
        case Skills =>
      }
    }
  }

  /** `CachedUserService.invalidate_user_cache`: deletes the profile, interests
      and skills records of the user under user_data. */
  function InvalidateUserCache(f: CF.Factory, userId: int, now: int): (r: CF.Factory)
    requires WellFormed(f)
    ensures !HasStrategy(f, "user_data") ==> r == f
    ensures HasStrategy(f, "user_data") && f.manager.value.connected ==>
      r.manager.Some? && forall p: CS.UserPart :: !CM.Exists(r.manager.value, CS.UserKey(userId, p), "user_data", now)
    ensures HasStrategy(f, "user_data") ==> (r.manager.Some? &&
      forall k :: !IsUserRecordKey(k, userId) ==>
        (k in r.manager.value.store <==> k in f.manager.value.store) &&
        (k in f.manager.value.store ==> r.manager.value.store[k] == f.manager.value.store[k]))
  {
    if !HasStrategy(f, "user_data") then f
    else
      var m := DeleteThree(f.manager.value, CS.UserKey(userId, CS.Profile), CS.UserKey(userId, CS.Interests),
                           CS.UserKey(userId, CS.Skills), "user_data", now);
      RecordKeySlots(userId);
      AllPartsGone(m, userId, now);
      f.(manager := Some(m))
  }
}

/** The per-domain cache strategies of cache/cache_strategies.py. Each one is a
    fixed key format plus a call into the manager with a cache type and an
    optional TTL. Timestamps written into cached records are an explicit
    `stamp` argument (the ISO text of the current time). */
module CacheStrategies {
  import opened Wrappers
  import opened Text
  import opened Json
  import KwArgs
  import CM = CacheManager
  import CacheConfig

  // ---------------------------------------------------------------------
  // UserDataCacheStrategy

  const UserDataType: string := "user_data"

  datatype UserPart = Profile | Interests | Skills

  function PartName(p: UserPart): string {
    match p
    case Profile => "profile"
    case Interests => "interests"
    case Skills => "skills"
  }

  /** `f"user:{user_id}:{part}"` */
  function UserKey(userId: int, part: UserPart): string {
    "user:" + IntToStr(userId) + ":" + PartName(part)
  }

  /** `get_user_profile` / `get_user_interests` / `get_user_skills` */
  function GetUserData(m: CM.Manager, userId: int, part: UserPart, now: int): CM.Outcome<Value> {
    CM.Get(m, UserKey(userId, part), UserDataType, now)
  }

  /** `set_user_profile` / `set_user_interests` / `set_user_skills`: stored under
      the user_data type, whose prefix is added on top of the key's own `user:`. */
  function SetUserData(m: CM.Manager, userId: int, part: UserPart, data: Value, now: int): (o: CM.Outcome<bool>)
    ensures o.r <==> m.connected && Picklable(data)
    ensures o.r && Encodable(data) ==>
      CM.Live(o.m.store, "tou_connect:user:user:" + IntToStr(userId) + ":" + PartName(part), now) &&
      o.m.store["tou_connect:user:user:" + IntToStr(userId) + ":" + PartName(part)].expiry == now + 1800
  {
    EncodableIsPicklable(data);
    var k := UserKey(userId, part);
    UserCacheKey(userId, part);
    if m.connected && Encodable(data) then
      CM.SetStoresPlain(m, k, data, None, UserDataType, now);
      CM.Set(m, k, data, None, UserDataType, now)
    else CM.Set(m, k, data, None, UserDataType, now)
  }

  /** The stored key carries the type prefix and the key's own `user:`, and
      the type's TTL is 30 minutes. */
  lemma UserCacheKey(userId: int, part: UserPart)
    ensures CM.CacheKey(UserKey(userId, part), UserDataType)
            == "tou_connect:user:user:" + IntToStr(userId) + ":" + PartName(part)
    ensures CM.EffectiveTtl(None, UserDataType) == 1800
  {
    CM.LookupTable(UserDataType);
    var i := IntToStr(userId);
    calc {
      CM.CacheKey(UserKey(userId, part), UserDataType);
      "tou_connect:" + "user:" + ("user:" + i + ":" + PartName(part));
      "tou_connect:user:user:" + i + ":" + PartName(part);
    }
  }

  /** The three records of one user never share a key. */
  lemma UserPartsDistinct(userId: int, p: UserPart, q: UserPart)
    requires p != q
    ensures UserKey(userId, p) != UserKey(userId, q)
  {
    var n := |"user:" + IntToStr(userId) + ":"|;
    assert UserKey(userId, p)[n..] == PartName(p);
    assert UserKey(userId, q)[n..] == PartName(q);
  }

  /** The strategy's keys are exactly the ones `CacheKeyGenerator` builds. */
  lemma UserKeysMatchGenerator(userId: int)
    ensures UserKey(userId, Profile) == CacheConfig.UserProfile(userId)
    ensures UserKey(userId, Interests) == CacheConfig.UserInterests(userId)
    ensures UserKey(userId, Skills) == CacheConfig.UserSkills(userId)
  {
    var head := "user:" + IntToStr(userId);
    JoinSuffix(head, ":", "profile", ":profile");
    JoinSuffix(head, ":", "interests", ":interests");
    JoinSuffix(head, ":", "skills", ":skills");
  }

  /** Appending two pieces one after the other appends their join. */
  lemma JoinSuffix(head: string, a: string, b: string, ab: string)
    requires ab == a + b
    ensures head + a + b == head + ab
  {
  }

  /** What a user setter stores reads back for the 30 minutes of the user_data TTL. */
  lemma UserDataRoundTrip(m: CM.Manager, userId: int, part: UserPart, data: Value, now: int, later: int)
    requires m.connected && Encodable(data)
    requires now <= later < now + 1800
    ensures GetUserData(SetUserData(m, userId, part, data, now).m, userId, part, later).r == data
  {
    CM.LookupTable(UserDataType);
    CM.SetThenGetPlain(m, UserKey(userId, part), data, None, UserDataType, now, later);
  }

  // ---------------------------------------------------------------------
  // AnalysisResultsCacheStrategy

  const AnalysisType: string := "analysis_results"

  /** The caller's dict after `analysis_data['cached_at'] = ...`. */
  function Stamped(data: seq<Field>, stamp: string): (r: seq<Field>)
    ensures Get(r, "cached_at") == Some(Str(stamp))
    ensures forall k :: k != "cached_at" ==> Get(r, k) == Get(data, k)
  {
    forall k ensures Get(Put(data, "cached_at", Str(stamp)), k) ==
      if k == "cached_at" then Some(Str(stamp)) else Get(data, k)
    {
      PutGet(data, "cached_at", Str(stamp), k);
    }
    Put(data, "cached_at", Str(stamp))
  }

  function TwitterAnalysisKey(username: string): string { "analysis:twitter:" + username }
  function UserAnalysisKey(userId: int): string { "analysis:user:" + IntToStr(userId) }
  function GeminiAnalysisKey(contentHash: string): string { "analysis:gemini:" + contentHash }

  /** `set_twitter_analysis`: the record is stamped with `cached_at` first. */
  function SetTwitterAnalysis(m: CM.Manager, username: string, data: seq<Field>, stamp: string, now: int)
    : CM.Outcome<bool>
  {
    CM.Set(m, TwitterAnalysisKey(username), Obj(Stamped(data, stamp)), None, AnalysisType, now)
  }

  function GetTwitterAnalysis(m: CM.Manager, username: string, now: int): CM.Outcome<Value> {
    CM.Get(m, TwitterAnalysisKey(username), AnalysisType, now)
  }

  /** `set_user_analysis` */
  function SetUserAnalysis(m: CM.Manager, userId: int, data: seq<Field>, stamp: string, now: int)
    : CM.Outcome<bool>
  {
    CM.Set(m, UserAnalysisKey(userId), Obj(Stamped(data, stamp)), None, AnalysisType, now)
  }

  function GetUserAnalysis(m: CM.Manager, userId: int, now: int): CM.Outcome<Value> {
    CM.Get(m, UserAnalysisKey(userId), AnalysisType, now)
  }

  /** `set_gemini_analysis`: four hours instead of the type's two. */
  function SetGeminiAnalysis(m: CM.Manager, contentHash: string, data: Value, now: int): CM.Outcome<bool> {
    CM.Set(m, GeminiAnalysisKey(contentHash), data, Some(14400), AnalysisType, now)
  }

  function GetGeminiAnalysis(m: CM.Manager, contentHash: string, now: int): CM.Outcome<Value> {
    CM.Get(m, GeminiAnalysisKey(contentHash), AnalysisType, now)
  }

  /** A Twitter analysis reads back with the stamp it was stored with and every
      other field unchanged, for the two hours of the analysis TTL. */
  lemma TwitterAnalysisRoundTrip(m: CM.Manager, username: string, data: seq<Field>, stamp: string,
                                 now: int, later: int)
    requires m.connected && Encodable(Obj(data))
    requires now <= later < now + 7200
    ensures var r := GetTwitterAnalysis(SetTwitterAnalysis(m, username, data, stamp, now).m, username, later).r;
            r.Obj? && Get(r.fields, "cached_at") == Some(Str(stamp)) &&
            forall k :: k != "cached_at" ==> Get(r.fields, k) == Get(data, k)
  {
    StampedEncodable(data, stamp);
    CM.LookupTable(AnalysisType);
    CM.SetThenGetPlain(m, TwitterAnalysisKey(username), Obj(Stamped(data, stamp)), None, AnalysisType, now, later);
  }

  lemma {:induction false} StampedEncodable(data: seq<Field>, stamp: string)
    requires Encodable(Obj(data))
    ensures Encodable(Obj(Stamped(data, stamp)))
  {
    PutEncodable(data, "cached_at", Str(stamp));
  }

  lemma {:induction false} PutEncodable(fields: seq<Field>, key: string, v: Value)
    requires Encodable(Obj(fields)) && Encodable(v)
    ensures Encodable(Obj(Put(fields, key, v)))
    decreases |fields|
  {
    if |fields| > 0 && fields[0].key != key {
      assert Encodable(Obj(fields[1..])) by {
        forall i | 0 <= i < |fields[1..]| ensures Encodable(fields[1..][i].val) {
          assert fields[1..][i] == fields[i + 1];
        }
      }
      PutEncodable(fields[1..], key, v);
      var r := Put(fields, key, v);
      assert r == [fields[0]] + Put(fields[1..], key, v);
      forall i | 0 <= i < |r| ensures Encodable(r[i].val) {
        if i > 0 {
          assert r[i] == Put(fields[1..], key, v)[i - 1];
        }
      }
    }
  }

  /** A Gemini analysis outlives the analysis type's two-hour TTL: it is still
      served at any instant of the four hours after it was written. */
  lemma GeminiOutlivesTypeTtl(m: CM.Manager, contentHash: string, data: Value, now: int, later: int)
    requires m.connected && Encodable(data)
    requires now + 7200 <= later < now + 14400
    ensures GetGeminiAnalysis(SetGeminiAnalysis(m, contentHash, data, now).m, contentHash, later).r == data
  {
    CM.SetThenGetPlain(m, GeminiAnalysisKey(contentHash), data, Some(14400), AnalysisType, now, later);
  }

  // ---------------------------------------------------------------------
  // MatchingResultsCacheStrategy

  /** `f"match:user:{user_id}:limit:{limit}"`, read without a cache type. */
  function UserMatchesKey(userId: int, limit: int): string {
    "match:user:" + IntToStr(userId) + ":limit:" + IntToStr(limit)
  }

  function GetUserMatches(m: CM.Manager, userId: int, limit: int, now: int): CM.Outcome<Value> {
    CM.Get(m, UserMatchesKey(userId, limit), "default", now)
  }

  /** `f"match:similarity:{min_id}:{max_id}"` after `sorted([id1, id2])`. */
  function SimilarityKey(id1: int, id2: int): (k: string)
    ensures k == "match:similarity:" + IntToStr(Min(id1, id2)) + ":" + IntToStr(Max(id1, id2))
  {
    var lo := if id1 <= id2 then id1 else id2;
    var hi := if id1 <= id2 then id2 else id1;
    "match:similarity:" + IntToStr(lo) + ":" + IntToStr(hi)
  }

  /** The record `set_similarity_scores` stores. */
  function SimilarityRecord(id1: int, id2: int, scores: Value, stamp: string): Value {
    Obj([Field("scores", scores), Field("calculated_at", Str(stamp)),
         Field("user_ids", Arr([Num(Min(id1, id2) as real), Num(Max(id1, id2) as real)]))])
  }

  /** `get_similarity_scores`: no cache type, so the key gets no type prefix. */
  function GetSimilarityScores(m: CM.Manager, id1: int, id2: int, now: int): CM.Outcome<Value> {
    CM.Get(m, SimilarityKey(id1, id2), "default", now)
  }

  /** `set_similarity_scores`: six hours, no cache type. */
  function SetSimilarityScores(m: CM.Manager, id1: int, id2: int, scores: Value, stamp: string, now: int)
    : CM.Outcome<bool>
  {
    CM.Set(m, SimilarityKey(id1, id2), SimilarityRecord(id1, id2, scores, stamp), Some(21600), "default", now)
  }

  /** Both similarity operations are symmetric in the two users. */
  lemma SimilaritySymmetric(m: CM.Manager, id1: int, id2: int, scores: Value, stamp: string, now: int)
    ensures GetSimilarityScores(m, id1, id2, now) == GetSimilarityScores(m, id2, id1, now)
    ensures SetSimilarityScores(m, id1, id2, scores, stamp, now) == SetSimilarityScores(m, id2, id1, scores, stamp, now)
  {
  }

  /** Scores stored for (a, b) are read back for (b, a) during the six hours, and
      the record lists the ids in ascending order. */
  lemma SimilarityRoundTrip(m: CM.Manager, id1: int, id2: int, scores: Value, stamp: string, now: int, later: int)
    requires m.connected && Encodable(scores)
    requires now <= later < now + 21600
    ensures var r := GetSimilarityScores(SetSimilarityScores(m, id1, id2, scores, stamp, now).m, id2, id1, later).r;
            r == SimilarityRecord(id1, id2, scores, stamp) && Get(r.fields, "scores") == Some(scores)
  {
    var rec := SimilarityRecord(id1, id2, scores, stamp);
    assert Encodable(rec) by {
      assert forall i :: 0 <= i < |rec.fields[2].val.items| ==> rec.fields[2].val.items[i].Num?;
    }
    CM.SetThenGetPlain(m, SimilarityKey(id1, id2), rec, Some(21600), "default", now, later);
  }

  // ---------------------------------------------------------------------
  // APIResponseCacheStrategy

  function TwitterUserDataKey(username: string): string { "api:twitter:user:" + username }

  function GetTwitterUserData(m: CM.Manager, username: string, now: int): CM.Outcome<Value> {
    CM.Get(m, TwitterUserDataKey(username), "default", now)
  }

  function LearningResourcesKey(category: string, limit: int): string {
    "api:resources:" + category + ":limit:" + IntToStr(limit)
  }

  function GetLearningResources(m: CM.Manager, category: string, limit: int, now: int): CM.Outcome<Value> {
    CM.Get(m, LearningResourcesKey(category, limit), "default", now)
  }

  /** `set_learning_resources`: wraps the list with its category, limit and stamp,
      kept for an hour. */
  function SetLearningResources(m: CM.Manager, category: string, resources: Value, limit: int,
                                stamp: string, now: int): CM.Outcome<bool>
  {
    var rec := Obj([Field("resources", resources), Field("category", Str(category)),
                    Field("limit", Num(limit as real)), Field("cached_at", Str(stamp))]);
    CM.Set(m, LearningResourcesKey(category, limit), rec, Some(3600), "default", now)
  }

  lemma LearningResourcesRoundTrip(m: CM.Manager, category: string, resources: Value, limit: int,
                                   stamp: string, now: int, later: int)
    requires m.connected && Encodable(resources)
    requires now <= later < now + 3600
    ensures var r := GetLearningResources(SetLearningResources(m, category, resources, limit, stamp, now).m,
                                          category, limit, later).r;
            r.Obj? && Get(r.fields, "resources") == Some(resources) && Get(r.fields, "category") == Some(Str(category))
  {
    var rec := Obj([Field("resources", resources), Field("category", Str(category)),
                    Field("limit", Num(limit as real)), Field("cached_at", Str(stamp))]);
    CM.SetThenGetPlain(m, LearningResourcesKey(category, limit), rec, Some(3600), "default", now, later);
  }

  /** What `_generate_api_cache_key` serialises: the name, the positional
      arguments and the sorted keyword arguments. */
  datatype ApiKeyData = ApiKeyData(function_: string, args: seq<string>, kwargs: seq<KwArgs.Pair>)

  /** `_generate_api_cache_key`: `dumps` is `json.dumps(..., sort_keys=True)` and
      `md5Hex` the MD5 hexdigest, of which the first 16 characters are kept. */
  function ApiCacheKey(funcName: string, args: seq<string>, kwargs: seq<KwArgs.Pair>,
                       dumps: ApiKeyData -> string, md5Hex: string -> string): (k: string)
    ensures IsPrefix("api:" + funcName + ":", k)
    ensures |k| <= |funcName| + 5 + 16
    ensures |md5Hex(dumps(ApiKeyData(funcName, args, KwArgs.SortPairs(kwargs))))| >= 16 ==> |k| == |funcName| + 5 + 16
  {
    var hash := md5Hex(dumps(ApiKeyData(funcName, args, KwArgs.SortPairs(kwargs))));
    var k := "api:" + funcName + ":" + Take(hash, 16);
    assert k[..|"api:" + funcName + ":"|] == "api:" + funcName + ":";
    k
  }

  /** Keyword order never changes the API cache key. */
  lemma ApiCacheKeyIgnoresKeywordOrder(funcName: string, args: seq<string>, p: seq<KwArgs.Pair>,
                                       q: seq<KwArgs.Pair>, dumps: ApiKeyData -> string, md5Hex: string -> string)
    requires KwArgs.DistinctNames(p) && KwArgs.DistinctNames(q) && multiset(p) == multiset(q)
    ensures ApiCacheKey(funcName, args, p, dumps, md5Hex) == ApiCacheKey(funcName, args, q, dumps, md5Hex)
  {
    KwArgs.SortPairsOrderIndependent(p, q);
  }

  /** The key has the `CacheKeyGenerator.api_response` shape, with the hash prefix
      as the params hash. */
  lemma ApiCacheKeyIsGeneratorKey(funcName: string, args: seq<string>, kwargs: seq<KwArgs.Pair>,
                                  dumps: ApiKeyData -> string, md5Hex: string -> string)
    ensures ApiCacheKey(funcName, args, kwargs, dumps, md5Hex) ==
      CacheConfig.ApiResponse(funcName, Take(md5Hex(dumps(ApiKeyData(funcName, args, KwArgs.SortPairs(kwargs)))), 16))
  {
  }

  /** `_should_cache_response` */
  function ShouldCache(response: Value): (r: bool)
    ensures !response.Obj? && !response.Arr? ==> r
    ensures (response.Obj? || response.Arr?) && !Truthy(response) ==> !r
    ensures response.Arr? ==> (r <==> Truthy(response))
    ensures response.Obj? ==> (r <==>
      Truthy(response) && !HasKey(response.fields, "error") && Get(response.fields, "status") != Some(Str("error")))
  {
    match response
    case Obj(fields) =>
      if HasKey(fields, "error") || (HasKey(fields, "status") && Get(fields, "status").value == Str("error")) then false
      else if |fields| == 0 then false
      else true
    case Arr(items) => |items| != 0
    case _ => true
  }

  datatype ApiCall = ApiCall(m: CM.Manager, response: Value, called: bool)

  /** `cached_api_response(ttl)` applied to a function whose result on this call
      would be `computed`. The cache is used without a cache type. */
  function CachedApiResponse(m: CM.Manager, funcName: string, args: seq<string>, kwargs: seq<KwArgs.Pair>,
                             ttl: int, computed: Value, dumps: ApiKeyData -> string,
                             md5Hex: string -> string, now: int): (c: ApiCall)
    ensures c.called <==> CM.Get(m, ApiCacheKey(funcName, args, kwargs, dumps, md5Hex), "default", now).r == Null
    ensures c.called ==> c.response == computed
    ensures !c.called ==> c.response != Null
    ensures c.called && !ShouldCache(computed) ==>
      c.m == CM.Get(m, ApiCacheKey(funcName, args, kwargs, dumps, md5Hex), "default", now).m
  {
    var key := ApiCacheKey(funcName, args, kwargs, dumps, md5Hex);
    var got := CM.Get(m, key, "default", now);
    if got.r != Null then ApiCall(got.m, got.r, false)
    else if ShouldCache(computed) then ApiCall(CM.Set(got.m, key, computed, Some(ttl), "default", now).m, computed, true)
    else ApiCall(got.m, computed, true)
  }

  /** A response worth caching is served from the cache on the next call and the
      function does not run again; an error response makes the function run
      again. */
  lemma CachedApiResponseTwice(m: CM.Manager, funcName: string, args: seq<string>, kwargs: seq<KwArgs.Pair>,
                               ttl: int, first: Value, second: Value, dumps: ApiKeyData -> string,
                               md5Hex: string -> string, now: int)
    requires m.connected && Encodable(first) && first != Null && CM.EffectiveTtl(Some(ttl), "default") > 0
    requires !CM.Exists(m, ApiCacheKey(funcName, args, kwargs, dumps, md5Hex), "default", now)
    ensures var c1 := CachedApiResponse(m, funcName, args, kwargs, ttl, first, dumps, md5Hex, now);
            var c2 := CachedApiResponse(c1.m, funcName, args, kwargs, ttl, second, dumps, md5Hex, now);
            c1.called && (ShouldCache(first) ==> !c2.called && c2.response == first) &&
            (!ShouldCache(first) ==> c2.called)
  {
    var key := ApiCacheKey(funcName, args, kwargs, dumps, md5Hex);
    var got := CM.Get(m, key, "default", now);
    CM.MissChangesOnlyMisses(m, key, "default", now);
    if ShouldCache(first) {
      CM.SetThenGetPlain(got.m, key, first, Some(ttl), "default", now, now);
    }
  }

  // ---------------------------------------------------------------------
  // SessionCacheStrategy

  function SessionKey(sessionId: string): string { "session:" + sessionId }

  function GetSessionData(m: CM.Manager, sessionId: string, now: int): CM.Outcome<Value> {
    CM.Get(m, SessionKey(sessionId), "default", now)
  }

  /** `delete_session` */
  function DeleteSession(m: CM.Manager, sessionId: string, now: int): CM.Outcome<bool> {
    CM.Delete(m, SessionKey(sessionId), "default", now)
  }

  /** The analysis and session keys of the strategies are the generator's keys. */
  lemma StrategyKeysMatchGenerator(userId: int, name: string, id1: int, id2: int)
    ensures TwitterAnalysisKey(name) == CacheConfig.TwitterAnalysis(name)
    ensures UserAnalysisKey(userId) == CacheConfig.UserAnalysis(userId)
    ensures GeminiAnalysisKey(name) == CacheConfig.GeminiAnalysis(name)
    ensures SessionKey(name) == CacheConfig.SessionData(name)
  {
  }

  // ---------------------------------------------------------------------
  // CacheStrategyManager.get_cache_overview

  datatype OverviewEntry = OverviewEntry(name: string, ttl: int)

  /** The TTLs `get_cache_overview` reports (static_content is not listed). */
  const Overview: seq<OverviewEntry> := [
    OverviewEntry("user_data", 1800), OverviewEntry("analysis_results", 7200),
    OverviewEntry("matching_results", 3600), OverviewEntry("api_responses", 300),
    OverviewEntry("session_data", 86400)
  ]

  /** Every TTL the overview reports is the one the manager applies to that type. */
  lemma OverviewMatchesManager()
    ensures forall i :: 0 <= i < |Overview| ==> Overview[i].ttl == CM.TypeTtl(Overview[i].name)
  {
    forall i | 0 <= i < |Overview| ensures Overview[i].ttl == CM.TypeTtl(Overview[i].name) {
      CM.LookupTable(Overview[i].name);
    }
  }
}

/** Affiliate click and conversion rules (revenue/affiliate_tracker.py).
    Where the class defines a method twice, the later definition is the one
    Python keeps, and it is the one modelled. */
module Affiliate {
  import opened Wrappers
  import opened Text
  import opened Json
  import opened Stats

  // ---------------------------------------------------------------------
  // Partners and revenue
  // ---------------------------------------------------------------------

  datatype Partner = Partner(name: string, commissionRate: real, trackingParam: string)

  /** `affiliate_partners`. */
  function PartnerOf(affiliateId: string): (p: Option<Partner>)
    ensures p.None? <==> affiliateId != "udemy" && affiliateId != "coursera" && affiliateId != "amazon"
    ensures p.Some? ==> 0.0 < p.value.commissionRate <= 0.2
  {
    if affiliateId == "udemy" then Some(Partner("Udemy", 0.15, "couponCode"))
    else if affiliateId == "coursera" then Some(Partner("Coursera", 0.20, "aid"))
    else if affiliateId == "amazon" then Some(Partner("Amazon", 0.08, "tag"))
    else None
  }

  function CommissionRate(affiliateId: string): real {
    match PartnerOf(affiliateId)
    case Some(p) => p.commissionRate
    case None => 0.1
  }

  /** `_calculate_revenue`: the conversion value times the partner's rate,
      0.1 for an unknown partner. */
  function Revenue(affiliateId: string, value: real): (r: real)
    ensures PartnerOf(affiliateId).None? ==> r == value * 0.1
    ensures value >= 0.0 ==> 0.0 <= r <= value * 0.2
  {
    value * CommissionRate(affiliateId)
  }

  /** `_update_conversion_rate`: a percentage, 0 with no clicks. */
  function ConversionRate(conversions: nat, clicks: nat): (r: real)
    ensures clicks == 0 ==> r == 0.0
    ensures 0.0 <= r
    ensures conversions <= clicks ==> r <= 100.0
  {
    if clicks == 0 then 0.0 else Percentage(conversions, clicks)
  }

  datatype Tier = Bronze | Silver | Gold | Platinum

  function MinRevenue(t: Tier): real {
    match t
    case Bronze => 0.0
    case Silver => 10000.0
    case Gold => 50000.0
    case Platinum => 100000.0
  }

  function TierRank(t: Tier): nat {
    match t
    case Bronze => 0
    case Silver => 1
    case Gold => 2
    case Platinum => 3
  }

  /** The tier ladder of `_get_revenue_tier`: the highest tier whose minimum
      the revenue reaches, and bronze when none does (a negative total). */
  function TierOf(total: real): (t: Tier)
    ensures t == Bronze || MinRevenue(t) <= total
    ensures forall u :: MinRevenue(u) <= total ==> TierRank(u) <= TierRank(t)
  {
    if total >= 100000.0 then Platinum
    else if total >= 50000.0 then Gold
    else if total >= 10000.0 then Silver
    else Bronze
  }

  /** More revenue never means a lower tier. */
  lemma TierMonotone(a: real, b: real)
    requires a <= b
    ensures TierRank(TierOf(a)) <= TierRank(TierOf(b))
  {
    assert MinRevenue(TierOf(a)) <= b || TierOf(a) == Bronze;
  }

  /** A stored conversion: its partner and value. */
  datatype Conversion = Conversion(affiliateId: string, value: real)

  function TotalRevenue(cs: seq<Conversion>): real
    decreases |cs|
  {
    if |cs| == 0 then 0.0 else Revenue(cs[0].affiliateId, cs[0].value) + TotalRevenue(cs[1..])
  }

  /** Revenue from non-negative conversions is never negative. */
  lemma {:induction false} TotalRevenueNonNegative(cs: seq<Conversion>)
    requires forall i :: 0 <= i < |cs| ==> cs[i].value >= 0.0
    ensures TotalRevenue(cs) >= 0.0
    decreases |cs|
  {
    if |cs| > 0 {
      TotalRevenueNonNegative(cs[1..]);
    }
  }

  /** `_get_revenue_tier` over the affiliate's conversions of the last 30
      days (the query is an input). */
  function RevenueTier(cs: seq<Conversion>): (t: Tier)
    ensures t == TierOf(TotalRevenue(cs))
    ensures cs == [] ==> t == Bronze
  {
    TierOf(TotalRevenue(cs))
  }

  /** `_validate_conversion`: a positive value, at most 200 for udemy and at
      most 1000 for amazon; no limit for anyone else. */
  function ValidateConversion(affiliateId: string, value: real): (ok: bool)
    ensures value <= 0.0 ==> !ok
    ensures affiliateId != "udemy" && affiliateId != "amazon" ==> (ok <==> value > 0.0)
    ensures ok ==> 0.0 < value && (affiliateId == "udemy" ==> value <= 200.0) && (affiliateId == "amazon" ==> value <= 1000.0)
  {
    if value <= 0.0 then false
    else if affiliateId == "udemy" && value > 200.0 then false
    else if affiliateId == "amazon" && value > 1000.0 then false
    else true
  }

  /** Validation is a threshold: a smaller positive value of an accepted
      conversion is accepted too. */
  lemma ValidationDownwardClosed(affiliateId: string, a: real, b: real)
    requires 0.0 < a <= b && ValidateConversion(affiliateId, b)
    ensures ValidateConversion(affiliateId, a)
  {
  }

  // ---------------------------------------------------------------------
  // Fraud and quality scores
  // ---------------------------------------------------------------------

  /** The request fields the scores read (missing ones default to ""). */
  datatype Request = Request(ip: string, userAgent: string, referrer: string, metadata: seq<Field>)

  predicate PrivateIp(ip: string) {
    IsPrefix("127.", ip) || IsPrefix("10.", ip) || IsPrefix("192.168.", ip)
  }

  const BotIndicators: seq<string> := ["bot", "crawler", "spider", "scraper", "automated"]

  predicate LooksLikeBot(userAgent: string) {
    ContainsAny(Lower(userAgent), BotIndicators)
  }

  predicate FlaggedAutomated(req: Request) {
    Truthy(Get(req.metadata, "automated").GetOr(Bool(false)))
  }

  /** `_calculate_fraud_score`: 0.3 for a private address, 0.4 for a bot
      agent, 0.2 for no referrer, 0.5 for a click flagged automated; capped
      at 1.0. */
  function FraudScore(req: Request): (r: real)
    ensures 0.0 <= r <= 1.0
    ensures r == 0.0 <==> !PrivateIp(req.ip) && !LooksLikeBot(req.userAgent) && req.referrer != "" && !FlaggedAutomated(req)
  {
    var score := (if PrivateIp(req.ip) then 0.3 else 0.0)
                 + (if LooksLikeBot(req.userAgent) then 0.4 else 0.0)
                 + (if req.referrer == "" then 0.2 else 0.0)
                 + (if FlaggedAutomated(req) then 0.5 else 0.0);
    if score < 1.0 then score else 1.0
  }

  /** Which clicks `track_click` refuses as fraud (score above 0.8): no
      single signal is enough, and exactly these combinations are. */
  lemma FraudRejection(req: Request)
    ensures FraudScore(req) > 0.8 <==>
              (LooksLikeBot(req.userAgent) && FlaggedAutomated(req))
              || (PrivateIp(req.ip) && LooksLikeBot(req.userAgent) && req.referrer == "")
              || (PrivateIp(req.ip) && req.referrer == "" && FlaggedAutomated(req))
  {
  }

  /** A metadata number compared with `>`: absent reads as 0, a bool as 0
      or 1, and anything else raises (`None`). */
  function MetaNumber(meta: seq<Field>, key: string): Option<real> {
    match Get(meta, key)
    case None => Some(0.0)
    case Some(Num(n)) => Some(n)
    case Some(Bool(b)) => Some(if b then 1.0 else 0.0)
    case Some(_) => None
  }

  predicate Spammy(referrer: string) {
    ContainsAny(referrer, ["spam", "bot", "fake"])
  }

  predicate SelfReferred(req: Request) {
    Contains(req.referrer, "tou-connect.com")
  }

  /** `_calculate_click_quality_score`: from 0.5, +0.2 for a referrer on the
      site (else +0.1 for any other non-spam referrer), +0.1 each for a
      browser agent, more than 30 s engaged, more than one page, and a
      registered user; capped at 1.0, and 0.5 when a comparison raises. */
  function QualityScore(req: Request): (r: real)
    ensures 0.5 <= r <= 1.0
    ensures (SelfReferred(req) && MetaNumber(req.metadata, "engagement_time").Some?
             && MetaNumber(req.metadata, "page_views").Some?) ==> r >= 0.7
  {
    var engaged := MetaNumber(req.metadata, "engagement_time");
    var views := MetaNumber(req.metadata, "page_views");
    if engaged.None? || views.None? then 0.5
    else
      var score := 0.5
        + (if SelfReferred(req) then 0.2 else if req.referrer != "" && !Spammy(req.referrer) then 0.1 else 0.0)
        + (if req.userAgent != "" && Contains(req.userAgent, "Mozilla") && |req.userAgent| > 50 then 0.1 else 0.0)
        + (if engaged.value > 30.0 then 0.1 else 0.0)
        + (if views.value > 1.0 then 0.1 else 0.0)
        + (if Get(req.metadata, "user_type") == Some(Str("registered")) then 0.1 else 0.0);
      if score < 1.0 then score else 1.0
  }

  /** A click with no referrer, no usable agent and empty metadata earns only
      the base score. */
  lemma BareClickScoresBase(ip: string)
    ensures QualityScore(Request(ip, "", "", [])) == 0.5
  {
  }

  // ---------------------------------------------------------------------
  // Device detection
  // ---------------------------------------------------------------------

  datatype Device = Device(deviceType: string, os: string, browser: string, isMobile: bool)

  function DeviceType(ua: string): (t: string)
    ensures t == "mobile" <==> Contains(ua, "mobile") || Contains(ua, "iphone") || Contains(ua, "android")
    ensures t == "tablet" <==> !(Contains(ua, "mobile") || Contains(ua, "iphone") || Contains(ua, "android"))
                               && (Contains(ua, "tablet") || Contains(ua, "ipad"))
    ensures t in {"mobile", "tablet", "desktop"}
  {
    if Contains(ua, "mobile") || Contains(ua, "iphone") || Contains(ua, "android") then "mobile"
    else if Contains(ua, "tablet") || Contains(ua, "ipad") then "tablet"
    else "desktop"
  }

  /** The operating-system ladder as written: windows, then Mac OS, then
      linux, and only then android and iOS. */
  function OsAsWritten(ua: string): string {
    if Contains(ua, "windows") then "windows"
    else if Contains(ua, "mac os") || Contains(ua, "macos") then "macos"
    else if Contains(ua, "linux") then "linux"
    else if Contains(ua, "android") then "android"
    else if Contains(ua, "ios") || Contains(ua, "iphone") then "ios"
    else "unknown"
  }

  /** The written ladder answers linux for any agent that names Linux and
      neither Windows nor Mac OS, whatever else it names. */
  lemma LinuxShadowsAndroid(ua: string)
    requires Contains(ua, "linux") && !Contains(ua, "windows") && !Contains(ua, "mac os") && !Contains(ua, "macos")
    ensures OsAsWritten(ua) == "linux"
  {
  }

  /** The written ladder answers macos for any agent that names Mac OS and
      not Windows, whatever else it names. */
  lemma MacShadowsIphone(ua: string)
    requires Contains(ua, "mac os") && !Contains(ua, "windows")
    ensures OsAsWritten(ua) == "macos"
  {
  }

  /** Android agents carry "Linux", so the ladder as written reports an
      Android phone as linux. */
  lemma AndroidReportedAsLinux(ua: string)
    requires ua == "linux; android"
    ensures Contains(ua, "android") && OsAsWritten(ua) == "linux"
    ensures Os(ua) == "android"
  {
    AndroidAgentNames(ua);
    LinuxShadowsAndroid(ua);
  }

  /** What the sample Android agent names and does not name. */
  lemma AndroidAgentNames(ua: string)
    requires ua == "linux; android"
    ensures Contains(ua, "linux") && Contains(ua, "android")
    ensures !Contains(ua, "windows") && !Contains(ua, "mac os") && !Contains(ua, "macos")
  {
    AndroidAgentMentions(ua);
    AndroidAgentLetters(ua);
    NamesNoDesktop(ua);
  }

  lemma AndroidAgentMentions(ua: string)
    requires ua == "linux; android"
    ensures Contains(ua, "linux") && Contains(ua, "android")
  {
    assert ua[0..5] == "linux" && ua[7..14] == "android";
    ContainsAt(ua, "linux", 0);
    ContainsAt(ua, "android", 7);
  }

  lemma AndroidAgentLetters(ua: string)
    requires ua == "linux; android"
    ensures 'w' !in ua && 'm' !in ua
  {
  }

  /** An agent without a `w` or an `m` names neither Windows nor Mac OS. */
  lemma NamesNoDesktop(ua: string)
    requires 'w' !in ua && 'm' !in ua
    ensures !Contains(ua, "windows") && !Contains(ua, "mac os") && !Contains(ua, "macos")
  {
    MissingCharNotContained(ua, "windows", 'w');
    MissingCharNotContained(ua, "mac os", 'm');
    MissingCharNotContained(ua, "macos", 'm');
  }

  /** iPhone agents carry "Mac OS X", so the ladder as written reports an
      iPhone as macos. */
  lemma IphoneReportedAsMacos(ua: string)
    requires ua == "mac os x; iphone"
    ensures Contains(ua, "iphone") && OsAsWritten(ua) == "macos"
    ensures Os(ua) == "ios"
  {
    IphoneAgentNames(ua);
    MacShadowsIphone(ua);
  }

  /** What the sample iPhone agent names and does not name. */
  lemma IphoneAgentNames(ua: string)
    requires ua == "mac os x; iphone"
    ensures Contains(ua, "mac os") && Contains(ua, "iphone")
    ensures !Contains(ua, "windows") && !Contains(ua, "android")
  {
    IphoneAgentMentions(ua);
    IphoneAgentLetters(ua);
    NamesNoWindowsOrAndroid(ua);
  }

  lemma IphoneAgentMentions(ua: string)
    requires ua == "mac os x; iphone"
    ensures Contains(ua, "mac os") && Contains(ua, "iphone")
  {
    assert ua[0..6] == "mac os" && ua[10..16] == "iphone";
    ContainsAt(ua, "mac os", 0);
    ContainsAt(ua, "iphone", 10);
  }

  lemma IphoneAgentLetters(ua: string)
    requires ua == "mac os x; iphone"
    ensures 'w' !in ua && 'd' !in ua
  {
  }

  /** An agent without a `w` or a `d` names neither Windows nor Android. */
  lemma NamesNoWindowsOrAndroid(ua: string)
    requires 'w' !in ua && 'd' !in ua
    ensures !Contains(ua, "windows") && !Contains(ua, "android")
  {
    MissingCharNotContained(ua, "windows", 'w');
    MissingCharNotContained(ua, "android", 'd');
  }

  /** The operating system with the mobile systems checked before the desktop
      systems whose names their agents also carry. */
  function Os(ua: string): (os: string)
    ensures !Contains(ua, "windows") && Contains(ua, "android") ==> os == "android"
    ensures !Contains(ua, "windows") && !Contains(ua, "android") && Contains(ua, "iphone") ==> os == "ios"
    ensures os == "linux" ==> Contains(ua, "linux") && !Contains(ua, "android")
    ensures os == "macos" ==> (Contains(ua, "mac os") || Contains(ua, "macos")) && !Contains(ua, "iphone")
  {
    if Contains(ua, "windows") then "windows"
    else if Contains(ua, "android") then "android"
    else if Contains(ua, "ios") || Contains(ua, "iphone") then "ios"
    else if Contains(ua, "mac os") || Contains(ua, "macos") then "macos"
    else if Contains(ua, "linux") then "linux"
    else "unknown"
  }

  /** The corrected ladder agrees with the written one on every agent that
      names neither a mobile system nor a desktop system it could be taken
      for. */
  lemma OsAgreesOffMobile(ua: string)
    requires !Contains(ua, "android") && !Contains(ua, "ios") && !Contains(ua, "iphone")
    ensures Os(ua) == OsAsWritten(ua)
  {
  }

  /** Chrome is checked first, so an agent naming Chrome is never reported
      as another browser (Chrome agents also carry "Safari"). */
  function Browser(ua: string): (b: string)
    ensures Contains(ua, "chrome") ==> b == "chrome"
    ensures b == "safari" ==> Contains(ua, "safari") && !Contains(ua, "chrome") && !Contains(ua, "firefox")
    ensures b == "unknown" <==> !Contains(ua, "chrome") && !Contains(ua, "firefox") && !Contains(ua, "safari") && !Contains(ua, "edge")
  {
    if Contains(ua, "chrome") then "chrome"
    else if Contains(ua, "firefox") then "firefox"
    else if Contains(ua, "safari") then "safari"
    else if Contains(ua, "edge") then "edge"
    else "unknown"
  }

  /** `_parse_device_info` on the lower-cased agent, with the operating
      system ladder as written. */
  function ParseDeviceInfo(userAgent: string): (d: Device)
    ensures d.isMobile <==> d.deviceType == "mobile"
    ensures d.deviceType == DeviceType(Lower(userAgent)) && d.browser == Browser(Lower(userAgent))
    ensures d.os == OsAsWritten(Lower(userAgent))
    ensures var ua := Lower(userAgent);
            !Contains(ua, "android") && !Contains(ua, "ios") && !Contains(ua, "iphone") ==> d.os == Os(ua)
  {
    var ua := Lower(userAgent);
    var t := DeviceType(ua);
    Device(t, OsAsWritten(ua), Browser(ua), t == "mobile")
  }

  // ---------------------------------------------------------------------
  // Tracking URLs
  // ---------------------------------------------------------------------

  /** A URL split as `urlparse` splits it, its query as `parse_qs` reads it
      (each value a list of strings, keys in first-seen order). */
  datatype Url = Url(scheme: string, netloc: string, path: string, params: string, query: seq<Field>, fragment: string)

  datatype Click = Click(clickId: string, affiliateId: string, resourceId: string, resourceUrl: string, source: string)

  function One(s: string): Value {
    Arr([Str(s)])
  }

  /** The query with the partner's tracking parameter and the four UTM
      parameters set, each to a single value. */
  function Tag(query: seq<Field>, param: string, c: Click): (r: seq<Field>)
    requires param != "utm_source" && param != "utm_medium" && param != "utm_campaign" && param != "utm_content"
    ensures Get(r, param) == Some(One("tou_connect_" + c.clickId))
    ensures Get(r, "utm_source") == Some(One("tou_connect")) && Get(r, "utm_medium") == Some(One("affiliate"))
    ensures Get(r, "utm_campaign") == Some(One(c.source)) && Get(r, "utm_content") == Some(One(c.resourceId))
    ensures forall k :: k != param && k != "utm_source" && k != "utm_medium" && k != "utm_campaign" && k != "utm_content"
              ==> Get(r, k) == Get(query, k)
  {
    var q1 := Put(query, param, One("tou_connect_" + c.clickId));
    var q2 := Put(q1, "utm_source", One("tou_connect"));
    var q3 := Put(q2, "utm_medium", One("affiliate"));
    var q4 := Put(q3, "utm_campaign", One(c.source));
    var q5 := Put(q4, "utm_content", One(c.resourceId));
    TagKeeps(query, param, c);
    PutGet(q4, "utm_content", One(c.resourceId), "utm_campaign");
    PutGet(q4, "utm_content", One(c.resourceId), "utm_medium");
    PutGet(q4, "utm_content", One(c.resourceId), "utm_source");
    PutGet(q4, "utm_content", One(c.resourceId), param);
    PutGet(q3, "utm_campaign", One(c.source), "utm_medium");
    PutGet(q3, "utm_campaign", One(c.source), "utm_source");
    PutGet(q3, "utm_campaign", One(c.source), param);
    PutGet(q2, "utm_medium", One("affiliate"), "utm_source");
    PutGet(q2, "utm_medium", One("affiliate"), param);
    PutGet(q1, "utm_source", One("tou_connect"), param);
    PutGet(query, param, One("tou_connect_" + c.clickId), param);
    q5
  }

  /** Keys other than the five set are untouched by `Tag`. */
  lemma TagKeeps(query: seq<Field>, param: string, c: Click)
    ensures forall k :: k != param && k != "utm_source" && k != "utm_medium" && k != "utm_campaign" && k != "utm_content"
              ==> Get(Put(Put(Put(Put(Put(query, param, One("tou_connect_" + c.clickId)), "utm_source", One("tou_connect")),
                                  "utm_medium", One("affiliate")), "utm_campaign", One(c.source)), "utm_content", One(c.resourceId)), k)
                  == Get(query, k)
  {
    var q1 := Put(query, param, One("tou_connect_" + c.clickId));
    var q2 := Put(q1, "utm_source", One("tou_connect"));
    var q3 := Put(q2, "utm_medium", One("affiliate"));
    var q4 := Put(q3, "utm_campaign", One(c.source));
    forall k | k != param && k != "utm_source" && k != "utm_medium" && k != "utm_campaign" && k != "utm_content"
      ensures Get(Put(q4, "utm_content", One(c.resourceId)), k) == Get(query, k)
    {
      PutGet(query, param, One("tou_connect_" + c.clickId), k);
      PutGet(q1, "utm_source", One("tou_connect"), k);
      PutGet(q2, "utm_medium", One("affiliate"), k);
      PutGet(q3, "utm_campaign", One(c.source), k);
      PutGet(q4, "utm_content", One(c.resourceId), k);
    }
  }

  /** `_generate_tracking_url`. `parse` and `unparse` stand for `urlparse`
      with `parse_qs`, and `urlunparse` with `urlencode`. */
  function TrackingUrl(c: Click, parse: string -> Url, unparse: Url -> string): (r: string)
    ensures PartnerOf(c.affiliateId).None? ==> r == c.resourceUrl
    ensures PartnerOf(c.affiliateId).Some? ==>
              var u := parse(c.resourceUrl);
              exists q :: r == unparse(u.(query := q))
                          && Get(q, PartnerOf(c.affiliateId).value.trackingParam) == Some(One("tou_connect_" + c.clickId))
                          && Get(q, "utm_content") == Some(One(c.resourceId))
  {
    match PartnerOf(c.affiliateId)
    case None => c.resourceUrl
    case Some(p) =>
      var u := parse(c.resourceUrl);
      var q := Tag(u.query, p.trackingParam, c);
      unparse(u.(query := q))
  }

  // ---------------------------------------------------------------------
  // Click tracking
  // ---------------------------------------------------------------------

  /** The recent-click marks (key to expiry time) and the click counter. */
  datatype Tracker = Tracker(recent: map<string, int>, totalClicks: nat)

  const DuplicateWindow := 300

  function UserText(userId: Option<int>): string {
    match userId
    case Some(id) => IntToStr(id)
    case None => "None"
  }

  /** `recent_click:{user_id}:{session_id}:{affiliate_id}:{resource_id}`. */
  function RecentKey(userId: Option<int>, session: string, affiliateId: string, resourceId: string): string {
    "recent_click:" + Join(":", [UserText(userId), session, affiliateId, resourceId])
  }

  predicate Marked(t: Tracker, key: string, now: int) {
    key in t.recent && now < t.recent[key]
  }

  /** `track_click`: a click scoring above 0.8 for fraud, or seen within the
      last 300 s (when a cache is connected), returns the original URL and
      changes nothing; otherwise the click is marked, counted and the
      tracking URL returned. `clickId` stands for the generated id. */
  function TrackClick(t: Tracker, now: int, cacheConnected: bool, userId: Option<int>, session: string,
                      c: Click, req: Request, parse: string -> Url, unparse: Url -> string): (r: (Tracker, string))
    ensures FraudScore(req) > 0.8 ==> r == (t, c.resourceUrl)
    ensures cacheConnected && Marked(t, RecentKey(userId, session, c.affiliateId, c.resourceId), now) ==> r == (t, c.resourceUrl)
    ensures r.0.totalClicks == t.totalClicks || r.0.totalClicks == t.totalClicks + 1
    ensures r.0.totalClicks == t.totalClicks + 1 <==>
              FraudScore(req) <= 0.8 && !(cacheConnected && Marked(t, RecentKey(userId, session, c.affiliateId, c.resourceId), now))
    ensures r.0.totalClicks == t.totalClicks + 1 ==>
              r.1 == TrackingUrl(c, parse, unparse)
              && (cacheConnected ==> r.0.recent == t.recent[RecentKey(userId, session, c.affiliateId, c.resourceId) := now + DuplicateWindow])
  {
    var key := RecentKey(userId, session, c.affiliateId, c.resourceId);
    if FraudScore(req) > 0.8 then (t, c.resourceUrl)
    else if cacheConnected && Marked(t, key, now) then (t, c.resourceUrl)
    else
      var recent := if cacheConnected then t.recent[key := now + DuplicateWindow] else t.recent;
      (Tracker(recent, t.totalClicks + 1), TrackingUrl(c, parse, unparse))
  }

  /** The same click repeated within the window is not counted again. */
  lemma RepeatWithinWindowIgnored(t: Tracker, now: int, later: int, userId: Option<int>, session: string,
                                  c: Click, req: Request, parse: string -> Url, unparse: Url -> string)
    requires now <= later < now + DuplicateWindow
    requires TrackClick(t, now, true, userId, session, c, req, parse, unparse).0.totalClicks == t.totalClicks + 1
    ensures var t1 := TrackClick(t, now, true, userId, session, c, req, parse, unparse).0;
            TrackClick(t1, later, true, userId, session, c, req, parse, unparse) == (t1, c.resourceUrl)
  {
    var t1 := TrackClick(t, now, true, userId, session, c, req, parse, unparse).0;
    var key := RecentKey(userId, session, c.affiliateId, c.resourceId);
    assert t1.recent[key] == now + DuplicateWindow;
    assert Marked(t1, key, later);
  }
}

/** The security manager (security/security_manager.py): where secrets come
    from, the API-key table, request screening, the response headers with
    HTTP Strict Transport Security (RFC 6797), and error responses. The
    secrets services are functions that answer `None` when the call raises. */
module Security {
  import opened Wrappers
  import opened Text
  import Json

  type Env = map<string, string>

  /** `os.getenv(name)`. */
  function GetEnv(env: Env, name: string): Option<string> {
    if name in env then Some(env[name]) else None
  }

  /** The secrets client the manager holds: none, or a service that answers
      a secret or fails. */
  datatype Client = NoClient | Service(fetch: string -> Option<string>)

  /** `os.getenv(name, default)`: an empty value is kept. */
  function GetEnvOr(env: Env, name: string, default: string): string {
    if name in env then env[name] else default
  }

  /** `_init_secrets_manager`: outside production, or when the chosen
      provider's library is missing or its set-up fails, secrets come from
      the environment. `connectAws` and `connectAzure` are the outcomes of
      creating each client (`None` when the constructor raises). */
  function InitClient(env: Env, awsAvailable: bool, azureAvailable: bool,
                      connectAws: Option<string -> Option<string>>,
                      connectAzure: Option<string -> Option<string>>): (c: Client)
    ensures c.Service? <==>
              GetEnvOr(env, "ENVIRONMENT", "development") == "production"
              && ((GetEnvOr(env, "SECRETS_PROVIDER", "aws") == "aws" && awsAvailable && connectAws.Some?)
                  || (GetEnvOr(env, "SECRETS_PROVIDER", "aws") == "azure" && azureAvailable
                      && GetEnvOr(env, "AZURE_KEY_VAULT_URL", "") != "" && connectAzure.Some?))
    ensures c.Service? && GetEnvOr(env, "SECRETS_PROVIDER", "aws") == "aws" ==> c.fetch == connectAws.value
    ensures c.Service? && GetEnvOr(env, "SECRETS_PROVIDER", "aws") == "azure" ==> c.fetch == connectAzure.value
  {
    if GetEnvOr(env, "ENVIRONMENT", "development") != "production" then NoClient
    else
      var provider := GetEnvOr(env, "SECRETS_PROVIDER", "aws");
      if provider == "aws" && awsAvailable then
        (if connectAws.Some? then Service(connectAws.value) else NoClient)
      else if provider == "azure" && azureAvailable then
        (if GetEnvOr(env, "AZURE_KEY_VAULT_URL", "") != "" && connectAzure.Some?
         then Service(connectAzure.value) else NoClient)
      else NoClient
  }

  /** Outside production no secrets service is ever contacted, whatever
      libraries are installed. */
  lemma DevelopmentUsesEnvironment(env: Env, aws: bool, azure: bool,
                                   ca: Option<string -> Option<string>>, cz: Option<string -> Option<string>>,
                                   name: string)
    requires GetEnv(env, "ENVIRONMENT") != Some("production")
    ensures GetSecret(InitClient(env, aws, azure, ca, cz), env, name) == GetEnv(env, name)
  {
  }

  /** `get_secret`: the service's answer, or the environment when there is
      no service or the call fails. */
  function GetSecret(client: Client, env: Env, name: string): (r: Option<string>)
    ensures client.NoClient? ==> r == GetEnv(env, name)
    ensures client.Service? && client.fetch(name).Some? ==> r == client.fetch(name)
    ensures client.Service? && client.fetch(name).None? ==> r == GetEnv(env, name)
  {
    match client
    case NoClient => GetEnv(env, name)
    case Service(fetch) => if fetch(name).Some? then fetch(name) else GetEnv(env, name)
  }

  /** A failing service behaves exactly like having none. */
  lemma FailingServiceFallsBack(fetch: string -> Option<string>, env: Env, name: string)
    requires fetch(name).None?
    ensures GetSecret(Service(fetch), env, name) == GetSecret(NoClient, env, name)
  {
  }

  /** The services whose keys the manager knows, by lower-cased name. */
  function SecretNameOf(service: string): (r: Option<string>)
    ensures r.Some? <==> service in {"gemini", "twitter", "openai"}
  {
    if service == "gemini" then Some("GEMINI_API_KEY")
    else if service == "twitter" then Some("TWITTER_BEARER_TOKEN")
    else if service == "openai" then Some("OPENAI_API_KEY")
    else None
  }

  /** `get_api_key`. */
  function GetApiKey(client: Client, env: Env, service: string): (r: Option<string>)
    ensures SecretNameOf(Lower(service)).None? ==> r == None
    ensures SecretNameOf(Lower(service)).Some? ==> r == GetSecret(client, env, SecretNameOf(Lower(service)).value)
  {
    match SecretNameOf(Lower(service))
    case None => None
    case Some(name) => GetSecret(client, env, name)
  }

  /** An unknown service gets nothing, whatever the secrets say: no lookup
      is made. */
  lemma UnknownServiceIgnoresSecrets(c1: Client, e1: Env, c2: Client, e2: Env, service: string)
    requires SecretNameOf(Lower(service)).None?
    ensures GetApiKey(c1, e1, service) == GetApiKey(c2, e2, service) == None
  {
  }

  /** The service name is matched without regard to case. */
  lemma ApiKeyCaseInsensitive(client: Client, env: Env, service: string)
    ensures GetApiKey(client, env, service) == GetApiKey(client, env, Lower(service))
  {
    LowerIdempotent(service);
  }

  /** `_init_rate_limiter`: the limiter's store is the Redis URL secret
      when it is non-empty, otherwise process memory. */
  function RateLimitStorage(client: Client, env: Env): (uri: string)
    ensures uri != ""
    ensures GetSecret(client, env, "REDIS_URL").Some? && GetSecret(client, env, "REDIS_URL").value != ""
            ==> uri == GetSecret(client, env, "REDIS_URL").value
    ensures uri == "memory://" || (GetSecret(client, env, "REDIS_URL").Some? && uri == GetSecret(client, env, "REDIS_URL").value)
  {
    match GetSecret(client, env, "REDIS_URL")
    case Some(u) => if u != "" then u else "memory://"
    case None => "memory://"
  }

  /** The limits every route gets by default. */
  const DefaultLimits: seq<string> := ["1000 per hour", "100 per minute"]

  /** What `_init_cors` configures. */
  datatype Cors = AnyOrigin | Origins(list: seq<string>) | NoCors

  /** `[o.strip() for o in parts if o.strip()]`. */
  function StrippedNonEmpty(parts: seq<string>): (r: seq<string>)
    ensures forall o :: o in r <==> exists p :: p in parts && Strip(p) == o && o != ""
    ensures |r| <= |parts|
    decreases |parts|
  {
    if |parts| == 0 then []
    else (if Strip(parts[0]) != "" then [Strip(parts[0])] else []) + StrippedNonEmpty(parts[1..])
  }

  /** `_init_cors`: any origin outside production; in production only the
      listed ones, and no CORS at all when none are listed. */
  function CorsOf(env: Env): (c: Cors)
    ensures GetEnvOr(env, "ENVIRONMENT", "development") != "production" <==> c == AnyOrigin
    ensures c.NoCors? <==> GetEnvOr(env, "ENVIRONMENT", "development") == "production"
                           && GetEnvOr(env, "ALLOWED_ORIGINS", "") == ""
    ensures c.Origins? ==> forall o :: o in c.list <==>
              o != "" && exists p :: p in Split(GetEnvOr(env, "ALLOWED_ORIGINS", ""), ',') && Strip(p) == o
  {
    if GetEnvOr(env, "ENVIRONMENT", "development") != "production" then AnyOrigin
    else
      var s := GetEnvOr(env, "ALLOWED_ORIGINS", "");
      if s == "" then NoCors else Origins(StrippedNonEmpty(Split(s, ',')))
  }

  /** A production origin list never holds a comma: each entry is one
      piece of the variable. */
  lemma OriginsHaveNoComma(env: Env)
    requires CorsOf(env).Origins?
    ensures forall o :: o in CorsOf(env).list ==> ',' !in o
  {
    var parts := Split(GetEnvOr(env, "ALLOWED_ORIGINS", ""), ',');
    forall o | o in CorsOf(env).list
      ensures ',' !in o
    {
      var p :| p in parts && Strip(p) == o;
      StripWithin(p);
    }
  }

  /** `Strip` only removes characters, so anything absent stays absent. */
  lemma StripWithin(p: string)
    ensures forall ch :: ch in Strip(p) ==> ch in p
  {
    LStripWithin(p);
    RStripWithin(LStrip(p));
  }

  lemma {:induction false} LStripWithin(p: string)
    ensures forall ch :: ch in LStrip(p) ==> ch in p
    decreases |p|
  {
    if |p| > 0 && IsSpace(p[0]) {
      LStripWithin(p[1..]);
    }
  }

  lemma {:induction false} RStripWithin(p: string)
    ensures forall ch :: ch in RStrip(p) ==> ch in p
    decreases |p|
  {
    if |p| > 0 && IsSpace(p[|p| - 1]) {
      RStripWithin(p[..|p| - 1]);
    }
  }

  // ---------------------------------------------------------------------
  // Requests
  // ---------------------------------------------------------------------

  /** The parts of a request the screening looks at; `jsonBody` says
      whether `get_json(silent=True)` finds a JSON body. Flask only parses a
      body whose mimetype is `application/json` or ends in `+json` (compared
      in lower case), so the flag is left free here but can only be true
      under such a type. */
  datatype Request = Request(verb: string, headers: map<string, string>, jsonBody: bool)

  function Header(r: Request, name: string): string {
    if name in r.headers then r.headers[name] else ""
  }

  /** A body that parses as JSON sent under another declared type. */
  predicate MislabelledJson(r: Request) {
    r.verb in {"POST", "PUT", "PATCH"}
    && Header(r, "Content-Type") != ""
    && !Contains(Header(r, "Content-Type"), "application/json")
    && r.jsonBody
  }

  /** `validate_request`. */
  function ValidateRequest(req: Option<Request>): (ok: bool)
    ensures ok <==> req.Some? && !MislabelledJson(req.value) && |Header(req.value, "User-Agent")| >= 10
  {
    match req
    case None => false
    case Some(r) =>
      if MislabelledJson(r) then false
      else
        var ua := Header(r, "User-Agent");
        !(ua == "" || |ua| < 10)
  }

  /** A non-JSON body under a non-JSON type is let through: the type is
      only held against bodies that are JSON after all. Since Flask parses a
      body only under a JSON mimetype, the rejection can only fire for a
      `+json` type such as `application/problem+json`, or for
      `application/json` written in another case. */
  lemma PlainBodyPasses(r: Request)
    requires !r.jsonBody && |Header(r, "User-Agent")| >= 10
    ensures ValidateRequest(Some(r))
  {
  }

  /** Read-only methods are never judged on their content type. */
  lemma ReadsIgnoreContentType(r: Request, contentType: string)
    requires r.verb !in {"POST", "PUT", "PATCH"}
    ensures ValidateRequest(Some(r)) == ValidateRequest(Some(r.(headers := r.headers["Content-Type" := contentType])))
  {
    var r2 := r.(headers := r.headers["Content-Type" := contentType]);
    assert Header(r2, "User-Agent") == Header(r, "User-Agent");
  }

  // ---------------------------------------------------------------------
  // Responses
  // ---------------------------------------------------------------------

  /** One year, the HSTS lifetime. */
  const HstsMaxAge: nat := 31536000

  /** The `Strict-Transport-Security` value (section 6.1 of RFC 6797). */
  function HstsValue(): string {
    "max-age=" + NatToStr(HstsMaxAge) + "; includeSubDomains"
  }

  const Csp := "default-src 'self'; "
    + "script-src 'self' 'unsafe-inline' https://cdn.jsdelivr.net; "
    + "style-src 'self' 'unsafe-inline' https://cdn.jsdelivr.net; "
    + "img-src 'self' data: https:; "
    + "font-src 'self' https://cdn.jsdelivr.net; "
    + "connect-src 'self' https://api.twitter.com https://generativelanguage.googleapis.com"

  /** The five headers every response gets. */
  function FixedHeaders(): (h: map<string, string>)
    ensures |h.Keys| == 5
  {
    map["X-Content-Type-Options" := "nosniff",
        "X-Frame-Options" := "DENY",
        "X-XSS-Protection" := "1; mode=block",
        "Content-Security-Policy" := Csp,
        "Referrer-Policy" := "strict-origin-when-cross-origin"]
  }

  /** Sets the HSTS header when asked, then writes `fixed` over the rest. */
  function Overlay(headers: map<string, string>, hsts: bool, fixed: map<string, string>): (r: map<string, string>)
    ensures forall k :: k in fixed ==> k in r && r[k] == fixed[k]
    ensures hsts && HstsHeader !in fixed ==> HstsHeader in r && r[HstsHeader] == HstsValue()
    ensures forall k :: k in headers && k !in fixed && k != HstsHeader ==> k in r && r[k] == headers[k]
    ensures r.Keys == headers.Keys + fixed.Keys + (if hsts then {HstsHeader} else {})
  {
    (if hsts then headers[HstsHeader := HstsValue()] else headers) + fixed
  }

  const HstsHeader := "Strict-Transport-Security"

  predicate IsProduction(env: Env) {
    GetEnv(env, "ENVIRONMENT") == Some("production")
  }

  /** `apply_security_headers`: HSTS in production only, the five fixed
      headers always, and every other header left as it was. */
  function ApplySecurityHeaders(headers: map<string, string>, env: Env): (r: map<string, string>)
    ensures forall k :: k in FixedHeaders() ==> k in r && r[k] == FixedHeaders()[k]
    ensures IsProduction(env) ==> HstsHeader in r && r[HstsHeader] == HstsValue()
    ensures !IsProduction(env) ==> (HstsHeader in r <==> HstsHeader in headers)
    ensures forall k :: k in headers && k !in FixedHeaders() && k != HstsHeader ==> k in r && r[k] == headers[k]
    ensures r.Keys == headers.Keys + FixedHeaders().Keys + (if IsProduction(env) then {HstsHeader} else {})
  {
    var fixed := FixedHeaders();
    assert HstsHeader !in fixed by { HstsNotFixed(); }
    Overlay(headers, IsProduction(env), fixed)
  }

  lemma HstsNotFixed()
    ensures HstsHeader !in FixedHeaders()
  {
  }

  /** Applying the headers twice is applying them once. */
  lemma HeadersIdempotent(headers: map<string, string>, env: Env)
    ensures ApplySecurityHeaders(ApplySecurityHeaders(headers, env), env) == ApplySecurityHeaders(headers, env)
  {
  }

  /** The HSTS value reads back, as a user agent parses it, as a one-year
      policy covering subdomains. */
  lemma HstsOneYear()
    ensures var v := HstsValue();
            IsPrefix("max-age=", v)
            && var digits := LeadingDigits(v[8..]);
               ParseNat(digits) == 31536000 && v[8 + |digits|..] == "; includeSubDomains"
  {
    var digits := NatToStr(HstsMaxAge);
    ParseNatToStr(HstsMaxAge);
    var rest := digits + "; includeSubDomains";
    assert HstsValue() == "max-age=" + rest;
    ConcatParts("max-age=", rest);
    LeadingDigitsOf(digits, "; includeSubDomains");
    ConcatParts(digits, "; includeSubDomains");
  }

  datatype Response = Response(status: int, body: Json.Value, headers: map<string, string>)

  /** `create_error_response`. */
  function CreateErrorResponse(code: int, message: string, details: Json.Value, env: Env): (r: Response)
    ensures r.status == code
    ensures r.body.Obj? && |r.body.fields| >= 2
    ensures r.body.fields[0] == Json.Field("error", Json.Str(message))
    ensures r.body.fields[1] == Json.Field("code", Json.Num(code as real))
    ensures Json.Truthy(details) <==> |r.body.fields| == 3
    ensures |r.body.fields| == 3 ==> r.body.fields[2] == Json.Field("details", details)
    ensures r.headers == ApplySecurityHeaders(map["Content-Type" := "application/json"], env)
  {
    var base := [Json.Field("error", Json.Str(message)), Json.Field("code", Json.Num(code as real))];
    var fields := if Json.Truthy(details) then base + [Json.Field("details", details)] else base;
    Response(code, Json.Obj(fields), ApplySecurityHeaders(map["Content-Type" := "application/json"], env))
  }
}

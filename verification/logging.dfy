/** Structured logging (infrastructure/logging_manager.py): the records the
    logging helpers emit, the security filter, the request context and the
    fields of a structured log line. A record's `extra` attributes are an
    ordered dict of JSON values; writing lines to handlers is left to the
    logging library. */
module Logging {
  import opened Wrappers
  import Json
  import Text

  /** The standard library's levels. */
  datatype Level = Debug | Info | Warning | Error | Critical

  function LevelNo(l: Level): nat {
    match l
    case Debug => 10
    case Info => 20
    case Warning => 30
    case Error => 40
    case Critical => 50
  }

  /** A record as a logger call builds it; `extra` holds the attributes the
      call adds to it. */
  datatype Record = Record(level: Level, message: string, extra: seq<Json.Field>)

  /** The request context as the helpers pass it on. */
  type Context = seq<Json.Field>

  /** The three fields `log_user_action` and `log_security_event` copy from
      the context, `None` reading as `null`. */
  function ContextFields(ctx: Context): (r: seq<Json.Field>)
    ensures |r| == 3 && Json.DistinctKeys(r)
    ensures forall i :: 0 <= i < 3 ==> r[i].val == Json.Get(ctx, r[i].key).GetOr(Json.Null)
  {
    [Json.Field("request_id", Json.Get(ctx, "request_id").GetOr(Json.Null)),
     Json.Field("ip_address", Json.Get(ctx, "ip_address").GetOr(Json.Null)),
     Json.Field("user_agent", Json.Get(ctx, "user_agent").GetOr(Json.Null))]
  }

  /** Appends ` - <details as JSON>` when the details are non-empty. */
  function WithDetails(message: string, details: Json.Value, dumps: Json.Value -> string): (m: string)
    ensures !Json.Truthy(details) ==> m == message
    ensures Json.Truthy(details) ==> m == message + " - " + dumps(details)
  {
    if Json.Truthy(details) then message + " - " + dumps(details) else message
  }

  /** `log_user_action`: always at info. */
  function LogUserAction(userId: Json.Value, action: string, details: Json.Value, ctx: Context,
                         dumps: Json.Value -> string): (r: Record)
    ensures r.level == Info
    ensures Json.Get(r.extra, "user_id") == Some(userId) && Json.Get(r.extra, "action") == Some(Json.Str(action))
    ensures !Json.HasKey(r.extra, "security_event")
    ensures Json.Truthy(Json.Obj(ctx)) <==> |r.extra| == 5
  {
    var base := [Json.Field("user_id", userId), Json.Field("action", Json.Str(action))];
    var extra := if Json.Truthy(Json.Obj(ctx)) then base + ContextFields(ctx) else base;
    Json.GetAt(base, 1);
    Json.GetAbsent(base, "security_event");
    Json.GetAbsent(ContextFields(ctx), "security_event");
    Json.GetAppend(base, ContextFields(ctx), "user_id");
    Json.GetAppend(base, ContextFields(ctx), "action");
    Json.GetAppend(base, ContextFields(ctx), "security_event");
    Record(Info, WithDetails("User action: " + action, details, dumps), extra)
  }

  /** The severities `log_security_event` logs at error. */
  predicate Serious(severity: string) {
    severity == "high" || severity == "critical"
  }

  /** `log_security_event`: error for high and critical, warning for any
      other severity; the record is marked as a security event. */
  function LogSecurityEvent(eventType: string, severity: string, details: Json.Value, ctx: Context,
                            dumps: Json.Value -> string): (r: Record)
    ensures r.level == (if Serious(severity) then Error else Warning)
    ensures Json.Get(r.extra, "security_event") == Some(Json.Bool(true))
    ensures Json.Get(r.extra, "severity") == Some(Json.Str(severity))
    ensures r.message == WithDetails("Security event: " + eventType + " (severity: " + severity + ")", details, dumps)
  {
    var base := [Json.Field("security_event", Json.Bool(true)), Json.Field("event_type", Json.Str(eventType)),
                 Json.Field("severity", Json.Str(severity))];
    var extra := if Json.Truthy(Json.Obj(ctx)) then base + ContextFields(ctx) else base;
    Json.GetAt(base, 2);
    Json.GetAppend(base, ContextFields(ctx), "security_event");
    Json.GetAppend(base, ContextFields(ctx), "severity");
    var message := WithDetails("Security event: " + eventType + " (severity: " + severity + ")", details, dumps);
    Record(if Serious(severity) then Error else Warning, message, extra)
  }

  /** The level `log_api_request` picks for a status code. */
  function ApiLevel(status: int): (l: Level)
    ensures l == Error <==> status >= 500
    ensures l == Warning <==> 400 <= status < 500
    ensures l == Info <==> status < 400
  {
    if status >= 500 then Error else if status >= 400 then Warning else Info
  }

  /** A higher status code is never logged at a lower level. */
  lemma ApiLevelMonotone(a: int, b: int)
    requires a <= b
    ensures LevelNo(ApiLevel(a)) <= LevelNo(ApiLevel(b))
  {
  }

  /** `log_api_request`; `timeText` is Python's rendering of the response
      time. The request context is merged into the extra
      attributes and may overwrite them. */
  function LogApiRequest(verb: string, path: string, status: int, time: real, timeText: string, ctx: Context): (r: Record)
    requires Json.DistinctKeys(ctx)
    ensures r.level == ApiLevel(status)
    ensures r.message == verb + " " + path + " - " + Text.IntToStr(status) + " (" + timeText + "ms)"
    ensures Json.HasKey(ctx, "security_event") ==> Json.Get(r.extra, "security_event") == Json.Get(ctx, "security_event")
    ensures !Json.HasKey(ctx, "security_event") ==> !Json.HasKey(r.extra, "security_event")
  {
    var base := [Json.Field("api_request", Json.Bool(true)), Json.Field("method", Json.Str(verb)),
                 Json.Field("path", Json.Str(path)), Json.Field("status_code", Json.Num(status as real)),
                 Json.Field("response_time_ms", Json.Num(time))];
    var extra := if Json.Truthy(Json.Obj(ctx)) then Json.Update(base, ctx) else base;
    Json.UpdateGet(base, ctx, "security_event");
    Json.GetAbsent(base, "security_event");
    Record(ApiLevel(status), verb + " " + path + " - " + Text.IntToStr(status) + " (" + timeText + "ms)", extra)
  }

  /** `SecurityLogFilter.filter`: the attribute must exist and be truthy. */
  predicate SecurityFilter(r: Record) {
    Json.HasKey(r.extra, "security_event") && Json.Truthy(Json.Get(r.extra, "security_event").value)
  }

  /** Security events always reach the security log, user actions never
      do, and an API request does only when its context says so. */
  lemma SecurityLogContents(eventType: string, severity: string, userId: Json.Value, action: string,
                            details: Json.Value, ctx: Context, dumps: Json.Value -> string,
                            verb: string, path: string, status: int, time: real, timeText: string)
    requires Json.DistinctKeys(ctx)
    ensures SecurityFilter(LogSecurityEvent(eventType, severity, details, ctx, dumps))
    ensures !SecurityFilter(LogUserAction(userId, action, details, ctx, dumps))
    ensures SecurityFilter(LogApiRequest(verb, path, status, time, timeText, ctx))
            <==> Json.HasKey(ctx, "security_event") && Json.Truthy(Json.Get(ctx, "security_event").value)
  {
  }

  // ---------------------------------------------------------------------
  // Request context
  // ---------------------------------------------------------------------

  /** `set_request_context`: the whole context is replaced by four fields. */
  function SetRequestContext(previous: Context, requestId: string, ip: Option<string>,
                             userAgent: Option<string>, userId: Option<int>): (c: Context)
    ensures |c| == 4 && Json.DistinctKeys(c)
    ensures Json.Get(c, "request_id") == Some(Json.Str(requestId))
    ensures Json.Get(c, "ip_address") == Some(if ip.Some? then Json.Str(ip.value) else Json.Null)
    ensures Json.Get(c, "user_agent") == Some(if userAgent.Some? then Json.Str(userAgent.value) else Json.Null)
    ensures Json.Get(c, "user_id") == Some(if userId.Some? then Json.Num(userId.value as real) else Json.Null)
  {
    var c := [Json.Field("request_id", Json.Str(requestId)),
              Json.Field("ip_address", if ip.Some? then Json.Str(ip.value) else Json.Null),
              Json.Field("user_agent", if userAgent.Some? then Json.Str(userAgent.value) else Json.Null),
              Json.Field("user_id", if userId.Some? then Json.Num(userId.value as real) else Json.Null)];
    Json.GetAt(c, 2);
    Json.GetAt(c, 3);
    c
  }

  /** `clear_context`. */
  function ClearContext(previous: Context): (c: Context)
    ensures !Json.Truthy(Json.Obj(c))
  {
    []
  }

  /** Setting forgets whatever was there before. */
  lemma SetForgetsPrevious(p1: Context, p2: Context, id: string, ip: Option<string>, ua: Option<string>, user: Option<int>)
    ensures SetRequestContext(p1, id, ip, ua, user) == SetRequestContext(p2, id, ip, ua, user)
  {
  }

  /** A user action logged after the context is set carries the request
      id; after clearing it carries no request fields at all. */
  lemma UserActionCarriesContext(p: Context, id: string, ip: Option<string>, ua: Option<string>, user: Option<int>,
                                 userId: Json.Value, action: string, details: Json.Value, dumps: Json.Value -> string)
    ensures Json.Get(LogUserAction(userId, action, details, SetRequestContext(p, id, ip, ua, user), dumps).extra,
                     "request_id") == Some(Json.Str(id))
    ensures |LogUserAction(userId, action, details, ClearContext(p), dumps).extra| == 2
  {
    var c := SetRequestContext(p, id, ip, ua, user);
    var base := [Json.Field("user_id", userId), Json.Field("action", Json.Str(action))];
    Json.GetAbsent(base, "request_id");
    Json.GetAppend(base, ContextFields(c), "request_id");
  }

  // ---------------------------------------------------------------------
  // Structured lines
  // ---------------------------------------------------------------------

  /** The standard attributes a structured line always carries, already
      rendered (`timestamp`, `level`, `logger`, `message`, `module`,
      `function`, `line`). */
  datatype Standard = Standard(timestamp: string, levelName: string, logger: string, message: string,
                               module_: string, function_: string, line: int)

  /** The record attributes copied when present, with the key each gets. */
  const Optional: seq<(string, string)> := [("user_id", "user_id"), ("request_id", "request_id"),
                                            ("ip_address", "ip_address"), ("user_agent", "user_agent"),
                                            ("execution_time", "execution_time_ms")]

  /** Copies the optional attributes present in `extra`, in order. */
  function Copied(extra: seq<Json.Field>, names: seq<(string, string)>): (r: seq<Json.Field>)
    ensures |r| <= |names|
    ensures forall f :: f in r ==> exists n :: n in names && f.key == n.1 && Json.Get(extra, n.0) == Some(f.val)
    ensures forall n :: n in names && Json.HasKey(extra, n.0) ==> Json.Field(n.1, Json.Get(extra, n.0).value) in r
    decreases |names|
  {
    if |names| == 0 then []
    else
      var n := names[0];
      (match Json.Get(extra, n.0)
       case Some(v) => [Json.Field(n.1, v)]
       case None => [])
      + Copied(extra, names[1..])
  }

  /** The layout of a structured line around the copied attributes. */
  function Entry(std: Standard, copied: seq<Json.Field>, exception: Option<string>,
                 environment: Option<string>): (entry: seq<Json.Field>)
    requires forall f :: f in copied ==> f.key != "exception"
    ensures |entry| == 9 + |copied| + (if exception.Some? then 1 else 0)
    ensures entry[..7] == StandardFields(std)
    ensures entry[|entry| - 2] == Json.Field("environment", Json.Str(environment.GetOr("development")))
    ensures entry[|entry| - 1] == Json.Field("service", Json.Str("tou_connect"))
    ensures exception.Some? <==> Json.Field("exception", Json.Str(exception.GetOr(""))) in entry
    ensures forall f :: f in copied ==> f in entry
  {
    var exc := if exception.Some? then [Json.Field("exception", Json.Str(exception.value))] else [];
    var tail := [Json.Field("environment", Json.Str(environment.GetOr("development"))),
                 Json.Field("service", Json.Str("tou_connect"))];
    var entry := StandardFields(std) + copied + exc + tail;
    assert entry[..7] == StandardFields(std);
    assert entry == (StandardFields(std) + copied) + exc + tail;
    assert forall f :: f in tail ==> f.key != "exception";
    entry
  }

  /** `StructuredFormatter.format` before the JSON encoding: the standard
      fields, the optional attributes the record has (an attribute set to
      `None` is still present), the exception text, and then always the
      environment and the service name. */
  function Format(std: Standard, extra: seq<Json.Field>, exception: Option<string>,
                  environment: Option<string>): (entry: seq<Json.Field>)
    ensures |entry| >= 9
    ensures entry[..7] == StandardFields(std)
    ensures entry[|entry| - 2] == Json.Field("environment", Json.Str(environment.GetOr("development")))
    ensures entry[|entry| - 1] == Json.Field("service", Json.Str("tou_connect"))
    ensures exception.Some? <==> Json.Field("exception", Json.Str(exception.GetOr(""))) in entry
    ensures forall n :: n in Optional && Json.HasKey(extra, n.0) ==> Json.Field(n.1, Json.Get(extra, n.0).value) in entry
  {
    var copied := Copied(extra, Optional);
    OptionalTargets();
    Entry(std, copied, exception, environment)
  }

  /** No optional attribute is written under the `exception` key. */
  lemma OptionalTargets()
    ensures forall n :: n in Optional ==> n.1 != "exception"
  {
    forall n | n in Optional
      ensures n.1 != "exception"
    {
      var i :| 0 <= i < |Optional| && Optional[i] == n;
      assert i == 0 || i == 1 || i == 2 || i == 3 || i == 4;
    }
  }

  function StandardFields(std: Standard): (r: seq<Json.Field>)
    ensures |r| == 7
    ensures forall i :: 0 <= i < 7 ==> r[i].key != "exception"
  {
    [Json.Field("timestamp", Json.Str(std.timestamp)), Json.Field("level", Json.Str(std.levelName)),
     Json.Field("logger", Json.Str(std.logger)), Json.Field("message", Json.Str(std.message)),
     Json.Field("module", Json.Str(std.module_)), Json.Field("function", Json.Str(std.function_)),
     Json.Field("line", Json.Num(std.line as real))]
  }

  /** A record without any of the optional attributes formats to the
      standard fields and the two trailing ones only. */
  lemma PlainRecordFormat(std: Standard, extra: seq<Json.Field>, environment: Option<string>)
    requires forall n :: n in Optional ==> !Json.HasKey(extra, n.0)
    ensures |Format(std, extra, None, environment)| == 9
  {
    NoneCopied(extra, Optional);
  }

  lemma {:induction false} NoneCopied(extra: seq<Json.Field>, names: seq<(string, string)>)
    requires forall n :: n in names ==> !Json.HasKey(extra, n.0)
    ensures Copied(extra, names) == []
    decreases |names|
  {
    if |names| > 0 {
      NoneCopied(extra, names[1..]);
    }
  }
}

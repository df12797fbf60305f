/** User consent and client identification (privacy/privacy_manager.py).
    The `user_consents` and `audit_logs` tables are sequences of rows; the
    request is an optional value. */
module Privacy {
  import opened Wrappers
  import opened Text

  const PrivacyPolicy := "privacy_policy"
  const TermsOfService := "terms_of_service"

  /** The current policy versions the manager is created with. */
  const PrivacyVersion := "1.0"
  const TermsVersion := "1.0"

  /** The version a consent of `kind` is held against: every type other
      than the privacy policy uses the terms version. */
  function CurrentVersion(kind: string): string {
    if kind == PrivacyPolicy then PrivacyVersion else TermsVersion
  }

  datatype ConsentRow = ConsentRow(userId: int, kind: string, version: string, active: bool)

  /** An `audit_logs` row as `log_user_action` writes it; `version` is the
      one metadata entry a consent records. */
  datatype AuditRow = AuditRow(userId: int, action: string, resourceType: string, version: string)

  datatype Store = Store(consents: seq<ConsentRow>, audit: seq<AuditRow>)

  predicate Matches(row: ConsentRow, user: int, kind: string) {
    row.userId == user && row.kind == kind
  }

  /** `UPDATE user_consents SET is_active = FALSE WHERE user_id = ? AND consent_type = ?`. */
  function Deactivate(rows: seq<ConsentRow>, user: int, kind: string): (r: seq<ConsentRow>)
    ensures |r| == |rows|
    ensures forall i :: 0 <= i < |r| && Matches(rows[i], user, kind) ==> r[i] == rows[i].(active := false)
    ensures forall i :: 0 <= i < |r| && !Matches(rows[i], user, kind) ==> r[i] == rows[i]
    decreases |rows|
  {
    if |rows| == 0 then []
    else
      [if Matches(rows[0], user, kind) then rows[0].(active := false) else rows[0]]
      + Deactivate(rows[1..], user, kind)
  }

  /** The version a new consent gets: the given one, or the current one
      for its type. */
  function VersionFor(kind: string, version: Option<string>): string {
    version.GetOr(CurrentVersion(kind))
  }

  /** `create_consent_record`: the user's earlier consents of this type are
      switched off, the new one is appended active, and the audit log gets
      `consent_given_<type>`. */
  function CreateConsentRecord(s: Store, user: int, kind: string, version: Option<string>): (r: Store)
    ensures |r.consents| == |s.consents| + 1
    ensures r.consents[|s.consents|] == ConsentRow(user, kind, VersionFor(kind, version), true)
    ensures forall i :: 0 <= i < |s.consents| && Matches(s.consents[i], user, kind) ==> !r.consents[i].active
    ensures forall i :: 0 <= i < |s.consents| && !Matches(s.consents[i], user, kind) ==> r.consents[i] == s.consents[i]
    ensures r.audit == s.audit + [AuditRow(user, "consent_given_" + kind, "consent", VersionFor(kind, version))]
  {
    var v := VersionFor(kind, version);
    Store(Deactivate(s.consents, user, kind) + [ConsentRow(user, kind, v, true)],
          s.audit + [AuditRow(user, "consent_given_" + kind, "consent", v)])
  }

  /** `get_user_consents` without its ordering: the user's active rows. */
  function ActiveConsents(rows: seq<ConsentRow>, user: int): (r: seq<ConsentRow>)
    ensures forall c :: c in r <==> c in rows && c.userId == user && c.active
    decreases |rows|
  {
    if |rows| == 0 then []
    else (if rows[0].userId == user && rows[0].active then [rows[0]] else []) + ActiveConsents(rows[1..], user)
  }

  /** A consent of `kind` at the current version is among `consents`. */
  predicate Given(consents: seq<ConsentRow>, kind: string) {
    exists c :: c in consents && c.kind == kind && c.version == CurrentVersion(kind)
  }

  datatype ConsentCheck = ConsentCheck(privacyRequired: bool, termsRequired: bool, anyRequired: bool)

  /** The loop of `check_consent_required`: the two status flags after
      visiting `consents`, starting from `privacy` and `terms`. */
  function Statuses(consents: seq<ConsentRow>, privacy: bool, terms: bool): (st: (bool, bool))
    ensures st.0 <==> privacy || Given(consents, PrivacyPolicy)
    ensures st.1 <==> terms || Given(consents, TermsOfService)
    decreases |consents|
  {
    if |consents| == 0 then (privacy, terms)
    else
      var c := consents[0];
      var ok := c.version == CurrentVersion(c.kind);
      var rest := Statuses(consents[1..], privacy || (ok && c.kind == PrivacyPolicy),
                           terms || (ok && c.kind == TermsOfService));
      assert forall d :: d in consents ==> d == c || d in consents[1..];
      assert forall d :: d in consents[1..] ==> d in consents;
      rest
  }

  /** `check_consent_required`; `None` stands for a consent row that
      cannot be read, after which everything is reported required. */
  function CheckConsentRequired(consents: Option<seq<ConsentRow>>): (r: ConsentCheck)
    ensures consents.None? ==> r == ConsentCheck(true, true, true)
    ensures consents.Some? ==> (r.privacyRequired <==> !Given(consents.value, PrivacyPolicy))
    ensures consents.Some? ==> (r.termsRequired <==> !Given(consents.value, TermsOfService))
    ensures r.anyRequired <==> r.privacyRequired || r.termsRequired
  {
    match consents
    case None => ConsentCheck(true, true, true)
    case Some(cs) =>
      var st := Statuses(cs, false, false);
      ConsentCheck(!st.0, !st.1, !(st.0 && st.1))
  }

  /** The consent check of one user against the store. */
  function ConsentRequired(s: Store, user: int): ConsentCheck {
    CheckConsentRequired(Some(ActiveConsents(s.consents, user)))
  }

  /** The consent just recorded decides: after recording `kind` at version
      `v`, that type is required exactly when `v` is not current. */
  lemma LatestConsentDecides(s: Store, user: int, kind: string, version: Option<string>)
    requires kind in {PrivacyPolicy, TermsOfService}
    ensures var r := CreateConsentRecord(s, user, kind, version);
            var required := if kind == PrivacyPolicy then ConsentRequired(r, user).privacyRequired
                            else ConsentRequired(r, user).termsRequired;
            required <==> VersionFor(kind, version) != CurrentVersion(kind)
  {
    var r := CreateConsentRecord(s, user, kind, version);
    var active := ActiveConsents(r.consents, user);
    var newRow := r.consents[|s.consents|];
    assert newRow in active;
    forall i | 0 <= i < |s.consents|
      ensures !(Matches(r.consents[i], user, kind) && r.consents[i].active)
    {
    }
    forall c | c in active && c.kind == kind
      ensures c == newRow
    {
      var i :| 0 <= i < |r.consents| && r.consents[i] == c;
    }
  }

  /** Recording with the default version clears the requirement for that
      type. */
  lemma DefaultVersionSatisfies(s: Store, user: int, kind: string)
    requires kind in {PrivacyPolicy, TermsOfService}
    ensures kind == PrivacyPolicy ==> !ConsentRequired(CreateConsentRecord(s, user, kind, None), user).privacyRequired
    ensures kind == TermsOfService ==> !ConsentRequired(CreateConsentRecord(s, user, kind, None), user).termsRequired
  {
    LatestConsentDecides(s, user, kind, None);
  }

  /** Another user's consent check is not affected. */
  lemma OtherUsersUntouched(s: Store, user: int, kind: string, version: Option<string>, other: int)
    requires other != user
    ensures ActiveConsents(CreateConsentRecord(s, user, kind, version).consents, other)
            == ActiveConsents(s.consents, other)
  {
    var d := Deactivate(s.consents, user, kind);
    var row := ConsentRow(user, kind, VersionFor(kind, version), true);
    assert (d + [row])[..|d|] == d;
    ActiveAppendOther(d, d + [row], other);
    DeactivateOther(s.consents, user, kind, other);
  }

  lemma {:induction false} ActiveAppendOther(d: seq<ConsentRow>, r: seq<ConsentRow>, other: int)
    requires |r| == |d| + 1 && r[..|d|] == d && r[|d|].userId != other
    ensures ActiveConsents(r, other) == ActiveConsents(d, other)
    decreases |d|
  {
    if |d| == 0 {
      assert r[1..] == [];
    } else {
      assert r[1..][..|d| - 1] == d[1..];
      ActiveAppendOther(d[1..], r[1..], other);
    }
  }

  lemma {:induction false} DeactivateOther(rows: seq<ConsentRow>, user: int, kind: string, other: int)
    requires other != user
    ensures ActiveConsents(Deactivate(rows, user, kind), other) == ActiveConsents(rows, other)
    decreases |rows|
  {
    if |rows| > 0 {
      var d := Deactivate(rows, user, kind);
      assert d[1..] == Deactivate(rows[1..], user, kind);
      DeactivateOther(rows[1..], user, kind, other);
    }
  }

  // ---------------------------------------------------------------------
  // Client address
  // ---------------------------------------------------------------------

  /** The parts of the current request `_get_client_ip` reads; a missing
      header and an empty one are alike to it. */
  datatype RequestInfo = RequestInfo(headers: map<string, string>, remoteAddr: Option<string>)

  predicate HasHeader(r: RequestInfo, name: string) {
    name in r.headers && r.headers[name] != ""
  }

  /** `_get_client_ip`: the first `X-Forwarded-For` entry, trimmed; else
      `X-Real-IP`; else the peer address, which may itself be `None`; and
      "unknown" outside a request. */
  function ClientIp(req: Option<RequestInfo>): (ip: Option<string>)
    ensures req.None? ==> ip == Some("unknown")
    ensures req.Some? && HasHeader(req.value, "X-Forwarded-For") ==>
              ip == Some(Strip(Split(req.value.headers["X-Forwarded-For"], ',')[0]))
    ensures req.Some? && !HasHeader(req.value, "X-Forwarded-For") && HasHeader(req.value, "X-Real-IP") ==>
              ip == Some(req.value.headers["X-Real-IP"])
    ensures req.Some? && !HasHeader(req.value, "X-Forwarded-For") && !HasHeader(req.value, "X-Real-IP") ==>
              ip == req.value.remoteAddr
  {
    match req
    case None => Some("unknown")
    case Some(r) =>
      if HasHeader(r, "X-Forwarded-For") then Some(Strip(Split(r.headers["X-Forwarded-For"], ',')[0]))
      else if HasHeader(r, "X-Real-IP") then Some(r.headers["X-Real-IP"])
      else r.remoteAddr
  }

  /** A proxy chain `client, proxy1, ...` yields the client. */
  lemma ForwardedChainGivesClient(r: RequestInfo, client: string, rest: string)
    requires ',' !in client && |client| > 0 && !IsSpace(client[0]) && !IsSpace(client[|client| - 1])
    requires "X-Forwarded-For" in r.headers && r.headers["X-Forwarded-For"] == client + "," + rest
    ensures ClientIp(Some(r)) == Some(client)
  {
    SplitFirst(client, rest, ',');
  }

  lemma {:induction false} SplitFirst(a: string, b: string, c: char)
    requires c !in a
    ensures Split(a + [c] + b, c)[0] == a
    decreases |a|
  {
    if |a| == 0 {
      assert a + [c] + b == [c] + b;
      assert ([c] + b)[1..] == b;
    } else {
      assert (a + [c] + b)[1..] == a[1..] + [c] + b;
      SplitFirst(a[1..], b, c);
      assert [a[0]] + a[1..] == a;
    }
  }
}

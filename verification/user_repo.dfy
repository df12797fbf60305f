/** The user repository (repositories/user_repository.py) over the `users`
    table, whose `twitter_username` is UNIQUE NOT NULL and whose
    `twitter_id` is UNIQUE. Rows are soft-deleted, so lookups see only
    active users while the constraints see every row. */
module UserRepo {
  import opened Wrappers
  import opened Json
  import opened Sql

  /** The profile columns a Twitter record fills in. */
  datatype Profile = Profile(
    name: Value, bio: Value, location: Value,
    followers: Value, following: Value, tweets: Value,
    verified: Value, imageUrl: Value)

  datatype User = User(id: nat, username: Value, twitterId: Value, profile: Profile, active: bool)

  /** `nextId` is the row id the next insert receives. */
  datatype Store = Store(users: seq<User>, nextId: nat)

  datatype DbError =
    | DuplicateUser(username: Value)   // DuplicateUserError
    | ConstraintViolated               // DatabaseError from a UNIQUE or NOT NULL constraint
    | UserNotFound(id: nat)            // UserNotFoundError
    | MissingUsername                  // KeyError from `twitter_data['username']`

  /** Row ids are distinct and below `nextId`; usernames are distinct, and so
      are the twitter ids that are not NULL. */
  predicate Valid(s: Store) {
    (forall i :: 0 <= i < |s.users| ==> s.users[i].id < s.nextId && !s.users[i].username.Null?)
    && (forall i, j :: 0 <= i < j < |s.users| ==> s.users[i].id != s.users[j].id)
    && (forall i, j :: 0 <= i < j < |s.users| ==> s.users[i].username != s.users[j].username)
    && (forall i, j :: 0 <= i < j < |s.users| && !s.users[i].twitterId.Null? ==> s.users[i].twitterId != s.users[j].twitterId)
  }

  /** The profile of a new user: each column from the record, or its default. */
  function FromTwitter(data: seq<Field>): Profile {
    Profile(
      Get(data, "name").GetOr(Str("")), Get(data, "description").GetOr(Str("")),
      Get(data, "location").GetOr(Str("")), Get(data, "followers_count").GetOr(Num(0.0)),
      Get(data, "following_count").GetOr(Num(0.0)), Get(data, "tweet_count").GetOr(Num(0.0)),
      Get(data, "verified").GetOr(Bool(false)), Get(data, "profile_image_url").GetOr(Str("")))
  }

  /** `update_user`'s columns: each from the record when it has the key,
      otherwise the stored value. */
  function Merge(p: Profile, data: seq<Field>): (r: Profile)
    ensures HasKey(data, "name") ==> r.name == Get(data, "name").value
    ensures !HasKey(data, "name") ==> r.name == p.name
    ensures HasKey(data, "description") ==> r.bio == Get(data, "description").value
    ensures !HasKey(data, "description") ==> r.bio == p.bio
  {
    Profile(
      Get(data, "name").GetOr(p.name), Get(data, "description").GetOr(p.bio),
      Get(data, "location").GetOr(p.location), Get(data, "followers_count").GetOr(p.followers),
      Get(data, "following_count").GetOr(p.following), Get(data, "tweet_count").GetOr(p.tweets),
      Get(data, "verified").GetOr(p.verified), Get(data, "profile_image_url").GetOr(p.imageUrl))
  }

  /** A record with no profile keys changes nothing; a record with all of
      them overwrites everything, exactly as a new user would be created. */
  lemma MergePartners(p: Profile, data: seq<Field>)
    ensures Merge(p, []) == p
    ensures HasKey(data, "name") && HasKey(data, "description") && HasKey(data, "location")
            && HasKey(data, "followers_count") && HasKey(data, "following_count") && HasKey(data, "tweet_count")
            && HasKey(data, "verified") && HasKey(data, "profile_image_url")
            ==> Merge(p, data) == FromTwitter(data)
  {
  }

  /** `get_user_by_username`: the active user with that name. */
  function FindActive(users: seq<User>, username: Value): (r: Option<User>)
    ensures r.Some? ==> r.value in users && r.value.active && r.value.username == username
    ensures r.None? <==> forall i :: 0 <= i < |users| ==> !(users[i].active && users[i].username == username)
    decreases |users|
  {
    if |users| == 0 then None
    else if users[0].active && users[0].username == username then Some(users[0])
    else FindActive(users[1..], username)
  }

  /** `get_user_by_id`: the active user with that id. */
  function FindActiveById(users: seq<User>, id: nat): (r: Option<User>)
    ensures r.Some? ==> r.value in users && r.value.active && r.value.id == id
    ensures r.None? <==> forall i :: 0 <= i < |users| ==> !(users[i].active && users[i].id == id)
    decreases |users|
  {
    if |users| == 0 then None
    else if users[0].active && users[0].id == id then Some(users[0])
    else FindActiveById(users[1..], id)
  }

  /** The INSERT breaks a constraint: a NULL name, or a name or non-NULL id
      that some row, active or not, already holds. */
  predicate Clashes(users: seq<User>, username: Value, twitterId: Value) {
    username.Null?
    || (exists i :: 0 <= i < |users| && users[i].username == username)
    || (!twitterId.Null? && exists i :: 0 <= i < |users| && users[i].twitterId == twitterId)
  }

  /** `create_user`. The answer is the new store (an insert is committed
      before the final log line reads `twitter_data['username']`) and the
      id or the error raised. */
  function CreateUser(s: Store, data: seq<Field>): (r: (Store, Result<nat, DbError>))
    requires Valid(s)
    ensures Valid(r.0)
    ensures FindActive(s.users, Get(data, "username").GetOr(Str(""))).Some? && HasKey(data, "username")
            ==> r == (s, Err(DuplicateUser(Get(data, "username").value)))
    ensures r.1.Ok? <==> HasKey(data, "username")
                         && !Clashes(s.users, Get(data, "username").value, Get(data, "id").GetOr(Str("")))
    ensures r.1.Ok? ==> r.1.value == s.nextId && |r.0.users| == |s.users| + 1
                        && Get(data, "username") == Some(r.0.users[|s.users|].username)
                        && r.0.users[|s.users|].active && r.0.users[|s.users|].id == s.nextId
    ensures |s.users| <= |r.0.users| <= |s.users| + 1 && r.0.users[..|s.users|] == s.users
  {
    var username := Get(data, "username").GetOr(Str(""));
    var twitterId := Get(data, "id").GetOr(Str(""));
    if FindActive(s.users, username).Some? then
      (s, Err(if HasKey(data, "username") then DuplicateUser(username) else MissingUsername))
    else if Clashes(s.users, username, twitterId) then
      (s, Err(ConstraintViolated))
    else
      var s' := Store(s.users + [User(s.nextId, username, twitterId, FromTwitter(data), true)], s.nextId + 1);
      assert s'.users[..|s.users|] == s.users;
      (s', if HasKey(data, "username") then Ok(s.nextId) else Err(MissingUsername))
  }

  /** `update_user`: the active user's columns are merged with the record;
      nothing else changes. */
  function UpdateUser(s: Store, id: nat, data: seq<Field>): (r: Result<Store, DbError>)
    requires Valid(s)
    ensures r.Err? <==> FindActiveById(s.users, id).None?
    ensures r.Err? ==> r.error == UserNotFound(id)
    ensures r.Ok? ==> Valid(r.value) && r.value.nextId == s.nextId && |r.value.users| == |s.users|
    ensures r.Ok? ==> forall i :: 0 <= i < |s.users| ==>
                        r.value.users[i] == (if s.users[i].id == id then s.users[i].(profile := Merge(s.users[i].profile, data)) else s.users[i])
  {
    if FindActiveById(s.users, id).None? then Err(UserNotFound(id))
    else
      Ok(Store(seq(|s.users|, i requires 0 <= i < |s.users| =>
                   if s.users[i].id == id then s.users[i].(profile := Merge(s.users[i].profile, data)) else s.users[i]),
               s.nextId))
  }

  /** `create_or_update_user`: an active user with the name is updated and
      keeps its id; otherwise the user is created. */
  function CreateOrUpdateUser(s: Store, data: seq<Field>): (r: (Store, Result<nat, DbError>))
    requires Valid(s)
    ensures Valid(r.0)
    ensures FindActive(s.users, Get(data, "username").GetOr(Str(""))).Some? ==>
              |r.0.users| == |s.users| && r.1 == Ok(FindActive(s.users, Get(data, "username").GetOr(Str(""))).value.id)
    ensures FindActive(s.users, Get(data, "username").GetOr(Str(""))).None? ==> r == CreateUser(s, data)
  {
    var username := Get(data, "username").GetOr(Str(""));
    match FindActive(s.users, username)
    case Some(u) =>
      var i :| 0 <= i < |s.users| && s.users[i] == u;
      assert FindActiveById(s.users, u.id).Some? by { assert s.users[i].active && s.users[i].id == u.id; }
      (UpdateUser(s, u.id, data).value, Ok(u.id))
    case None => CreateUser(s, data)
  }

  /** An update keeps every user's name, id and activity, so lookups by name
      find the same rows. */
  lemma {:induction false} UpdateKeepsLookups(s: Store, id: nat, data: seq<Field>, name: Value)
    requires Valid(s) && UpdateUser(s, id, data).Ok?
    ensures FindActive(UpdateUser(s, id, data).value.users, name).Some? == FindActive(s.users, name).Some?
    ensures FindActive(s.users, name).Some? ==>
              FindActive(UpdateUser(s, id, data).value.users, name).value.id == FindActive(s.users, name).value.id
  {
    var t := UpdateUser(s, id, data).value;
    assert forall i :: 0 <= i < |s.users| ==> SameKeys(s.users[i], t.users[i]);
    FindActiveSameKeys(s.users, t.users, name);
  }

  /** Two rows agree on everything a lookup by name reads or returns as id. */
  predicate SameKeys(u: User, v: User) {
    u.username == v.username && u.active == v.active && u.id == v.id
  }

  lemma {:induction false} FindActiveSameKeys(a: seq<User>, b: seq<User>, name: Value)
    requires |a| == |b| && forall i :: 0 <= i < |a| ==> SameKeys(a[i], b[i])
    ensures FindActive(a, name).Some? == FindActive(b, name).Some?
    ensures FindActive(a, name).Some? ==> FindActive(a, name).value.id == FindActive(b, name).value.id
    decreases |a|
  {
    if |a| > 0 {
      assert SameKeys(a[0], b[0]);
      assert forall i :: 0 <= i < |a| - 1 ==> SameKeys(a[1..][i], b[1..][i]) by {
        forall i | 0 <= i < |a| - 1 ensures SameKeys(a[1..][i], b[1..][i]) {
          assert a[1..][i] == a[i + 1] && b[1..][i] == b[i + 1];
        }
      }
      FindActiveSameKeys(a[1..], b[1..], name);
    }
  }

  /** Creating or updating the same record twice yields the same id and
      no second row. */
  lemma CreateOrUpdateIdempotent(s: Store, data: seq<Field>)
    requires Valid(s)
    requires CreateOrUpdateUser(s, data).1.Ok?
    ensures CreateOrUpdateUser(CreateOrUpdateUser(s, data).0, data).1 == CreateOrUpdateUser(s, data).1
    ensures |CreateOrUpdateUser(CreateOrUpdateUser(s, data).0, data).0.users| == |CreateOrUpdateUser(s, data).0.users|
  {
    var username := Get(data, "username").GetOr(Str(""));
    match FindActive(s.users, username)
    case Some(u) =>
      UpdateKeepsLookups(s, u.id, data, username);
    case None =>
      CreatedIsFound(s, data);
  }

  /** A user just created is the one its name now finds. */
  lemma CreatedIsFound(s: Store, data: seq<Field>)
    requires Valid(s)
    requires FindActive(s.users, Get(data, "username").GetOr(Str(""))).None?
    requires CreateUser(s, data).1.Ok?
    ensures FindActive(CreateUser(s, data).0.users, Get(data, "username").GetOr(Str(""))).Some?
    ensures FindActive(CreateUser(s, data).0.users, Get(data, "username").GetOr(Str(""))).value.id == CreateUser(s, data).1.value
  {
    var username := Get(data, "username").GetOr(Str(""));
    var t := CreateUser(s, data).0;
    var n := |s.users|;
    assert t.users[n].active && t.users[n].username == username;
    var v := FindActive(t.users, username).value;
    var j :| 0 <= j < |t.users| && t.users[j] == v;
    assert forall k :: 0 <= k < n ==> t.users[k] == s.users[k];
    assert j == n;
  }

  /** `delete_user`: the row with that id is switched off, whether or not it
      was active; the answer says whether such a row exists. */
  function DeleteUser(s: Store, id: nat): (r: (Store, bool))
    requires Valid(s)
    ensures Valid(r.0) && r.0.nextId == s.nextId && |r.0.users| == |s.users|
    ensures r.1 <==> exists i :: 0 <= i < |s.users| && s.users[i].id == id
    ensures forall i :: 0 <= i < |s.users| ==>
              r.0.users[i] == (if s.users[i].id == id then s.users[i].(active := false) else s.users[i])
  {
    var users := seq(|s.users|, i requires 0 <= i < |s.users| =>
                       if s.users[i].id == id then s.users[i].(active := false) else s.users[i]);
    (Store(users, s.nextId), exists i :: 0 <= i < |s.users| && s.users[i].id == id)
  }

  /** A deleted user is no longer found by id. */
  lemma DeletedIsGone(s: Store, id: nat)
    requires Valid(s)
    ensures FindActiveById(DeleteUser(s, id).0.users, id).None?
  {
  }

  /** Soft deletion keeps the name taken: creating a user under the name of
      a deleted one breaks the UNIQUE constraint instead of reviving it. */
  lemma DeletedNameStaysTaken(s: Store, id: nat, data: seq<Field>)
    requires Valid(s)
    requires exists i :: 0 <= i < |s.users| && s.users[i].id == id && Get(data, "username") == Some(s.users[i].username)
    ensures CreateUser(DeleteUser(s, id).0, data).1 == Err(ConstraintViolated)
  {
    var t := DeleteUser(s, id).0;
    var i :| 0 <= i < |s.users| && s.users[i].id == id && Get(data, "username") == Some(s.users[i].username);
    var name := s.users[i].username;
    assert t.users[i].username == name && !t.users[i].active;
    forall j | 0 <= j < |t.users| && t.users[j].username == name
      ensures j == i
    {
      assert s.users[j].username == name;
    }
    assert FindActive(t.users, name).None?;
  }

  /** `get_user_count`: the number of active users. */
  function ActiveCount(users: seq<User>): (n: nat)
    ensures n <= |users|
    ensures n == 0 <==> forall i :: 0 <= i < |users| ==> !users[i].active
    decreases |users|
  {
    if |users| == 0 then 0
    else (if users[0].active then 1 else 0) + ActiveCount(users[1..])
  }

  lemma {:induction false} ActiveCountAppend(users: seq<User>, u: User)
    ensures ActiveCount(users + [u]) == ActiveCount(users) + (if u.active then 1 else 0)
    decreases |users|
  {
    if |users| > 0 {
      assert (users + [u])[1..] == users[1..] + [u];
      ActiveCountAppend(users[1..], u);
    }
  }

  /** A successful create adds one to the user count. */
  lemma CreateCounts(s: Store, data: seq<Field>)
    requires Valid(s) && CreateUser(s, data).1.Ok?
    ensures ActiveCount(CreateUser(s, data).0.users) == ActiveCount(s.users) + 1
  {
    var t := CreateUser(s, data).0;
    assert t.users == s.users + [t.users[|s.users|]];
    ActiveCountAppend(s.users, t.users[|s.users|]);
  }

  // ---------------------------------------------------------------------
  // Searching
  // ---------------------------------------------------------------------

  const SearchBase := "SELECT * FROM users WHERE is_active = TRUE"

  /** Python's `str()` of a value, which `f"%{v}%"` uses: a string is itself,
      and `show` stands for the rendering of anything else. */
  function Display(v: Value, show: Value -> string): string {
    if v.Str? then v.s else show(v)
  }

  /** A `LIKE` criterion: the value wrapped in `%` on both sides. */
  function LikeCriterion(filters: seq<Field>, key: string, condition: string, show: Value -> string): (c: Criterion)
    ensures c.applies <==> Truthy(Get(filters, key).GetOr(Null))
    ensures c.applies ==> c.param == Str("%" + Display(Get(filters, key).value, show) + "%")
  {
    var v := Get(filters, key).GetOr(Null);
    Criterion(Truthy(v), condition, Str("%" + Display(v, show) + "%"))
  }

  /** A criterion that binds the value itself when it is truthy. */
  function ValueCriterion(filters: seq<Field>, key: string, condition: string): (c: Criterion)
    ensures c.applies <==> Truthy(Get(filters, key).GetOr(Null))
    ensures c.applies ==> c.param == Get(filters, key).value
  {
    var v := Get(filters, key).GetOr(Null);
    Criterion(Truthy(v), condition, v)
  }

  /** The `verified` criterion applies whenever the value is not `None`,
      `False` included. */
  function VerifiedCriterion(filters: seq<Field>): (c: Criterion)
    ensures c.applies <==> Get(filters, "verified").Some? && !Get(filters, "verified").value.Null?
    ensures c.applies ==> c.param == Get(filters, "verified").value
  {
    var v := Get(filters, "verified").GetOr(Null);
    Criterion(!v.Null?, " AND verified = ", v)
  }

  function SearchCriteria(filters: seq<Field>, show: Value -> string): seq<Criterion> {
    [LikeCriterion(filters, "location", " AND location LIKE ", show),
     VerifiedCriterion(filters),
     ValueCriterion(filters, "min_followers", " AND followers_count >= "),
     ValueCriterion(filters, "max_followers", " AND followers_count <= "),
     LikeCriterion(filters, "name_contains", " AND name LIKE ", show),
     LikeCriterion(filters, "bio_contains", " AND bio LIKE ", show)]
  }

  /** `search_users`: the active-user head, one clause and one parameter per
      present filter, then ordering and paging whose two placeholders take
      the last two parameters. */
  function SearchUsers(filters: seq<Field>, limit: int, offset: int, show: Value -> string): (q: Query)
    ensures Balanced(q)
    ensures |q.params| >= 2 && q.params[|q.params| - 2..] == [Num(limit as real), Num(offset as real)]
    ensures |q.params| == 2 + Applying(SearchCriteria(filters, show))
    ensures q.sql[0] == Words(SearchBase)
  {
    var cs := SearchCriteria(filters, show);
    var base := Query([Words(SearchBase)], []);
    assert Placeholders(base.sql) == 0 by { assert base.sql[1..] == []; }
    var q := AddCriteria(base, cs);
    var paging := [Words(" ORDER BY updated_at DESC LIMIT "), Mark, Words(" OFFSET "), Mark];
    assert Placeholders(paging) == 2 by {
      assert paging[1..][1..] == paging[2..] && paging[2..][1..] == paging[3..] && paging[3..][1..] == [];
    }
    PlaceholdersAppend(q.sql, paging);
    Query(q.sql + paging, q.params + [Num(limit as real), Num(offset as real)])
  }

  /** With no filter present only the two paging parameters are bound; a
      `verified` of `False` is a filter, a follower bound of 0 is not. */
  lemma SearchWithoutFilters(filters: seq<Field>, limit: int, offset: int, show: Value -> string)
    ensures |SearchUsers(filters, limit, offset, show).params| == 2 <==>
              (!Truthy(Get(filters, "location").GetOr(Null))
               && Get(filters, "verified").GetOr(Null).Null?
               && !Truthy(Get(filters, "min_followers").GetOr(Null))
               && !Truthy(Get(filters, "max_followers").GetOr(Null))
               && !Truthy(Get(filters, "name_contains").GetOr(Null))
               && !Truthy(Get(filters, "bio_contains").GetOr(Null)))
  {
    var cs := SearchCriteria(filters, show);
    ApplyingZero(cs);
    assert !cs[0].applies && !cs[1].applies && !cs[2].applies && !cs[3].applies && !cs[4].applies && !cs[5].applies
           <==> forall i :: 0 <= i < |cs| ==> !cs[i].applies;
  }
}

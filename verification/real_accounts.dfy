/** The fixed-account matcher of real_account_database.py: an integer score
    out of 95 from interest overlap and learning style, the ranking of the
    account table, and the short list of reasons shown with a match. */
module RealAccounts {
  import opened Text
  import opened Collections
  import Sorting

  datatype Account = Account(username: string, displayName: string, category: string,
                             interests: seq<string>, learningStyle: string, description: string)

  function LowerAll(xs: seq<string>): (r: seq<string>)
    ensures |r| == |xs|
    ensures forall i :: 0 <= i < |xs| ==> r[i] == Lower(xs[i])
  {
    seq(|xs|, i requires 0 <= i < |xs| => Lower(xs[i]))
  }

  function AsSet(xs: seq<string>): set<string> {
    set i | 0 <= i < |xs| :: xs[i]
  }

  /** Either name occurs inside the other. */
  predicate Overlaps(a: string, b: string) {
    Contains(b, a) || Contains(a, b)
  }

  /** Half a point for each pair of overlapping names whose user side is not
      an exact match. */
  function PartialRow(u: string, account: seq<string>, common: set<string>): (r: real)
    ensures 0.0 <= r <= 0.5 * (|account| as real)
    ensures u in common ==> r == 0.0
    decreases |account|
  {
    if |account| == 0 then 0.0
    else
      (if Overlaps(u, account[0]) && u !in common then 0.5 else 0.0) + PartialRow(u, account[1..], common)
  }

  function Partial(user: seq<string>, account: seq<string>, common: set<string>): (r: real)
    ensures 0.0 <= r
    ensures (forall i :: 0 <= i < |user| ==> user[i] in common) ==> r == 0.0
    decreases |user|
  {
    if |user| == 0 then 0.0
    else PartialRow(user[0], account, common) + Partial(user[1..], account, common)
  }

  /** The interest part: exact and partial matches over the longer list, times 60. */
  function InterestPart(userInterests: seq<string>, accountInterests: seq<string>): (r: real)
    ensures r >= 0.0
    ensures |userInterests| == 0 && |accountInterests| == 0 ==> r == 0.0
  {
    var ul := LowerAll(userInterests);
    var al := LowerAll(accountInterests);
    var common := AsSet(ul) * AsSet(al);
    var maxInterests := Max(|userInterests|, |accountInterests|);
    if maxInterests > 0 then Share((|common| as real) + Partial(ul, al, common), maxInterests) * 60.0
    else 0.0
  }

  /** `points / count` for a positive count. */
  function Share(points: real, count: int): (r: real)
    requires points >= 0.0 && count > 0
    ensures r >= 0.0
    ensures points == count as real ==> r == 1.0
  {
    var c := count as real;
    assert c > 0.0;
    assert points == c ==> points / c == c / c == 1.0;
    points / c
  }

  /** The learning-style part: 40 for the same style, 25 when one contains the
      other, 20 for a shared 実践的 or 学術的, else 0. */
  function StylePart(userStyle: string, accountStyle: string): (r: int)
    ensures r == 40 <==> userStyle == accountStyle
    ensures r == 0 || r == 20 || r == 25 || r == 40
  {
    if userStyle == accountStyle then 40
    else if Contains(accountStyle, userStyle) || Contains(userStyle, accountStyle) then 25
    else if Contains(userStyle, "実践的") && Contains(accountStyle, "実践的") then 20
    else if Contains(userStyle, "学術的") && Contains(accountStyle, "学術的") then 20
    else 0
  }

  /** `calculate_compatibility_score`: the sum truncated to an integer, at most 95. */
  function CompatibilityScore(userInterests: seq<string>, userStyle: string,
                              accountInterests: seq<string>, accountStyle: string): (r: int)
    ensures 0 <= r <= 95
    ensures r >= StylePart(userStyle, accountStyle)
  {
    var total := InterestPart(userInterests, accountInterests) + (StylePart(userStyle, accountStyle) as real);
    Min(total.Floor, 95)
  }

  /** With no interests on either side only the style counts. */
  lemma NoInterestsStyleOnly(userStyle: string, accountStyle: string)
    ensures CompatibilityScore([], userStyle, [], accountStyle) == StylePart(userStyle, accountStyle)
  {
  }

  /** The style part is symmetric, so swapping styles never changes it. */
  lemma StylePartSymmetric(a: string, b: string)
    ensures StylePart(a, b) == StylePart(b, a)
  {
  }

  /** An account with the user's own interests, all distinct in lower case,
      and the user's style reaches the cap. */
  lemma IdenticalProfileHitsCap(interests: seq<string>, style: string)
    requires |interests| > 0 && Distinct(LowerAll(interests))
    ensures CompatibilityScore(interests, style, interests, style) == 95
  {
    var ul := LowerAll(interests);
    var common := AsSet(ul) * AsSet(ul);
    assert common == AsSet(ul);
    DistinctSetCard(ul);
    assert AsSet(ul) == set x | x in ul;
    assert Partial(ul, ul, common) == 0.0;
    assert |common| == |interests|;
  }

  datatype AccountMatch = AccountMatch(username: string, displayName: string, score: int,
                                       reasons: seq<string>, category: string, description: string)

  function MatchScore(m: AccountMatch): real { m.score as real }

  /** The threshold `get_matching_accounts` applies before ranking. */
  predicate AboveThreshold(m: AccountMatch) { m.score > 30 }

  /** One candidate per account, scored, in table order. */
  function Candidates(userInterests: seq<string>, userStyle: string, accounts: seq<Account>): (r: seq<AccountMatch>)
    ensures |r| == |accounts|
    ensures forall i :: 0 <= i < |r| ==>
      r[i].username == accounts[i].username &&
      r[i].score == CompatibilityScore(userInterests, userStyle, accounts[i].interests, accounts[i].learningStyle)
  {
    seq(|accounts|, i requires 0 <= i < |accounts| =>
      var a := accounts[i];
      AccountMatch(a.username, a.displayName,
                   CompatibilityScore(userInterests, userStyle, a.interests, a.learningStyle),
                   MatchReasons(userInterests, a.interests), a.category, a.description))
  }

  /** `get_matching_accounts`: scores above 30, best first, at most `maxMatches`. */
  function MatchingAccounts(userInterests: seq<string>, userStyle: string, accounts: seq<Account>,
                            maxMatches: int): (r: seq<AccountMatch>)
    ensures forall i :: 0 <= i < |r| ==> 30 < r[i].score <= 95
    ensures Sorting.SortedDesc(r, MatchScore)
    ensures maxMatches >= 0 ==> |r| <= maxMatches
    ensures forall i :: 0 <= i < |r| ==> r[i] in Candidates(userInterests, userStyle, accounts)
  {
    var cands := Candidates(userInterests, userStyle, accounts);
    var kept := Filter(cands, AboveThreshold);
    KeptScores(cands, kept);
    Sorting.Ranked(kept, MatchScore, maxMatches)
  }

  lemma KeptScores(cands: seq<AccountMatch>, kept: seq<AccountMatch>)
    requires kept == Filter(cands, AboveThreshold)
    requires forall i :: 0 <= i < |cands| ==> cands[i].score <= 95
    ensures forall m :: m in kept ==> 30 < m.score <= 95 && m in cands
  {
    forall m | m in kept
      ensures 30 < m.score <= 95 && m in cands
    {
      FilterMember(cands, AboveThreshold, m);
    }
  }

  /** When the limit covers the table, every account scoring above 30 is listed. */
  lemma MatchingAccountsComplete(userInterests: seq<string>, userStyle: string, accounts: seq<Account>,
                                 maxMatches: int, i: int)
    requires maxMatches >= |accounts| && 0 <= i < |accounts|
    requires CompatibilityScore(userInterests, userStyle, accounts[i].interests, accounts[i].learningStyle) > 30
    ensures Candidates(userInterests, userStyle, accounts)[i] in MatchingAccounts(userInterests, userStyle, accounts, maxMatches)
  {
    var cands := Candidates(userInterests, userStyle, accounts);
    var kept := Filter(cands, AboveThreshold);
    assert cands[i] in cands;
    assert cands[i] in multiset(kept);
  }

  /** The user's interests that the account shares, each once, in the user's
      order (`set & set`, whose iteration order Python leaves open). */
  function Common(userInterests: seq<string>, accountInterests: seq<string>): (r: seq<string>)
    ensures Distinct(r)
    ensures forall x :: x in r <==> x in userInterests && x in accountInterests
  {
    var shared := Filter(userInterests, (x: string) => x in accountInterests);
    var r := Dedup(shared);
    assert forall i :: 0 <= i < |r| ==> r[i] in multiset(shared);
    r
  }

  const SharedLabel := "共通の興味: "
  const EducationReason := "教育・学習関連"
  const TrustReason := "信頼できる情報源"

  /** `get_match_reasons`: the shared interests (at most two named), then the
      two fixed reasons, cut to three. */
  function MatchReasons(userInterests: seq<string>, accountInterests: seq<string>): (r: seq<string>)
    ensures |r| <= 3
    ensures EducationReason in r
    ensures |r| == 3 <==> (exists x :: x in userInterests && x in accountInterests)
    ensures |r| == 3 ==> IsPrefix(SharedLabel, r[0])
  {
    var common := Common(userInterests, accountInterests);
    var head := if |common| == 0 then []
                else if |common| == 1 then [SharedLabel + common[0]]
                else [SharedLabel + Join(", ", Prefix(common, 2))];
    assert |common| > 0 ==> common[0] in common;
    var all := head + [EducationReason, TrustReason];
    assert all[|head|] == EducationReason;
    Take(all, 3)
  }
}

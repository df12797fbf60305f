/** The compatibility score of matching/matching_engine.py: eight factors, each
    in [0, 1], combined with fixed weights, and the ranking of candidates by
    that score. Scores are reals; the repositories' rows are inputs. */
module Matching {
  import opened Wrappers
  import opened Text
  import opened Collections
  import Sorting

  /** The fields of the latest analysis the factors read. The learning style
      is stored as the analysis gave it, so it is `None` when the column does
      not hold text (a JSON null saved as NULL, or a number). */
  datatype Analysis = Analysis(majorField: string, learningStyle: Option<string>, personalityTraits: string,
                               universityRelation: string)

  /** `_get_user_complete_data`: the user row, the latest analysis (absent or
      empty counts as missing), and the interest and skill names. */
  datatype UserData = UserData(location: Option<string>, followers: nat, tweets: nat,
                               analysis: Option<Analysis>, interests: seq<string>, skills: seq<string>)

  /** The lower-cased names as a set. */
  function LowerSet(names: seq<string>): set<string> {
    set i | 0 <= i < |names| :: Lower(names[i])
  }

  function MinR(a: real, b: real): real { if a <= b then a else b }
  function MaxR(a: real, b: real): real { if a >= b then a else b }
  function AbsR(a: real): real { if a >= 0.0 then a else -a }

  const TechInterests: set<string> := {"プログラミング", "ai・機械学習", "web開発", "データ分析", "it・情報システム"}

  /** `_calculate_interest_compatibility`: Jaccard of the name sets plus 0.1 per
      shared technical interest, capped at 1. */
  function InterestCompat(u1: UserData, u2: UserData): (r: real)
    ensures 0.0 <= r <= 1.0
    ensures LowerSet(u1.interests) == {} || LowerSet(u2.interests) == {} ==> r == 0.0
  {
    var s1 := LowerSet(u1.interests);
    var s2 := LowerSet(u2.interests);
    if s1 == {} || s2 == {} then 0.0
    else
      var common := s1 * s2;
      IntersectionCard(s1, s2);
      var jaccard := (|common| as real) / (|s1 + s2| as real);
      assert jaccard <= 1.0 by { RatioAtMostOne(|common|, |s1 + s2|); }
      var bonus := 0.1 * (|common * TechInterests| as real);
      MinR(jaccard + bonus, 1.0)
  }

  lemma RatioAtMostOne(part: nat, total: nat)
    requires 0 < total && part <= total
    ensures 0.0 <= (part as real) / (total as real) <= 1.0
  {
    assert (part as real) / (total as real) * (total as real) == part as real;
  }

  datatype SkillGroup = SkillGroup(name: string, skills: set<string>)

  const SkillGroups: seq<SkillGroup> := [
    SkillGroup("web_frontend", {"javascript", "html/css", "react", "vue"}),
    SkillGroup("web_backend", {"python", "java", "php", "node.js"}),
    SkillGroup("data_science", {"python", "sql", "excel", "r"}),
    SkillGroup("ai_ml", {"python", "chatgpt", "tensorflow", "pytorch"})
  ]

  /** 0.2 for each group in which both users hold skills, but different ones. */
  function ComplementSum(groups: seq<SkillGroup>, s1: set<string>, s2: set<string>): (r: real)
    ensures 0.0 <= r <= 0.2 * (|groups| as real)
    decreases |groups|
  {
    if |groups| == 0 then 0.0
    else
      var g1 := s1 * groups[0].skills;
      var g2 := s2 * groups[0].skills;
      (if g1 != {} && g2 != {} && g1 != g2 then 0.2 else 0.0) + ComplementSum(groups[1..], s1, s2)
  }

  /** `_calculate_skill_complement` */
  function SkillComplement(s1: set<string>, s2: set<string>): (r: real)
    ensures 0.0 <= r <= 0.8
  {
    MinR(ComplementSum(SkillGroups, s1, s2), 1.0)
  }

  lemma {:induction false} ComplementSumSymmetric(groups: seq<SkillGroup>, s1: set<string>, s2: set<string>)
    ensures ComplementSum(groups, s1, s2) == ComplementSum(groups, s2, s1)
    decreases |groups|
  {
    if |groups| > 0 {
      ComplementSumSymmetric(groups[1..], s1, s2);
    }
  }

  /** `_calculate_skill_compatibility`: 0.7 of the shared share plus 0.3 of the
      complement. */
  function SkillCompat(u1: UserData, u2: UserData): (r: real)
    ensures 0.0 <= r <= 1.0
  {
    var s1 := LowerSet(u1.skills);
    var s2 := LowerSet(u2.skills);
    if s1 == {} || s2 == {} then 0.0
    else
      IntersectionCard(s1, s2);
      var common := (|s1 * s2| as real) / (Max(|s1|, |s2|) as real);
      RatioAtMostOne(|s1 * s2|, Max(|s1|, |s2|));
      Blend(common, SkillComplement(s1, s2))
  }

  /** 0.7 of the shared share plus 0.3 of the complement. */
  function Blend(common: real, complement: real): (r: real)
    requires 0.0 <= common <= 1.0 && 0.0 <= complement <= 1.0
    ensures 0.0 <= r <= 1.0
  {
    common * 0.7 + complement * 0.3
  }

  /** `_calculate_major_field_compatibility` */
  function MajorCompat(u1: UserData, u2: UserData): (r: real)
    ensures 0.0 <= r <= 1.0
    ensures u1.analysis.None? || u2.analysis.None? ==> r == 0.0
    ensures u1.analysis.Some? && u2.analysis.Some? ==>
      r == (if u1.analysis.value.majorField == u2.analysis.value.majorField then 1.0
            else if {u1.analysis.value.majorField, u2.analysis.value.majorField} == {"情報学", "経営学"} then 0.7
            else 0.3)
  {
    if u1.analysis.None? || u2.analysis.None? then 0.0
    else
      var m1 := u1.analysis.value.majorField;
      var m2 := u2.analysis.value.majorField;
      if m1 == m2 then 1.0
      else if (m1 == "情報学" && m2 == "経営学") || (m1 == "経営学" && m2 == "情報学") then 0.7
      else 0.3
  }

  /** The five keyword groups of the learning-style factor (both sides of each
      pair in the source are the same list). */
  const StyleGroups: seq<seq<string>> := [
    ["オンライン", "online"], ["実践", "実習"], ["理論", "概念"], ["グループ", "協力"], ["個人", "自主"]
  ]

  const TraitGroups: seq<seq<string>> := [
    ["論理的", "分析的"], ["創造的", "クリエイティブ"], ["協調的", "社交的"], ["効率的", "計画的"]
  ]

  /** `step` for each group both texts mention. */
  function SharedGroups(groups: seq<seq<string>>, t1: string, t2: string, step: real): (r: real)
    requires step >= 0.0
    ensures 0.0 <= r <= step * (|groups| as real)
    decreases |groups|
  {
    if |groups| == 0 then 0.0
    else
      (if ContainsAny(t1, groups[0]) && ContainsAny(t2, groups[0]) then step else 0.0) +
      SharedGroups(groups[1..], t1, t2, step)
  }

  lemma {:induction false} SharedGroupsSymmetric(groups: seq<seq<string>>, t1: string, t2: string, step: real)
    requires step >= 0.0
    ensures SharedGroups(groups, t1, t2, step) == SharedGroups(groups, t2, t1, step)
    decreases |groups|
  {
    if |groups| > 0 {
      SharedGroupsSymmetric(groups[1..], t1, t2, step);
    }
  }

  /** Both analyses are present and one of their learning styles is not
      text, so `.lower()` raises AttributeError. */
  predicate StyleRaises(u1: UserData, u2: UserData) {
    u1.analysis.Some? && u2.analysis.Some? &&
    (u1.analysis.value.learningStyle.None? || u2.analysis.value.learningStyle.None?)
  }

  /** `_calculate_learning_style_compatibility`: 0.5 plus 0.1 per shared
      group; `None` stands for the AttributeError a non-text style raises. */
  function StyleCompat(u1: UserData, u2: UserData): (r: Option<real>)
    ensures r.None? <==> StyleRaises(u1, u2)
    ensures r.Some? ==> 0.5 <= r.value <= 1.0
    ensures u1.analysis.None? || u2.analysis.None? ==> r == Some(0.5)
  {
    if u1.analysis.None? || u2.analysis.None? then Some(0.5)
    else match (u1.analysis.value.learningStyle, u2.analysis.value.learningStyle)
      case (Some(l1), Some(l2)) => Some(MinR(0.5 + SharedGroups(StyleGroups, Lower(l1), Lower(l2), 0.1), 1.0))
      case _ => None
  }

  /** `_calculate_personality_compatibility`: 0.5 plus 0.125 per shared group. */
  function PersonalityCompat(u1: UserData, u2: UserData): (r: real)
    ensures 0.5 <= r <= 1.0
  {
    if u1.analysis.None? || u2.analysis.None? then 0.5
    else
      MinR(0.5 + SharedGroups(TraitGroups, Lower(u1.analysis.value.personalityTraits),
                              Lower(u2.analysis.value.personalityTraits), 0.125), 1.0)
  }

  /** `_calculate_university_relation_compatibility` */
  function RelationScore(r1: string, r2: string): (r: real)
    ensures r == 1.0 <==> r1 == "高" && r2 == "高"
    ensures 0.3 <= r <= 1.0
  {
    if r1 == "高" && r2 == "高" then 1.0
    else if (r1 == "高" && r2 == "中") || (r1 == "中" && r2 == "高") then 0.8
    else if r1 == "中" && r2 == "中" then 0.6
    else 0.3
  }

  function UniversityCompat(u1: UserData, u2: UserData): (r: real)
    ensures 0.0 <= r <= 1.0
  {
    if u1.analysis.None? || u2.analysis.None? then 0.0
    else RelationScore(u1.analysis.value.universityRelation, u2.analysis.value.universityRelation)
  }

  const Prefectures: seq<string> := ["東京", "神奈川", "千葉", "埼玉", "大阪", "京都", "兵庫"]
  const Kanto: seq<string> := ["東京", "神奈川", "千葉", "埼玉", "茨城", "栃木", "群馬"]

  /** Some listed prefecture occurs in both locations. */
  predicate SharedPrefecture(l1: string, l2: string) {
    exists i :: 0 <= i < |Prefectures| && Contains(l1, Prefectures[i]) && Contains(l2, Prefectures[i])
  }

  /** `_calculate_location_compatibility`: a missing location is neutral. */
  function LocationCompat(u1: UserData, u2: UserData): (r: real)
    ensures 0.3 <= r <= 1.0
    ensures (u1.location.GetOr("") == "" || u2.location.GetOr("") == "") ==> r == 0.5
  {
    var l1 := u1.location.GetOr("");
    var l2 := u2.location.GetOr("");
    if l1 == "" || l2 == "" then 0.5
    else
      var a := Lower(l1);
      var b := Lower(l2);
      if SharedPrefecture(a, b) then 1.0
      else if ContainsAny(a, Kanto) && ContainsAny(b, Kanto) then 0.8
      else 0.3
  }

  /** `normalize_activity`: followers saturate at 1000, tweets at 5000. */
  function Activity(followers: nat, tweets: nat): (a: real)
    ensures 0.0 <= a <= 1.0
  {
    (MinR((followers as real) / 1000.0, 1.0) + MinR((tweets as real) / 5000.0, 1.0)) / 2.0
  }

  /** `_calculate_activity_level_compatibility` */
  function ActivityCompat(u1: UserData, u2: UserData): (r: real)
    ensures 0.0 <= r <= 1.0
    ensures r == 1.0 - AbsR(Activity(u1.followers, u1.tweets) - Activity(u2.followers, u2.tweets))
  {
    1.0 - AbsR(Activity(u1.followers, u1.tweets) - Activity(u2.followers, u2.tweets))
  }

  datatype Weights = Weights(interests: real, skills: real, major: real, style: real,
                             personality: real, university: real, location: real, activity: real)

  const FactorWeights := Weights(0.25, 0.20, 0.15, 0.10, 0.10, 0.10, 0.05, 0.05)

  lemma WeightsSumToOne()
    ensures var w := FactorWeights;
            w.interests + w.skills + w.major + w.style + w.personality + w.university + w.location + w.activity == 1.0
  {
  }

  /** The eight factor scores of a pair of users. */
  datatype Factors = Factors(interests: real, skills: real, major: real, style: real,
                             personality: real, university: real, location: real, activity: real)

  /** The eight factors, or `None` when computing them raises. */
  function FactorsOf(u1: UserData, u2: UserData): Option<Factors> {
    match StyleCompat(u1, u2)
    case None => None
    case Some(style) =>
      Some(Factors(InterestCompat(u1, u2), SkillCompat(u1, u2), MajorCompat(u1, u2), style,
                   PersonalityCompat(u1, u2), UniversityCompat(u1, u2), LocationCompat(u1, u2), ActivityCompat(u1, u2)))
  }

  predicate InUnit(x: real) { 0.0 <= x <= 1.0 }

  predicate AllInUnit(f: Factors) {
    InUnit(f.interests) && InUnit(f.skills) && InUnit(f.major) && InUnit(f.style) &&
    InUnit(f.personality) && InUnit(f.university) && InUnit(f.location) && InUnit(f.activity)
  }

  /** The weighted sum before clamping. */
  function WeightedSum(f: Factors): real {
    var w := FactorWeights;
    f.interests * w.interests + f.skills * w.skills + f.major * w.major + f.style * w.style +
    f.personality * w.personality + f.university * w.university + f.location * w.location +
    f.activity * w.activity
  }

  /** `calculate_compatibility`: 0 when either user's data is missing or a
      factor raises (the handler returns 0.0), otherwise the weighted sum
      clamped to [0, 1]. */
  function Compatibility(u1: Option<UserData>, u2: Option<UserData>): (r: real)
    ensures 0.0 <= r <= 1.0
    ensures u1.None? || u2.None? ==> r == 0.0
    ensures u1.Some? && u2.Some? && StyleRaises(u1.value, u2.value) ==> r == 0.0
    ensures u1.Some? && u2.Some? && !StyleRaises(u1.value, u2.value) ==> r >= 0.05
  {
    if u1.None? || u2.None? then 0.0
    else match FactorsOf(u1.value, u2.value)
      case None => 0.0
      case Some(f) =>
        var r := MinR(MaxR(WeightedSum(f), 0.0), 1.0);
        StyleAloneCounts(f); r
  }

  /** The learning-style factor is at least 0.5, so with every other factor
      non-negative the weighted sum is at least 0.05. */
  lemma StyleAloneCounts(f: Factors)
    requires f.style >= 0.5
    requires f.interests >= 0.0 && f.skills >= 0.0 && f.major >= 0.0 && f.personality >= 0.0
    requires f.university >= 0.0 && f.location >= 0.0 && f.activity >= 0.0
    ensures WeightedSum(f) >= 0.05
  {
  }

  /** Since every factor lies in [0, 1] and the weights sum to 1, the clamp never
      changes the weighted sum. */
  lemma ClampIsInert(u1: UserData, u2: UserData)
    ensures FactorsOf(u1, u2).None? <==> StyleRaises(u1, u2)
    ensures FactorsOf(u1, u2).Some? ==> AllInUnit(FactorsOf(u1, u2).value)
    ensures FactorsOf(u1, u2).Some? ==> 0.0 <= WeightedSum(FactorsOf(u1, u2).value) <= 1.0
    ensures FactorsOf(u1, u2).Some? ==> Compatibility(Some(u1), Some(u2)) == WeightedSum(FactorsOf(u1, u2).value)
  {
    if FactorsOf(u1, u2).None? {
      return;
    }
    var f := FactorsOf(u1, u2).value;
    assert InUnit(f.interests) && InUnit(f.skills) && InUnit(f.major) && InUnit(f.style);
    assert InUnit(f.personality) && InUnit(f.university) && InUnit(f.location) && InUnit(f.activity);
    WeightedSumInUnit(f);
  }

  /** The weighted sum of factors in [0, 1] lies in [0, 1]. */
  lemma WeightedSumInUnit(f: Factors)
    requires AllInUnit(f)
    ensures 0.0 <= WeightedSum(f) <= 1.0
  {
    WeightsSumToOne();
    assert WeightedSum(f) == f.interests * 0.25 + f.skills * 0.20 + f.major * 0.15 + f.style * 0.10 +
                             f.personality * 0.10 + f.university * 0.10 + f.location * 0.05 + f.activity * 0.05;
  }

  lemma InterestSymmetric(a: UserData, b: UserData)
    ensures InterestCompat(a, b) == InterestCompat(b, a)
  {
    assert LowerSet(a.interests) * LowerSet(b.interests) == LowerSet(b.interests) * LowerSet(a.interests);
    assert LowerSet(a.interests) + LowerSet(b.interests) == LowerSet(b.interests) + LowerSet(a.interests);
  }

  lemma SkillSymmetric(a: UserData, b: UserData)
    ensures SkillCompat(a, b) == SkillCompat(b, a)
  {
    var s1 := LowerSet(a.skills);
    var s2 := LowerSet(b.skills);
    assert s1 * s2 == s2 * s1;
    assert Max(|s1|, |s2|) == Max(|s2|, |s1|);
    ComplementSumSymmetric(SkillGroups, s1, s2);
  }

  lemma StyleSymmetric(a: UserData, b: UserData)
    ensures StyleCompat(a, b) == StyleCompat(b, a)
    ensures PersonalityCompat(a, b) == PersonalityCompat(b, a)
  {
    LearningStyleSymmetric(a, b);
    if a.analysis.Some? && b.analysis.Some? {
      SharedGroupsSymmetric(TraitGroups, Lower(a.analysis.value.personalityTraits),
                            Lower(b.analysis.value.personalityTraits), 0.125);
    }
  }

  lemma LearningStyleSymmetric(a: UserData, b: UserData)
    ensures StyleCompat(a, b) == StyleCompat(b, a)
  {
    if !StyleRaises(a, b) && a.analysis.Some? && b.analysis.Some? {
      var l1, l2 := a.analysis.value.learningStyle.value, b.analysis.value.learningStyle.value;
      SharedGroupsSymmetric(StyleGroups, Lower(l1), Lower(l2), 0.1);
      assert StyleCompat(a, b) == Some(MinR(0.5 + SharedGroups(StyleGroups, Lower(l1), Lower(l2), 0.1), 1.0));
      assert StyleCompat(b, a) == Some(MinR(0.5 + SharedGroups(StyleGroups, Lower(l2), Lower(l1), 0.1), 1.0));
    }
  }

  /** A user with interests has a perfect interest score with themself. */
  lemma InterestSelf(u: UserData)
    requires LowerSet(u.interests) != {}
    ensures InterestCompat(u, u) == 1.0
  {
    var s := LowerSet(u.interests);
    assert s * s == s && s + s == s;
    assert (|s| as real) / (|s| as real) == 1.0;
  }

  lemma LocationSymmetric(a: UserData, b: UserData)
    ensures LocationCompat(a, b) == LocationCompat(b, a)
  {
  }

  /** Each factor is symmetric in the two users, and so is the score. */
  lemma CompatibilitySymmetric(u1: Option<UserData>, u2: Option<UserData>)
    ensures Compatibility(u1, u2) == Compatibility(u2, u1)
  {
    if u1.Some? && u2.Some? {
      FactorsSymmetric(u1.value, u2.value);
    }
  }

  lemma FactorsSymmetric(a: UserData, b: UserData)
    ensures FactorsOf(a, b) == FactorsOf(b, a)
  {
    InterestSymmetric(a, b);
    SkillSymmetric(a, b);
    MajorSymmetric(a, b);
    StyleSymmetric(a, b);
    UniversitySymmetric(a, b);
    LocationSymmetric(a, b);
    ActivitySymmetric(a, b);
  }

  lemma MajorSymmetric(a: UserData, b: UserData)
    ensures MajorCompat(a, b) == MajorCompat(b, a)
  {
    if a.analysis.Some? && b.analysis.Some? {
      var m1, m2 := a.analysis.value.majorField, b.analysis.value.majorField;
      assert {m1, m2} == {m2, m1};
    }
  }

  lemma UniversitySymmetric(a: UserData, b: UserData)
    ensures UniversityCompat(a, b) == UniversityCompat(b, a)
  {
  }

  lemma ActivitySymmetric(a: UserData, b: UserData)
    ensures ActivityCompat(a, b) == ActivityCompat(b, a)
  {
  }

  // ---------------------------------------------------------------------
  // find_potential_matches

  datatype Candidate = Candidate(id: int, username: string, name: string)

  datatype Match = Match(userId: int, username: string, name: string, score: real)

  function MatchScore(m: Match): real { m.score }

  /** The candidates that are not the user, scored, in search order. */
  function Scored(userId: int, users: seq<Candidate>, score: int -> real): (r: seq<Match>)
    ensures |r| <= |users|
    ensures forall i :: 0 <= i < |r| ==> r[i].userId != userId && r[i].score == score(r[i].userId)
    decreases |users|
  {
    if |users| == 0 then []
    else
      var rest := Scored(userId, users[1..], score);
      var c := users[0];
      if c.id == userId then rest else [Match(c.id, c.username, c.name, score(c.id))] + rest
  }

  /** The scored candidates that reach `minScore`, in search order. */
  function Qualifying(userId: int, users: seq<Candidate>, score: int -> real, minScore: real): (r: seq<Match>)
    ensures |r| <= |users|
    ensures forall i :: 0 <= i < |r| ==> r[i].userId != userId && r[i].score >= minScore
    ensures forall m :: m in Scored(userId, users, score) && m.score >= minScore ==> m in r
  {
    var scored := Scored(userId, users, score);
    var r := Filter(scored, (m: Match) => m.score >= minScore);
    forall i | 0 <= i < |r|
      ensures r[i].userId != userId && r[i].score >= minScore
    {
      assert r[i] in multiset(scored);
    }
    r
  }

  /** `find_potential_matches(user_id, limit, min_score)`: `score(id)` is the
      compatibility of the user with candidate `id`. `users` is what
      `search_users({})` returns, which is one page: at most the 50 most
      recently updated active users. A user outside that page is never a
      candidate, whatever `limit` is. */
  function FindPotentialMatches(userId: int, users: seq<Candidate>, score: int -> real,
                                limit: int, minScore: real): (r: seq<Match>)
    ensures forall i :: 0 <= i < |r| ==> r[i].userId != userId && r[i].score >= minScore
    ensures Sorting.SortedDesc(r, MatchScore)
    ensures limit >= 0 ==> |r| == Min(limit, |Qualifying(userId, users, score, minScore)|)
  {
    Sorting.Ranked(Qualifying(userId, users, score, minScore), MatchScore, limit)
  }

  /** When the limit covers every searched user, each qualifying candidate is
      returned. The searched users are the page of at most 50 that
      `search_users({})` yields, not every user of the database. */
  lemma MatchesComplete(userId: int, users: seq<Candidate>, score: int -> real, limit: int, minScore: real,
                        c: Candidate)
    requires limit >= |users|
    requires c in users && c.id != userId && score(c.id) >= minScore
    ensures Match(c.id, c.username, c.name, score(c.id)) in FindPotentialMatches(userId, users, score, limit, minScore)
  {
    var m := Match(c.id, c.username, c.name, score(c.id));
    ScoredContains(userId, users, score, c);
    var kept := Qualifying(userId, users, score, minScore);
    assert m in multiset(kept);
  }

  lemma {:induction false} ScoredContains(userId: int, users: seq<Candidate>, score: int -> real, c: Candidate)
    requires c in users && c.id != userId
    ensures Match(c.id, c.username, c.name, score(c.id)) in Scored(userId, users, score)
    decreases |users|
  {
    if users[0] != c {
      ScoredContains(userId, users[1..], score, c);
    }
  }
}

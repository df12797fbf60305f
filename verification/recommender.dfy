/** The learning-resource recommender of
    learning_resources/resource_recommender.py: level gating by the user's
    skills, a relevance score, and the ranked, de-duplicated recommendation
    list; plus the rating-ordered popular list. */
module Recommender {
  import opened Wrappers
  import opened Text
  import opened Collections
  import Sorting

  datatype Resource = Resource(title: string, kind: string, price: int, affiliateUrl: string,
                               description: string, rating: real, level: Option<string>)

  /** A category of the catalogue and its resources (a dict entry). */
  type Catalogue = seq<(string, seq<Resource>)>

  datatype Skill = Skill(name: string, level: string, confidence: real)
  datatype Interest = Interest(name: string, confidence: real)

  const Resources: Catalogue := [
    ("プログラミング", [
      Resource("Python実践入門", "book", 3200, "https://amzn.to/python-book",
               "Pythonの基礎から実践まで学べる決定版", 4.5, Some("初級-中級")),
      Resource("Python完全攻略コース", "course", 12000, "https://udemy.com/python-course",
               "100時間でPythonマスター", 4.7, Some("初級-上級"))]),
    ("AI・機械学習", [
      Resource("ゼロから作るDeep Learning", "book", 3740, "https://amzn.to/deep-learning",
               "ディープラーニングの理論と実装", 4.6, Some("中級-上級")),
      Resource("機械学習実践コース", "course", 15000, "https://udemy.com/ml-course",
               "scikit-learnで学ぶ機械学習", 4.4, Some("中級"))]),
    ("Web開発", [
      Resource("React実践の教科書", "book", 3520, "https://amzn.to/react-book",
               "モダンReact開発の決定版", 4.3, Some("中級")),
      Resource("フルスタックWeb開発", "course", 18000, "https://udemy.com/fullstack-course",
               "React + Node.js完全マスター", 4.5, Some("中級-上級"))]),
    ("データ分析", [
      Resource("Pythonによるデータ分析入門", "book", 4180, "https://amzn.to/data-analysis",
               "pandas、NumPyでデータ分析", 4.4, Some("初級-中級")),
      Resource("データサイエンス実践", "course", 14000, "https://udemy.com/data-science",
               "ビジネスデータ分析の実践", 4.6, Some("中級"))])
  ]

  /** The user's level: the first skill at 中級 or 上級, else 初級. */
  function UserLevel(skills: seq<Skill>): (r: string)
    ensures r == "初級" || r == "中級" || r == "上級"
    ensures (forall i :: 0 <= i < |skills| ==> skills[i].level != "中級" && skills[i].level != "上級") ==> r == "初級"
    ensures forall i :: (0 <= i < |skills| && (skills[i].level == "中級" || skills[i].level == "上級") &&
                         (forall j :: 0 <= j < i ==> skills[j].level != "中級" && skills[j].level != "上級")) ==>
                        r == skills[i].level
    decreases |skills|
  {
    if |skills| == 0 then "初級"
    else if skills[0].level == "中級" || skills[0].level == "上級" then skills[0].level
    else
      assert forall i :: 1 <= i < |skills| ==> skills[i] == skills[1..][i - 1];
      UserLevel(skills[1..])
  }

  /** `_is_suitable_level`: a missing level counts as 初級. */
  function SuitableLevel(resource: Resource, skills: seq<Skill>): (ok: bool)
    ensures UserLevel(skills) == "上級" ==> ok
    ensures UserLevel(skills) == "初級" ==> (ok <==> Contains(resource.level.GetOr("初級"), "初級"))
    ensures UserLevel(skills) == "中級" ==>
              (ok <==> Contains(resource.level.GetOr("初級"), "中級") || Contains(resource.level.GetOr("初級"), "初級"))
  {
    var resourceLevel := resource.level.GetOr("初級");
    var userLevel := UserLevel(skills);
    if userLevel == "初級" then Contains(resourceLevel, "初級")
    else if userLevel == "中級" then Contains(resourceLevel, "中級") || Contains(resourceLevel, "初級")
    else true
  }

  /** A resource fit for a less advanced user is fit for a more advanced one. */
  lemma SuitabilityGrowsWithLevel(resource: Resource, beginner: seq<Skill>, intermediate: seq<Skill>,
                                  advanced: seq<Skill>)
    requires UserLevel(beginner) == "初級" && UserLevel(intermediate) == "中級" && UserLevel(advanced) == "上級"
    ensures SuitableLevel(resource, beginner) ==> SuitableLevel(resource, intermediate)
    ensures SuitableLevel(resource, intermediate) ==> SuitableLevel(resource, advanced)
  {
  }

  /** Two tenths of the confidence of each skill named in the title. */
  function SkillBonus(title: string, skills: seq<Skill>): real
    decreases |skills|
  {
    if |skills| == 0 then 0.0
    else (if Contains(Lower(title), Lower(skills[0].name)) then skills[0].confidence * 0.2 else 0.0) +
         SkillBonus(title, skills[1..])
  }

  /** The uncapped score. */
  function RawRelevance(resource: Resource, interestConfidence: real, skills: seq<Skill>): real {
    interestConfidence * 0.4 + resource.rating / 5.0 * 0.3 + SkillBonus(resource.title, skills) +
    (if resource.kind == "course" then 0.1 else 0.0)
  }

  /** `_calculate_relevance`: capped at 1. */
  function Relevance(resource: Resource, interestConfidence: real, skills: seq<Skill>): (r: real)
    ensures r <= 1.0
    ensures r == RawRelevance(resource, interestConfidence, skills) || r == 1.0
    ensures interestConfidence >= 0.0 && resource.rating >= 0.0 && NonNegativeSkills(skills) ==> r >= 0.0
  {
    SkillBonusNonNegative(resource.title, skills);
    var score := RawRelevance(resource, interestConfidence, skills);
    if score <= 1.0 then score else 1.0
  }

  predicate NonNegativeSkills(skills: seq<Skill>) {
    forall i :: 0 <= i < |skills| ==> skills[i].confidence >= 0.0
  }

  lemma {:induction false} SkillBonusNonNegative(title: string, skills: seq<Skill>)
    ensures NonNegativeSkills(skills) ==> SkillBonus(title, skills) >= 0.0
    decreases |skills|
  {
    if |skills| > 0 {
      assert NonNegativeSkills(skills) ==> NonNegativeSkills(skills[1..]);
      SkillBonusNonNegative(title, skills[1..]);
    }
  }

  /** A more confident interest never ranks a resource lower. */
  lemma RelevanceMonotone(resource: Resource, c1: real, c2: real, skills: seq<Skill>)
    requires c1 <= c2
    ensures Relevance(resource, c1, skills) <= Relevance(resource, c2, skills)
  {
  }

  /** A course scores 0.1 above the same resource as a book, up to the cap. */
  lemma CourseBonus(resource: Resource, interestConfidence: real, skills: seq<Skill>)
    requires resource.kind == "book"
    ensures var course := resource.(kind := "course");
            Relevance(course, interestConfidence, skills) ==
            Min1(Relevance(resource, interestConfidence, skills) + 0.1)
            || Relevance(resource, interestConfidence, skills) == 1.0
  {
  }

  function Min1(x: real): real { if x <= 1.0 then x else 1.0 }

  datatype Recommendation = Recommendation(resource: Resource, relevance: real, interestMatch: string)

  function RecScore(r: Recommendation): real { r.relevance }

  /** `dict.get` over the catalogue: the first entry for the category. */
  function FindCategory(catalogue: Catalogue, name: string): (r: Option<seq<Resource>>)
    ensures r.None? <==> forall i :: 0 <= i < |catalogue| ==> catalogue[i].0 != name
    ensures r.Some? ==> (name, r.value) in catalogue
    decreases |catalogue|
  {
    if |catalogue| == 0 then None
    else if catalogue[0].0 == name then Some(catalogue[0].1)
    else
      assert forall i :: 1 <= i < |catalogue| ==> catalogue[i] == catalogue[1..][i - 1];
      assert forall x :: x in catalogue[1..] ==> x in catalogue;
      FindCategory(catalogue[1..], name)
  }

  /** The suitable resources of one category, scored against one interest. */
  function ScoreCategory(resources: seq<Resource>, interest: Interest, skills: seq<Skill>): (r: seq<Recommendation>)
    ensures |r| <= |resources|
    ensures forall i :: 0 <= i < |r| ==>
      r[i].resource in resources && SuitableLevel(r[i].resource, skills) && r[i].interestMatch == interest.name &&
      r[i].relevance <= 1.0
    decreases |resources|
  {
    if |resources| == 0 then []
    else
      var rest := ScoreCategory(resources[1..], interest, skills);
      var res := resources[0];
      assert forall x :: x in resources[1..] ==> x in resources;
      if SuitableLevel(res, skills)
      then [Recommendation(res, Relevance(res, interest.confidence, skills), interest.name)] + rest
      else rest
  }

  /** Every candidate recommendation, interest by interest. */
  function Candidates(interests: seq<Interest>, skills: seq<Skill>, catalogue: Catalogue): (r: seq<Recommendation>)
    ensures forall i :: 0 <= i < |r| ==>
      SuitableLevel(r[i].resource, skills) && r[i].relevance <= 1.0 &&
      FindCategory(catalogue, r[i].interestMatch).Some? &&
      r[i].resource in FindCategory(catalogue, r[i].interestMatch).value
    decreases |interests|
  {
    if |interests| == 0 then []
    else
      var rest := Candidates(interests[1..], skills, catalogue);
      var found := FindCategory(catalogue, interests[0].name);
      if found.Some? then ScoreCategory(found.value, interests[0], skills) + rest else rest
  }

  /** The first recommendation of each title not in `seen`, order kept. */
  function UniqueTitles(recs: seq<Recommendation>, seen: set<string>): (r: seq<Recommendation>)
    ensures |r| <= |recs|
    ensures forall i :: 0 <= i < |r| ==> r[i] in recs && r[i].resource.title !in seen
    ensures forall i, j :: 0 <= i < j < |r| ==> r[i].resource.title != r[j].resource.title
    decreases |recs|
  {
    if |recs| == 0 then []
    else
      var x := recs[0];
      assert forall y :: y in recs[1..] ==> y in recs;
      if x.resource.title in seen then UniqueTitles(recs[1..], seen)
      else
        var rest := UniqueTitles(recs[1..], seen + {x.resource.title});
        var r := [x] + rest;
        assert forall i :: 0 < i < |r| ==> r[i] == rest[i - 1];
        r
  }

  /** Dropping repeats keeps a best-first list best first. */
  lemma {:induction false} UniqueTitlesSorted(recs: seq<Recommendation>, seen: set<string>)
    requires Sorting.SortedDesc(recs, RecScore)
    ensures Sorting.SortedDesc(UniqueTitles(recs, seen), RecScore)
    decreases |recs|
  {
    if |recs| > 0 {
      var x := recs[0];
      assert Sorting.SortedDesc(recs[1..], RecScore);
      var seen' := if x.resource.title in seen then seen else seen + {x.resource.title};
      UniqueTitlesSorted(recs[1..], seen');
      if x.resource.title !in seen {
        var rest := UniqueTitles(recs[1..], seen');
        forall i | 0 <= i < |rest|
          ensures RecScore(x) >= RecScore(rest[i])
        {
          var k :| 0 <= k < |recs[1..]| && recs[1..][k] == rest[i];
          assert recs[k + 1] == rest[i];
        }
      }
    }
  }

  /** Every title not in `seen` keeps a representative. */
  lemma {:induction false} UniqueTitlesComplete(recs: seq<Recommendation>, seen: set<string>, i: int)
    requires 0 <= i < |recs| && recs[i].resource.title !in seen
    ensures exists j :: 0 <= j < |UniqueTitles(recs, seen)| &&
                        UniqueTitles(recs, seen)[j].resource.title == recs[i].resource.title
    decreases |recs|
  {
    var x := recs[0];
    var r := UniqueTitles(recs, seen);
    if x.resource.title in seen {
      UniqueTitlesComplete(recs[1..], seen, i - 1);
      assert r == UniqueTitles(recs[1..], seen);
    } else if x.resource.title == recs[i].resource.title {
      assert r[0] == x;
    } else {
      var seen' := seen + {x.resource.title};
      UniqueTitlesComplete(recs[1..], seen', i - 1);
      var rest := UniqueTitles(recs[1..], seen');
      var j :| 0 <= j < |rest| && rest[j].resource.title == recs[i].resource.title;
      assert r[j + 1] == rest[j];
    }
  }

  /** `get_recommendations`: the candidates best first, one per title, at most
      `limit`. */
  function GetRecommendations(interests: seq<Interest>, skills: seq<Skill>, catalogue: Catalogue,
                              limit: int): (r: seq<Recommendation>)
    ensures limit >= 0 ==> |r| <= limit
    ensures Sorting.SortedDesc(r, RecScore)
    ensures forall i, j :: 0 <= i < j < |r| ==> r[i].resource.title != r[j].resource.title
    ensures forall i :: 0 <= i < |r| ==> r[i] in Candidates(interests, skills, catalogue)
    ensures limit >= |Candidates(interests, skills, catalogue)| ==>
              forall x :: x in Candidates(interests, skills, catalogue) ==>
                exists j :: 0 <= j < |r| && r[j].resource.title == x.resource.title
  {
    SelectBest(Candidates(interests, skills, catalogue), limit)
  }

  /** The ranking step: best first, the first of each title, at most
      `limit`. */
  function SelectBest(cands: seq<Recommendation>, limit: int): (r: seq<Recommendation>)
    ensures limit >= 0 ==> |r| <= limit
    ensures Sorting.SortedDesc(r, RecScore)
    ensures forall i, j :: 0 <= i < j < |r| ==> r[i].resource.title != r[j].resource.title
    ensures forall i :: 0 <= i < |r| ==> r[i] in cands
    ensures limit >= |cands| ==>
              forall x :: x in cands ==> exists j :: 0 <= j < |r| && r[j].resource.title == x.resource.title
  {
    var sorted := Sorting.SortDesc(cands, RecScore);
    var unique := UniqueTitles(sorted, {});
    UniqueTitlesSorted(sorted, {});
    TakeLength(unique, limit);
    TakeMembers(cands, sorted, unique, limit);
    assert limit >= |cands| ==> Take(unique, limit) == unique;
    UniqueCovers(cands, sorted, unique);
    Take(unique, limit)
  }

  lemma TakeMembers(cands: seq<Recommendation>, sorted: seq<Recommendation>, unique: seq<Recommendation>, limit: int)
    requires multiset(sorted) == multiset(cands)
    requires forall i :: 0 <= i < |unique| ==> unique[i] in sorted
    ensures forall i :: 0 <= i < |Take(unique, limit)| ==> Take(unique, limit)[i] in cands
  {
    TakeLength(unique, limit);
    forall i | 0 <= i < |Take(unique, limit)|
      ensures Take(unique, limit)[i] in cands
    {
      assert Take(unique, limit)[i] == unique[i];
      assert unique[i] in multiset(sorted);
    }
  }

  lemma UniqueCovers(cands: seq<Recommendation>, sorted: seq<Recommendation>, unique: seq<Recommendation>)
    requires multiset(sorted) == multiset(cands)
    requires unique == UniqueTitles(sorted, {})
    ensures forall x :: x in cands ==> exists j :: 0 <= j < |unique| && unique[j].resource.title == x.resource.title
  {
    forall x | x in cands
      ensures exists j :: 0 <= j < |unique| && unique[j].resource.title == x.resource.title
    {
      assert x in multiset(sorted);
      var k :| 0 <= k < |sorted| && sorted[k] == x;
      UniqueTitlesComplete(sorted, {}, k);
    }
  }

  datatype Tagged = Tagged(resource: Resource, category: string)

  function Rating(t: Tagged): real { t.resource.rating }

  function TagAll(catalogue: Catalogue, cats: seq<string>): (r: seq<Tagged>)
    ensures forall i :: 0 <= i < |r| ==> r[i].category in cats && FindCategory(catalogue, r[i].category).Some?
    ensures (forall i :: 0 <= i < |cats| ==> FindCategory(catalogue, cats[i]).None?) ==> r == []
    decreases |cats|
  {
    if |cats| == 0 then []
    else
      var rest := TagAll(catalogue, cats[1..]);
      assert forall i :: 1 <= i < |cats| ==> cats[i] == cats[1..][i - 1];
      var found := FindCategory(catalogue, cats[0]);
      if found.Some? then
        seq(|found.value|, i requires 0 <= i < |found.value| => Tagged(found.value[i], cats[0])) + rest
      else rest
  }

  function Keys(catalogue: Catalogue): seq<string> {
    seq(|catalogue|, i requires 0 <= i < |catalogue| => catalogue[i].0)
  }

  /** `get_popular_resources`: one category (when given and non-empty) or all,
      tagged, by rating, at most `limit`. */
  function PopularResources(catalogue: Catalogue, category: Option<string>, limit: int): (r: seq<Tagged>)
    ensures limit >= 0 ==> |r| <= limit
    ensures Sorting.SortedDesc(r, Rating)
    ensures category.Some? && category.value != "" ==> forall i :: 0 <= i < |r| ==> r[i].category == category.value
    ensures category.Some? && category.value != "" && FindCategory(catalogue, category.value).None? ==> r == []
  {
    var cats := if category.Some? && category.value != "" then [category.value] else Keys(catalogue);
    var all := TagAll(catalogue, cats);
    Sorting.Ranked(all, Rating, limit)
  }
}

/** The analysis helpers of tou_connect_complete.py: keyword extraction, skill
    level and learning type from free text, the peer matcher over a fixed
    candidate list, and the recommendation and action-plan lists. The inputs
    are the request's lower-cased text fields. */
module Complete {
  import opened Text
  import opened Collections
  import Sorting

  const TechKeywords: seq<string> := ["Python", "JavaScript", "AI", "機械学習", "データ分析", "ウェブ開発",
                                      "システム設計", "クラウド", "セキュリティ", "UI/UX", "Java", "HTML/CSS"]
  const DefaultKeywords: seq<string> := ["プログラミング", "IT技術"]

  /** The keywords of `table` that occur in `text`, ignoring case, in table order. */
  function FoundKeywords(text: string, table: seq<string>): (r: seq<string>)
    ensures forall i :: 0 <= i < |r| ==> r[i] in table && Contains(Lower(text), Lower(r[i]))
    ensures forall k :: k in table && Contains(Lower(text), Lower(k)) ==> k in r
  {
    var found := Filter(table, (k: string) => Contains(Lower(text), Lower(k)));
    assert forall i :: 0 <= i < |found| ==> found[i] in multiset(table);
    found
  }

  /** At most four found keywords, or `default` when none is found. */
  function ExtractKeywords(text: string, table: seq<string>, default: seq<string>): (r: seq<string>)
    ensures FoundKeywords(text, table) == [] ==> r == default
    ensures FoundKeywords(text, table) != [] ==>
              1 <= |r| <= 4 && forall i :: 0 <= i < |r| ==> r[i] in FoundKeywords(text, table)
  {
    var found := FoundKeywords(text, table);
    if found == [] then default else Prefix(found, 4)
  }

  /** `extract_tech_keywords` */
  function ExtractTechKeywords(text: string): (r: seq<string>)
    ensures 1 <= |r| <= 4
  {
    KeywordsBounded(text, TechKeywords, DefaultKeywords);
    ExtractKeywords(text, TechKeywords, DefaultKeywords)
  }

  /** With a default of one to four keywords, one to four keywords come back. */
  lemma KeywordsBounded(text: string, table: seq<string>, default: seq<string>)
    requires 1 <= |default| <= 4
    ensures 1 <= |ExtractKeywords(text, table, default)| <= 4
  {
  }

  /** No technical keyword in the text gives the two default keywords, and
      any technical keyword gives only found ones. */
  lemma TechKeywordsFoundOrDefault(text: string)
    ensures FoundKeywords(text, TechKeywords) == [] ==> ExtractTechKeywords(text) == DefaultKeywords
    ensures FoundKeywords(text, TechKeywords) != [] ==>
              forall i :: 0 <= i < |ExtractTechKeywords(text)| ==> ExtractTechKeywords(text)[i] in FoundKeywords(text, TechKeywords)
  {
  }

  /** With at most four hits in `table`, every hit is among the extracted keywords. */
  lemma FewHitsKept(text: string, table: seq<string>, default: seq<string>, k: string)
    requires |FoundKeywords(text, table)| <= 4
    requires k in table && Contains(Lower(text), Lower(k))
    ensures k in ExtractKeywords(text, table, default)
  {
    var found := FoundKeywords(text, table);
    assert k in found;
    assert Prefix(found, 4) == found;
  }

  /** With at most four hits, every hit is reported. */
  lemma FewHitsAllReported(text: string, k: string)
    requires |FoundKeywords(text, TechKeywords)| <= 4
    requires k in TechKeywords && Contains(Lower(text), Lower(k))
    ensures k in ExtractTechKeywords(text)
  {
    FewHitsKept(text, TechKeywords, DefaultKeywords, k);
  }

  const AdvancedTerms: seq<string> := ["開発経験", "実装", "プロジェクト", "業務経験", "運用"]
  const IntermediateTerms: seq<string> := ["学習中", "基礎理解", "練習"]
  const Advanced := "上級者 (実務経験あり)"
  const Intermediate := "中級者 (学習継続中)"
  const Beginner := "初心者 (基礎習得段階)"

  /** `analyze_skill_level`: any advanced term wins, then any intermediate term. */
  function AnalyzeSkillLevel(skills: string): (r: string)
    ensures r == Advanced <==> ContainsAny(skills, AdvancedTerms)
    ensures r == Intermediate <==> !ContainsAny(skills, AdvancedTerms) && ContainsAny(skills, IntermediateTerms)
    ensures r == Beginner <==> !ContainsAny(skills, AdvancedTerms) && !ContainsAny(skills, IntermediateTerms)
  {
    if ContainsAny(skills, AdvancedTerms) then Advanced
    else if ContainsAny(skills, IntermediateTerms) then Intermediate
    else Beginner
  }

  const KnownStyles: seq<(string, string)> := [
    ("グループ協働型", "チーム協働型"), ("実践重視型", "実践プロジェクト型"),
    ("理論重視型", "理論研究型"), ("個人集中型", "自主学習型")
  ]
  const BalancedType := "バランス適応型"

  /** `dict.get(key, default)` over a list of pairs with distinct keys. */
  function Lookup(table: seq<(string, string)>, key: string, default: string): (r: string)
    ensures (forall i :: 0 <= i < |table| ==> table[i].0 != key) ==> r == default
    ensures forall i :: (0 <= i < |table| && table[i].0 == key &&
                         (forall j :: 0 <= j < i ==> table[j].0 != key)) ==> r == table[i].1
    decreases |table|
  {
    if |table| == 0 then default
    else if table[0].0 == key then table[0].1
    else Lookup(table[1..], key, default)
  }

  /** `determine_learning_style`: the four known styles, else balanced. */
  function DetermineLearningStyle(style: string): (r: string)
    ensures r == BalancedType <==> (forall i :: 0 <= i < |KnownStyles| ==> KnownStyles[i].0 != style)
  {
    var r := Lookup(KnownStyles, style, BalancedType);
    assert KnownStyles[0].0 == style ==> r == KnownStyles[0].1;
    assert KnownStyles[1].0 == style ==> r == KnownStyles[1].1;
    assert KnownStyles[2].0 == style ==> r == KnownStyles[2].1;
    assert KnownStyles[3].0 == style ==> r == KnownStyles[3].1;
    r
  }

  const Approaches: seq<(string, string)> := [
    ("チーム協働型", "グループ学習とピアレビューを中心とした協働学習"),
    ("実践プロジェクト型", "実際のプロジェクト開発を通じた体験型学習"),
    ("理論研究型", "体系的な理論学習と深い技術理解の追求"),
    ("自主学習型", "個人ペースでの集中学習と定期的な成果確認")
  ]
  const FlexibleApproach := "個人に最適化された柔軟な学習アプローチ"

  /** `get_learning_approach`: every type `DetermineLearningStyle` yields other
      than the balanced one has its own approach. */
  function LearningApproach(learningType: string): (r: string)
    ensures (forall i :: 0 <= i < |Approaches| ==> Approaches[i].0 != learningType) ==> r == FlexibleApproach
  {
    Lookup(Approaches, learningType, FlexibleApproach)
  }

  lemma KnownTypesHaveApproach(style: string)
    requires DetermineLearningStyle(style) != BalancedType
    ensures LearningApproach(DetermineLearningStyle(style)) != FlexibleApproach
  {
    var t := DetermineLearningStyle(style);
    assert Lookup(KnownStyles, style, BalancedType) == t;
    if t == "チーム協働型" {
      assert Lookup(Approaches, t, FlexibleApproach) == Approaches[0].1;
    } else if t == "実践プロジェクト型" {
      assert Lookup(Approaches, t, FlexibleApproach) == Approaches[1].1;
    } else if t == "理論研究型" {
      assert Lookup(Approaches, t, FlexibleApproach) == Approaches[2].1;
    } else {
      assert t == "自主学習型";
      assert Lookup(Approaches, t, FlexibleApproach) == Approaches[3].1;
    }
  }

  // ---------------------------------------------------------------------
  // calculate_advanced_compatibility

  /** The first level name inside `skill` gives 1, 2 or 3; none gives 2. */
  function LevelOf(skill: string): (r: int)
    ensures 1 <= r <= 3
    ensures !Contains(skill, "初心者") && !Contains(skill, "中級者") && !Contains(skill, "上級者") ==> r == 2
    ensures Contains(skill, "初心者") ==> r == 1
  {
    if Contains(skill, "初心者") then 1
    else if Contains(skill, "中級者") then 2
    else if Contains(skill, "上級者") then 3
    else 2
  }

  /** 100 less 15 per level of difference, never below 0. */
  function SkillScore(a: int, b: int): (r: int)
    requires 1 <= a <= 3 && 1 <= b <= 3
    ensures 70 <= r <= 100
    ensures r == 100 <==> a == b
  {
    var d := if a >= b then a - b else b - a;
    Max(0, 100 - d * 15)
  }

  function AsSet(xs: seq<string>): set<string> {
    set i | 0 <= i < |xs| :: xs[i]
  }

  /** The shared share of the two interest sets, in percent. */
  function InterestScore(a: seq<string>, b: seq<string>): (r: real)
    ensures 0.0 <= r <= 100.0
  {
    var common := AsSet(a) * AsSet(b);
    var total := AsSet(a) + AsSet(b);
    SubsetCard(common, total);
    Percent(|common|, Max(|total|, 1))
  }

  function Percent(part: nat, whole: int): (r: real)
    requires 0 < whole && part <= whole
    ensures 0.0 <= r <= 100.0
  {
    var q := (part as real) / (whole as real);
    assert q <= 1.0 by {
      assert q * (whole as real) == part as real;
    }
    q * 100.0
  }

  /** `calculate_advanced_compatibility`: half interests, 0.3 skill, 0.2 style,
      truncated and clamped to [70, 96]. */
  function AdvancedCompatibility(userInterests: seq<string>, candInterests: seq<string>, userSkill: string,
                                 candSkill: string, userStyle: string, candStyle: string): (r: int)
    ensures 70 <= r <= 96
  {
    var styleScore := if userStyle == candStyle then 90 else 70;
    var raw := InterestScore(userInterests, candInterests) * 0.5 +
               (SkillScore(LevelOf(userSkill), LevelOf(candSkill)) as real) * 0.3 +
               (styleScore as real) * 0.2;
    Min(Max(raw.Floor, 70), 96)
  }

  /** The score does not depend on which side is the user. */
  lemma AdvancedCompatibilitySymmetric(ui: seq<string>, ci: seq<string>, us: string, cs: string,
                                       ust: string, cst: string)
    ensures AdvancedCompatibility(ui, ci, us, cs, ust, cst) == AdvancedCompatibility(ci, ui, cs, us, cst, ust)
  {
    assert AsSet(ui) * AsSet(ci) == AsSet(ci) * AsSet(ui);
    assert AsSet(ui) + AsSet(ci) == AsSet(ci) + AsSet(ui);
  }

  /** Disjoint interests, levels two apart and different styles still score 70:
      the lower clamp is what lifts the raw 35. */
  lemma LowerClampApplies()
    ensures AdvancedCompatibility(["a"], ["b"], "初心者", "上級者", "x", "y") == 70
  {
    assert AsSet(["a"]) * AsSet(["b"]) == {};
    assert InterestScore(["a"], ["b"]) == 0.0;
    assert LevelOf("上級者") == 3 by {
      assert !Contains("上級者", "初心者") by { NotContainsLonger("上級者", "初心者"); }
      assert !Contains("上級者", "中級者") by { NotContainsLonger("上級者", "中級者"); }
      assert IsPrefix("上級者", "上級者");
    }
    assert LevelOf("初心者") == 1 by { assert IsPrefix("初心者", "初心者"); }
  }

  /** A string of the same length contains another only if they are equal. */
  lemma NotContainsLonger(s: string, sub: string)
    requires |s| == |sub| && s != sub
    ensures !Contains(s, sub)
  {
    if |s| > 0 {
      assert s[..|sub|] == s;
      ShorterContainsNothing(s[1..], sub);
    }
  }

  // ---------------------------------------------------------------------
  // generate_advanced_matches

  datatype Student = Student(name: string, faculty: string, year: string, interests: seq<string>,
                             skill: string, style: string)

  const Students: seq<Student> := [
    Student("田中智也", "情報マネジメント学部", "3年生", ["Python", "データ分析", "AI"], "中級者", "チーム協働型"),
    Student("佐藤美咲", "先端情報学部", "2年生", ["ウェブ開発", "JavaScript", "UI/UX"], "初心者", "実践プロジェクト型"),
    Student("山田健太", "情報マネジメント学部", "4年生", ["システム設計", "Java", "クラウド"], "上級者", "理論研究型"),
    Student("鈴木花音", "人間福祉学部", "1年生", ["プログラミング", "データ分析"], "初心者", "チーム協働型")
  ]

  datatype Peer = Peer(name: string, faculty: string, year: string, commonInterests: seq<string>,
                       compatibility: int, collaboration: string)

  function PeerScore(p: Peer): real { p.compatibility as real }

  /** The shared interests in the user's order, else the candidate's first two
      (`set & set`, whose iteration order Python leaves open). */
  function CommonOrFirst(interests: seq<string>, cand: seq<string>): (r: seq<string>)
    ensures |cand| > 0 ==> |r| > 0
    ensures (exists x :: x in interests && x in cand) ==> forall x :: x in r <==> x in interests && x in cand
  {
    var shared := Dedup(Filter(interests, (x: string) => x in cand));
    assert forall i :: 0 <= i < |shared| ==> shared[i] in multiset(Filter(interests, (x: string) => x in cand));
    if shared == [] then
      assert forall x :: x in interests && x in cand ==> x in Filter(interests, (x: string) => x in cand);
      Prefix(cand, 2)
    else shared
  }

  const Suggestions: seq<(string, string)> := [
    ("Python", "Pythonアプリケーション開発プロジェクト"), ("データ分析", "データサイエンス・分析プロジェクト"),
    ("ウェブ開発", "ウェブアプリケーション共同開発"), ("AI", "AI・機械学習プロジェクト"),
    ("システム設計", "システム設計・アーキテクチャ研究")
  ]

  /** `suggest_collaboration`: keyed by the first interest. */
  function SuggestCollaboration(interests: seq<string>): (r: string)
    ensures |interests| == 0 ==> r == "プログラミング学習・技術研究"
    ensures |interests| > 0 && (forall i :: 0 <= i < |Suggestions| ==> Suggestions[i].0 != interests[0]) ==>
              r == "IT技術プロジェクト協働"
  {
    if |interests| > 0 then Lookup(Suggestions, interests[0], "IT技術プロジェクト協働")
    else "プログラミング学習・技術研究"
  }

  function PeerFor(s: Student, interests: seq<string>, skillLevel: string, learningType: string): (p: Peer)
    ensures 70 <= p.compatibility <= 96 && p.name == s.name
    ensures |s.interests| > 0 ==> |p.commonInterests| > 0
  {
    var common := CommonOrFirst(interests, s.interests);
    Peer(s.name, s.faculty, s.year, common,
         AdvancedCompatibility(interests, s.interests, skillLevel, s.skill, learningType, s.style),
         SuggestCollaboration(common))
  }

  function PeersFor(students: seq<Student>, interests: seq<string>, skillLevel: string,
                    learningType: string): (r: seq<Peer>)
    ensures |r| == |students|
    ensures forall i :: 0 <= i < |r| ==> r[i] == PeerFor(students[i], interests, skillLevel, learningType)
  {
    seq(|students|, i requires 0 <= i < |students| => PeerFor(students[i], interests, skillLevel, learningType))
  }

  /** `generate_advanced_matches`: the first three students, as a permutation
      sorted best first. */
  function GenerateAdvancedMatches(interests: seq<string>, skillLevel: string, learningType: string): (r: seq<Peer>)
    ensures |r| == 3
    ensures Sorting.SortedDesc(r, PeerScore)
    ensures forall i :: 0 <= i < |r| ==> |r[i].commonInterests| > 0 && 70 <= r[i].compatibility <= 96
    ensures multiset(r) == multiset(PeersFor(Students[..3], interests, skillLevel, learningType))
  {
    StudentsHaveInterests();
    RankPeers(Students[..3], interests, skillLevel, learningType)
  }

  /** The peers for `students`, best first. */
  function RankPeers(students: seq<Student>, interests: seq<string>, skillLevel: string,
                     learningType: string): (r: seq<Peer>)
    requires forall i :: 0 <= i < |students| ==> |students[i].interests| > 0
    ensures |r| == |students|
    ensures Sorting.SortedDesc(r, PeerScore)
    ensures forall i :: 0 <= i < |r| ==> |r[i].commonInterests| > 0 && 70 <= r[i].compatibility <= 96
    ensures multiset(r) == multiset(PeersFor(students, interests, skillLevel, learningType))
  {
    var peers := PeersFor(students, interests, skillLevel, learningType);
    var r := Sorting.SortDesc(peers, PeerScore);
    forall i | 0 <= i < |r|
      ensures |r[i].commonInterests| > 0 && 70 <= r[i].compatibility <= 96
    {
      assert r[i] in multiset(peers);
    }
    r
  }

  lemma StudentsHaveInterests()
    ensures forall i :: 0 <= i < |Students| ==> |Students[i].interests| >= 2
  {
  }

  // ---------------------------------------------------------------------
  // generate_personalized_recommendations, create_action_plan

  const BeginnerRecs: seq<string> := [
    "基礎プログラミング言語の体系的学習（Python、JavaScript推奨）",
    "オンライン学習プラットフォーム活用（Coursera、Udacity等）",
    "プログラミング練習サイトでの実践（LeetCode、AtCoder等）"
  ]
  const IntermediateRecs: seq<string> := [
    "フレームワーク・ライブラリの実践的習得",
    "GitHub活用とオープンソースプロジェクト参加",
    "実際のプロジェクト開発経験の積み重ね"
  ]
  const AdvancedRecs: seq<string> := [
    "チームリードとメンタリング経験の積み重ね",
    "最新技術トレンドの研究と実装",
    "技術コミュニティでの発表・知識共有活動"
  ]
  const AiRec := "機械学習・深層学習の専門性深化とプロジェクト実践"
  const WebRec := "モダンフロントエンド技術とUX/UIデザインスキル向上"
  const StartupRec := "技術力とビジネススキルの両立・スタートアップ経験"

  function LevelRecs(skillLevel: string): (r: seq<string>)
    ensures |r| == 3
  {
    if Contains(skillLevel, "初心者") then BeginnerRecs
    else if Contains(skillLevel, "中級者") then IntermediateRecs
    else AdvancedRecs
  }

  /** `generate_personalized_recommendations`: the three for the level, then
      the topic extras, cut to four. */
  function PersonalizedRecommendations(interests: seq<string>, skillLevel: string, goals: string): (r: seq<string>)
    ensures |r| == 3 || |r| == 4
    ensures r[..3] == LevelRecs(skillLevel)
    ensures |r| == 4 <==> (Contains(Join(" ", interests), "AI") || Contains(Join(" ", interests), "機械学習") ||
                          Contains(Join(" ", interests), "ウェブ") || Contains(goals, "起業"))
  {
    var joined := Join(" ", interests);
    var extras := (if Contains(joined, "AI") || Contains(joined, "機械学習") then [AiRec] else []) +
                  (if Contains(joined, "ウェブ") then [WebRec] else []) +
                  (if Contains(goals, "起業") then [StartupRec] else []);
    var all := LevelRecs(skillLevel) + extras;
    TakeLength(all, 4);
    assert all[..3] == LevelRecs(skillLevel);
    Take(all, 4)
  }

  const BaseSteps: seq<string> := [
    "推奨学友との初回オンライン面談・目標共有の実施",
    "共同学習計画の策定と週次進捗レビューの設定",
    "技術スキルと学習進捗の定期的な相互フィードバック"
  ]

  /** `create_action_plan`: the three fixed steps, one for the learning type and
      one for the level. */
  function CreateActionPlan(learningType: string, skillLevel: string): (r: seq<string>)
    ensures |r| == 5
    ensures r[..3] == BaseSteps
    ensures r[4] == (if Contains(skillLevel, "初心者") then "基礎学習リソースの共有と段階的スキルアップ"
                     else "高度なプロジェクト・研究課題への共同取り組み")
  {
    var typeStep := if learningType == "チーム協働型" then "グループ学習セッションとペアプログラミングの開始"
                    else if learningType == "実践プロジェクト型" then "実践的な開発プロジェクトの企画・実行"
                    else if learningType == "理論研究型" then "技術論文・ドキュメント研究と知識体系化"
                    else "個人学習と定期的な成果共有・ディスカッション";
    var levelStep := if Contains(skillLevel, "初心者") then "基礎学習リソースの共有と段階的スキルアップ"
                     else "高度なプロジェクト・研究課題への共同取り組み";
    BaseSteps + [typeStep, levelStep]
  }
}

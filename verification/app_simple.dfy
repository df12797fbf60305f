/** The profile estimators of app_simple.py, which turn an account's
    description, counters and username into labels, and the username check of
    its analyze endpoint. */
module SimpleApp {
  import opened Text
  import opened Collections
  import opened Classify

  const DescriptionTable: Table := [
    ("プログラミング", ["プログラミング", "コーディング", "開発", "エンジニア", "coding", "programming", "developer"]),
    ("教育", ["教育", "学習", "教師", "先生", "学校", "大学", "education", "learning", "teacher"]),
    ("テクノロジー", ["技術", "テクノロジー", "AI", "機械学習", "tech", "technology", "IT"]),
    ("ビジネス", ["ビジネス", "経営", "マーケティング", "business", "marketing", "起業"]),
    ("デザイン", ["デザイン", "UI", "UX", "グラフィック", "design", "creative"]),
    ("研究", ["研究", "論文", "学術", "research", "academic", "科学"]),
    ("読書", ["読書", "本", "書籍", "reading", "book"]),
    ("音楽", ["音楽", "音響", "music", "sound"]),
    ("スポーツ", ["スポーツ", "運動", "fitness", "health"]),
    ("言語", ["言語", "英語", "日本語", "language", "english"])
  ]
  const DefaultInterests: seq<string> := ["学習", "自己成長", "情報収集"]

  /** `analyze_interests_from_description`: up to five labels in table order,
      or the default three. Keywords and text are compared in lower case. */
  function InterestsFromDescription(description: string): (r: seq<string>)
    ensures 1 <= |r| <= 5
    ensures Hits(Lower(description), LowerKeys(DescriptionTable)) == [] ==> r == DefaultInterests
    ensures Hits(Lower(description), LowerKeys(DescriptionTable)) != [] ==>
              r == Prefix(Hits(Lower(description), LowerKeys(DescriptionTable)), 5)
  {
    var interests := Hits(Lower(description), LowerKeys(DescriptionTable));
    if interests == [] then DefaultInterests else Prefix(interests, 5)
  }

  /** With at most five labels applying, every one is reported. */
  lemma EveryInterestReported(description: string, i: int)
    requires |Hits(Lower(description), LowerKeys(DescriptionTable))| <= 5
    requires 0 <= i < |DescriptionTable| && Applies(Lower(description), LowerKeys(DescriptionTable)[i])
    ensures DescriptionTable[i].0 in InterestsFromDescription(description)
  {
    var t := LowerKeys(DescriptionTable);
    assert t[i].0 == DescriptionTable[i].0;
  }

  const StyleTable: Table := [
    ("学術的学習者", ["研究", "academic", "論文", "university"]),
    ("実践的学習者", ["実践", "hands-on", "project", "開発"]),
    ("視覚的学習者", ["視覚", "図解", "visual", "グラフィック"])
  ]

  /** `estimate_learning_style`: large audiences decide before the description. */
  function EstimateLearningStyle(description: string, followers: int): (r: string)
    ensures followers > 10000 ==> r == "情報発信型学習者"
    ensures 1000 < followers <= 10000 ==> r == "コミュニティ型学習者"
    ensures followers <= 1000 ==> r == FirstHit(Lower(description), StyleTable, "バランス型学習者")
  {
    if followers > 10000 then "情報発信型学習者"
    else if followers > 1000 then "コミュニティ型学習者"
    else FirstHit(Lower(description), StyleTable, "バランス型学習者")
  }

  const TraitTable: Table := [
    ("好奇心旺盛", ["好奇心", "curious", "探究", "学習"]),
    ("協調性", ["チーム", "協力", "collaboration", "community"]),
    ("計画性", ["計画", "目標", "systematic", "organized"]),
    ("創造性", ["創造", "creative", "innovative", "アイデア"]),
    ("継続性", ["継続", "persistent", "継続的", "習慣"])
  ]

  /** `estimate_personality_traits`: up to three traits, or the default pair. */
  function EstimatePersonalityTraits(description: string): (r: seq<string>)
    ensures 1 <= |r| <= 3
    ensures Hits(Lower(description), TraitTable) == [] <==> r == ["学習意欲", "向上心"]
  {
    assert forall i :: 0 <= i < |TraitTable| ==> TraitTable[i].0 != "学習意欲";
    TopOrDefault(Lower(description), TraitTable, 3, ["学習意欲", "向上心"])
  }

  /** The preferences each interest adds, before the fixed two. */
  function CollectedPreferences(interests: seq<string>): (r: seq<string>)
    ensures |r| >= 2 && r[|r| - 2..] == ["オンライン学習", "自主学習"]
  {
    (if "プログラミング" in interests || "テクノロジー" in interests then ["実践的学習", "プロジェクト学習"] else []) +
    (if "教育" in interests || "研究" in interests then ["体系的学習", "深い理解"] else []) +
    (if "デザイン" in interests then ["視覚的学習", "創造的学習"] else []) +
    (if "ビジネス" in interests then ["実用的学習", "ケーススタディ"] else []) +
    ["オンライン学習", "自主学習"]
  }

  /** `estimate_study_preferences`: at most four distinct collected items
      (`list(set(...))`, whose order Python leaves open, is taken here in
      first-occurrence order). */
  function EstimateStudyPreferences(interests: seq<string>): (r: seq<string>)
    ensures 1 <= |r| <= 4
    ensures Distinct(r)
    ensures forall x :: x in r ==> x in CollectedPreferences(interests)
  {
    var all := CollectedPreferences(interests);
    var unique := Dedup(all);
    assert all[|all| - 1] in unique;
    var r := Prefix(unique, 4);
    assert forall i :: 0 <= i < |r| ==> r[i] == unique[i];
    r
  }

  /** `estimate_activity_level` */
  function EstimateActivityLevel(tweets: int, followers: int): (r: string)
    ensures r == "高活動" <==> tweets > 10000 || followers > 5000
    ensures r == "中程度" <==> !(tweets > 10000 || followers > 5000) && (tweets > 1000 || followers > 500)
    ensures r == "低〜中程度" <==> tweets <= 1000 && followers <= 500
  {
    if tweets > 10000 || followers > 5000 then "高活動"
    else if tweets > 1000 || followers > 500 then "中程度"
    else "低〜中程度"
  }

  const EngagementTable: Table := [
    ("夜間活動型", ["夜", "night", "evening"]),
    ("朝型活動", ["朝", "morning", "早起き"])
  ]

  /** `estimate_engagement_pattern`: night words win over morning words. */
  function EstimateEngagementPattern(description: string): (r: string)
    ensures r == "夜間活動型" <==> Applies(Lower(description), EngagementTable[0])
    ensures r == "日中活動型" <==> !Applies(Lower(description), EngagementTable[0]) &&
                                   !Applies(Lower(description), EngagementTable[1])
  {
    FirstHit(Lower(description), EngagementTable, "日中活動型")
  }

  const UsernameTable: Table := [
    ("プログラミング", ["code", "dev", "program", "tech", "coding", "developer", "engineer", "python", "java", "js"]),
    ("教育", ["edu", "learn", "study", "teacher", "student", "academic", "school", "univ"]),
    ("テクノロジー", ["tech", "digital", "ai", "ml", "data", "web", "mobile", "it", "computer"]),
    ("ビジネス", ["business", "marketing", "sales", "startup", "entrepreneur", "manager"]),
    ("デザイン", ["design", "ui", "ux", "creative", "art", "visual", "graphic"]),
    ("研究", ["research", "science", "lab", "phd", "academic", "scholar"]),
    ("ゲーム", ["game", "gaming", "player", "gamer", "play"]),
    ("音楽", ["music", "sound", "audio", "musician", "song", "beat"]),
    ("スポーツ", ["sport", "fitness", "health", "athlete", "gym", "run"]),
    ("言語", ["lang", "japanese", "english", "translation", "linguist"])
  ]
  const UsernameDefault: seq<string> := ["学習", "自己成長", "コミュニティ"]

  predicate IsDigit(c: char) { '0' <= c <= '9' }

  predicate HasDigit(s: string) { exists i :: 0 <= i < |s| && IsDigit(s[i]) }

  /** Appends `x` unless it is already there. */
  function AddOnce(xs: seq<string>, x: string): (r: seq<string>)
    ensures x in r && |xs| <= |r| <= |xs| + 1 && r[..|xs|] == xs
  {
    if x in xs then xs else xs + [x]
  }

  /** `estimate_interests_from_username`: table labels, then テクノロジー and
      教育 for a '3' or "don", then テクノロジー for a digit when nothing else
      applied; at most four, or the default three. */
  function InterestsFromUsername(username: string): (r: seq<string>)
    ensures 1 <= |r| <= 4
    ensures r == UsernameDefault <==>
              (Hits(Lower(username), UsernameTable) == [] && !Contains(Lower(username), "don") && !HasDigit(username))
  {
    LabelsAreNotLearning();
    LabelsFromUsername(username, UsernameTable)
  }

  /** The same rule over any table none of whose labels is 学習. */
  function LabelsFromUsername(username: string, table: Table): (r: seq<string>)
    requires forall i :: 0 <= i < |table| ==> table[i].0 != "学習"
    ensures 1 <= |r| <= 4
    ensures r == UsernameDefault <==>
              (Hits(Lower(username), table) == [] && !Contains(Lower(username), "don") && !HasDigit(username))
  {
    var lower := Lower(username);
    var hits := Hits(lower, table);
    var mark := Contains(username, "3") || Contains(lower, "don");
    var marked := if mark then AddOnce(AddOnce(hits, "テクノロジー"), "教育") else hits;
    var withDigit := if HasDigit(username) && marked == [] then ["テクノロジー"] else marked;
    ThreeIsDigit(username);
    assert mark ==> marked != [];
    if withDigit == [] then UsernameDefault
    else
      var r := Prefix(withDigit, 4);
      assert r[0] == withDigit[0];
      assert r[0] != "学習" by {
        if hits != [] {
          assert hits[0] in hits;
          assert marked[0] == hits[0];
        } else if mark {
          assert AddOnce(hits, "テクノロジー") == ["テクノロジー"];
        }
      }
      r
  }

  lemma ThreeIsDigit(username: string)
    ensures Contains(username, "3") ==> HasDigit(username)
  {
    if Contains(username, "3") {
      ContainsChar(username, '3');
    }
  }

  lemma {:induction false} ContainsChar(s: string, c: char)
    requires Contains(s, [c])
    ensures exists i :: 0 <= i < |s| && s[i] == c
    decreases |s|
  {
    if !IsPrefix([c], s) {
      ContainsChar(s[1..], c);
      var i :| 0 <= i < |s[1..]| && s[1..][i] == c;
      assert s[i + 1] == c;
    } else {
      assert s[0] == c;
    }
  }

  lemma LabelsAreNotLearning()
    ensures forall i :: 0 <= i < |UsernameTable| ==> UsernameTable[i].0 != "学習"
  {
  }

  /** The analyze endpoint's answer before any lookup: 400 with a message, or
      the username to look up. */
  datatype Checked = BadRequest(message: string) | Lookup(username: string)

  predicate UsernameChar(c: char) {
    'a' <= c <= 'z' || 'A' <= c <= 'Z' || '0' <= c <= '9' || c == '_'
  }

  /** `^[a-zA-Z0-9_]{1,15}$` */
  predicate ValidUsername(u: string) {
    1 <= |u| <= 15 && forall i :: 0 <= i < |u| ==> UsernameChar(u[i])
  }

  /** `analyze_account`'s input checks: a missing body, an empty username after
      stripping, or one outside the pattern is answered 400 before any lookup. */
  function CheckAnalyzeRequest(hasBody: bool, username: string): (r: Checked)
    ensures r.Lookup? <==> hasBody && ValidUsername(Strip(username))
    ensures r.Lookup? ==> r.username == Strip(username)
  {
    if !hasBody then BadRequest("データが送信されていません")
    else
      var u := Strip(username);
      if u == "" then BadRequest("ユーザー名が指定されていません")
      else if !ValidUsername(u) then BadRequest("無効なユーザー名です: '" + u + "'")
      else Lookup(u)
  }
}

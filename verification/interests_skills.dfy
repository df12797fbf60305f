/** The interests and skills repository of
    repositories/interests_skills_repository.py: keyword extraction from the
    analysis text, categorisation, level and confidence estimates, and the
    rows the save helpers insert. The two tables are sequences of rows; the
    SQL is the insertion itself. */
module InterestsSkills {
  import opened Wrappers
  import opened Text
  import opened Json
  import opened Classify

  const InterestKeywords: Table := [
    ("プログラミング", ["プログラミング", "programming", "コーディング"]),
    ("AI・機械学習", ["AI", "機械学習", "ML", "ディープラーニング", "ChatGPT"]),
    ("Web開発", ["Web", "HTML", "CSS", "JavaScript", "React", "Vue"]),
    ("データ分析", ["データ分析", "データサイエンス", "統計", "Python"]),
    ("IT・情報システム", ["IT", "情報システム", "システム開発"]),
    ("メタバース", ["メタバース", "VR", "AR"]),
    ("ブログ", ["ブログ", "blog", "執筆"]),
    ("スポーツ", ["野球", "スポーツ", "運動"]),
    ("経済", ["経済", "投資", "金融"])
  ]

  const SkillKeywords: Table := [
    ("Python", ["Python", "python"]),
    ("JavaScript", ["JavaScript", "JS", "React", "Vue", "Node"]),
    ("HTML/CSS", ["HTML", "CSS"]),
    ("SQL", ["SQL", "データベース"]),
    ("ChatGPT", ["ChatGPT", "GPT"]),
    ("Git", ["Git", "GitHub"]),
    ("Excel", ["Excel", "スプレッドシート"])
  ]

  datatype Extracted = Extracted(interests: seq<string>, techSkills: seq<string>)

  /** `_extract_from_text`: every interest category and every skill with a
      keyword in the text (case-sensitive), once each, in table order. */
  function ExtractFromText(text: string): (r: Extracted)
    ensures forall i :: 0 <= i < |InterestKeywords| ==>
              (InterestKeywords[i].0 in r.interests <==> Applies(text, InterestKeywords[i]))
    ensures forall i :: 0 <= i < |SkillKeywords| ==>
              (SkillKeywords[i].0 in r.techSkills <==> Applies(text, SkillKeywords[i]))
    ensures forall i, j :: 0 <= i < j < |r.interests| ==> r.interests[i] != r.interests[j]
    ensures forall i, j :: 0 <= i < j < |r.techSkills| ==> r.techSkills[i] != r.techSkills[j]
  {
    LabelsDistinct();
    HitsDistinct(text, InterestKeywords);
    HitsDistinct(text, SkillKeywords);
    var r := Extracted(Hits(text, InterestKeywords), Hits(text, SkillKeywords));
    HitsExact(text, InterestKeywords);
    HitsExact(text, SkillKeywords);
    r
  }

  lemma LabelsDistinct()
    ensures forall i, j :: 0 <= i < j < |InterestKeywords| ==> InterestKeywords[i].0 != InterestKeywords[j].0
    ensures forall i, j :: 0 <= i < j < |SkillKeywords| ==> SkillKeywords[i].0 != SkillKeywords[j].0
  {
  }

  /** With distinct labels, a label is reported exactly when its own entry applies. */
  lemma HitsExact(text: string, table: Table)
    requires forall i, j :: 0 <= i < j < |table| ==> table[i].0 != table[j].0
    ensures forall i :: 0 <= i < |table| ==> (table[i].0 in Hits(text, table) <==> Applies(text, table[i]))
  {
    forall i | 0 <= i < |table| && table[i].0 in Hits(text, table)
      ensures Applies(text, table[i])
    {
      var k :| 0 <= k < |table| && table[k].0 == table[i].0 && Applies(text, table[k]);
      assert k == i;
    }
  }

  const InterestCategories: Table := [
    ("技術", ["プログラミング", "AI", "Web", "IT", "システム", "データ"]),
    ("学習", ["学習", "勉強", "授業", "課題"]),
    ("趣味", ["ブログ", "スポーツ", "野球", "ゲーム"]),
    ("ビジネス", ["経済", "投資", "経営", "ビジネス"]),
    ("その他", [])
  ]

  const SkillCategories: Table := [
    ("プログラミング", ["Python", "JavaScript", "Java", "C++", "PHP"]),
    ("Web開発", ["HTML", "CSS", "React", "Vue", "Angular"]),
    ("データ分析", ["SQL", "Excel", "R", "Tableau"]),
    ("AI・機械学習", ["ChatGPT", "TensorFlow", "PyTorch"]),
    ("ツール", ["Git", "Docker", "AWS"]),
    ("その他", [])
  ]

  /** `_categorize_interest`: the first category with a keyword inside the name. */
  function CategorizeInterest(interest: string): (r: string)
    ensures (forall i :: 0 <= i < |InterestCategories| ==> !Applies(interest, InterestCategories[i])) ==> r == "その他"
    ensures forall i :: (0 <= i < |InterestCategories| && Applies(interest, InterestCategories[i]) &&
                         (forall j :: 0 <= j < i ==> !Applies(interest, InterestCategories[j]))) ==>
                        r == InterestCategories[i].0
  {
    FirstHit(interest, InterestCategories, "その他")
  }

  /** `_categorize_skill` */
  function CategorizeSkill(skill: string): (r: string)
    ensures (forall i :: 0 <= i < |SkillCategories| ==> !Applies(skill, SkillCategories[i])) ==> r == "その他"
    ensures forall i :: (0 <= i < |SkillCategories| && Applies(skill, SkillCategories[i]) &&
                         (forall j :: 0 <= j < i ==> !Applies(skill, SkillCategories[j]))) ==>
                        r == SkillCategories[i].0
  {
    FirstHit(skill, SkillCategories, "その他")
  }

  /** The catch-all entry has no keywords, so it never applies by itself. */
  lemma CatchAllNeverApplies(text: string)
    ensures !Applies(text, InterestCategories[4]) && !Applies(text, SkillCategories[5])
  {
  }

  /** The fields of the parsed analysis the estimates read; a missing text
      field is the empty string. */
  datatype Parsed = Parsed(interests: Value, techSkills: Value, bio: string, universityRelation: Value,
                           majorField: string, learningStyle: string, activityPattern: string)

  /** `_estimate_skill_level`: both non-中級 branches give 初級. */
  function EstimateSkillLevel(p: Parsed): (r: string)
    ensures r == "中級" <==> Contains(p.learningStyle, "上級") || Contains(p.activityPattern, "経験豊富")
    ensures r == "中級" || r == "初級"
  {
    if Contains(p.learningStyle, "上級") || Contains(p.activityPattern, "経験豊富") then "中級"
    else if Contains(p.learningStyle, "学習中") || Contains(p.activityPattern, "勉強") then "初級"
    else "初級"
  }

  /** `len(parsed_data.get('interests', []))`, for a list. */
  function ListLength(v: Value): int {
    if v.Arr? then |v.items| else 0
  }

  /** `_calculate_interest_confidence` */
  function InterestConfidence(interest: string, p: Parsed): (r: real)
    ensures 0.5 <= r <= 1.0
    ensures r == 0.5 <==> !Contains(p.bio, interest) && ListLength(p.interests) < 3 && p.universityRelation != Str("高")
  {
    var c := 0.5 + (if Contains(p.bio, interest) then 0.3 else 0.0) +
             (if ListLength(p.interests) >= 3 then 0.1 else 0.0) +
             (if p.universityRelation == Str("高") then 0.1 else 0.0);
    if c <= 1.0 then c else 1.0
  }

  const MajorSkills: seq<string> := ["Python", "JavaScript", "HTML", "CSS"]

  /** `_calculate_skill_confidence` */
  function SkillConfidence(skill: string, p: Parsed): (r: real)
    ensures 0.6 <= r <= 1.0
    ensures r == 0.6 <==> !(p.majorField == "情報学" && skill in MajorSkills) &&
                          !Contains(Lower(p.learningStyle), Lower(skill))
  {
    var c := 0.6 + (if p.majorField == "情報学" && skill in MajorSkills then 0.2 else 0.0) +
             (if Contains(Lower(p.learningStyle), Lower(skill)) then 0.2 else 0.0);
    if c <= 1.0 then c else 1.0
  }

  datatype InterestRow = InterestRow(userId: int, category: string, name: string, confidence: real, source: string)
  datatype SkillRow = SkillRow(userId: int, name: string, level: string, category: string, confidence: real,
                               source: string)

  /** A list entry the save helpers accept: a string that is not blank. */
  predicate Saveable(v: Value) {
    v.Str? && Strip(v.s) != ""
  }

  /** The list when it is one, else nothing. */
  function Entries(v: Value): seq<Value> {
    if v.Arr? then v.items else []
  }

  function CountSaveable(entries: seq<Value>): (n: nat)
    ensures n <= |entries|
    decreases |entries|
  {
    if |entries| == 0 then 0 else (if Saveable(entries[0]) then 1 else 0) + CountSaveable(entries[1..])
  }

  function InterestRows(userId: int, entries: seq<Value>, p: Parsed): (r: seq<InterestRow>)
    ensures |r| == CountSaveable(entries)
    ensures forall i :: 0 <= i < |r| ==>
      r[i].userId == userId && Str(r[i].name) in entries && Saveable(Str(r[i].name)) &&
      r[i].category == CategorizeInterest(r[i].name) && r[i].source == "ai_analysis" &&
      0.5 <= r[i].confidence <= 1.0
    decreases |entries|
  {
    if |entries| == 0 then []
    else
      var rest := InterestRows(userId, entries[1..], p);
      assert forall x :: x in entries[1..] ==> x in entries;
      if Saveable(entries[0]) then
        var name := entries[0].s;
        [InterestRow(userId, CategorizeInterest(name), name, InterestConfidence(name, p), "ai_analysis")] + rest
      else rest
  }

  /** `_save_interests`: the rows inserted and their number; a value that is
      not a list counts as empty. */
  function SaveInterests(userId: int, p: Parsed): (r: (seq<InterestRow>, nat))
    ensures r.1 == |r.0| == CountSaveable(Entries(p.interests))
    ensures !p.interests.Arr? ==> r.0 == []
  {
    var rows := InterestRows(userId, Entries(p.interests), p);
    (rows, |rows|)
  }

  function SkillRows(userId: int, entries: seq<Value>, p: Parsed): (r: seq<SkillRow>)
    ensures |r| == CountSaveable(entries)
    ensures forall i :: 0 <= i < |r| ==>
      r[i].userId == userId && Str(r[i].name) in entries && Saveable(Str(r[i].name)) &&
      r[i].category == CategorizeSkill(r[i].name) && r[i].level == EstimateSkillLevel(p) &&
      r[i].source == "ai_analysis" && 0.6 <= r[i].confidence <= 1.0
    decreases |entries|
  {
    if |entries| == 0 then []
    else
      var rest := SkillRows(userId, entries[1..], p);
      assert forall x :: x in entries[1..] ==> x in entries;
      if Saveable(entries[0]) then
        var name := entries[0].s;
        [SkillRow(userId, name, EstimateSkillLevel(p), CategorizeSkill(name), SkillConfidence(name, p),
                  "ai_analysis")] + rest
      else rest
  }

  /** `_save_skills` */
  function SaveSkills(userId: int, p: Parsed): (r: (seq<SkillRow>, nat))
    ensures r.1 == |r.0| == CountSaveable(Entries(p.techSkills))
    ensures !p.techSkills.Arr? ==> r.0 == []
  {
    var rows := SkillRows(userId, Entries(p.techSkills), p);
    (rows, |rows|)
  }

  datatype Tables = Tables(interests: seq<InterestRow>, skills: seq<SkillRow>)

  function OtherInterests(rows: seq<InterestRow>, userId: int): (r: seq<InterestRow>)
    ensures forall i :: 0 <= i < |r| ==> r[i].userId != userId && r[i] in rows
    ensures forall x :: x in rows && x.userId != userId ==> x in r
    decreases |rows|
  {
    if |rows| == 0 then []
    else
      var rest := OtherInterests(rows[1..], userId);
      assert forall x :: x in rows ==> x == rows[0] || x in rows[1..];
      if rows[0].userId == userId then rest else [rows[0]] + rest
  }

  function OtherSkills(rows: seq<SkillRow>, userId: int): (r: seq<SkillRow>)
    ensures forall i :: 0 <= i < |r| ==> r[i].userId != userId && r[i] in rows
    ensures forall x :: x in rows && x.userId != userId ==> x in r
    decreases |rows|
  {
    if |rows| == 0 then []
    else
      var rest := OtherSkills(rows[1..], userId);
      assert forall x :: x in rows ==> x == rows[0] || x in rows[1..];
      if rows[0].userId == userId then rest else [rows[0]] + rest
  }

  /** `extract_and_save_interests_skills`: the user's old rows are deleted
      before the new ones are inserted, so afterwards the user's rows are
      exactly the new ones and every other user's rows are kept. */
  function ExtractAndSave(t: Tables, userId: int, p: Parsed): (r: (Tables, nat, nat))
    ensures forall x :: x in r.0.interests && x.userId == userId ==> x in SaveInterests(userId, p).0
    ensures forall x :: x in r.0.skills && x.userId == userId ==> x in SaveSkills(userId, p).0
    ensures forall x :: x in t.interests && x.userId != userId ==> x in r.0.interests
    ensures forall x :: x in t.skills && x.userId != userId ==> x in r.0.skills
    ensures forall x :: x in SaveInterests(userId, p).0 ==> x in r.0.interests
    ensures forall x :: x in SaveSkills(userId, p).0 ==> x in r.0.skills
    ensures forall x :: x in r.0.interests && x.userId != userId ==> x in t.interests
    ensures forall x :: x in r.0.skills && x.userId != userId ==> x in t.skills
    ensures r.1 == CountSaveable(Entries(p.interests)) && r.2 == CountSaveable(Entries(p.techSkills))
  {
    var (interests, ni) := SaveInterests(userId, p);
    var (skills, ns) := SaveSkills(userId, p);
    (Tables(OtherInterests(t.interests, userId) + interests, OtherSkills(t.skills, userId) + skills), ni, ns)
  }

  // ---------------------------------------------------------------------
  // Reading the analysis
  // ---------------------------------------------------------------------

  /** Python strings as JSON values, in order. */
  function Strs(xs: seq<string>): (r: seq<Value>)
    ensures |r| == |xs| && forall i :: 0 <= i < |xs| ==> r[i] == Str(xs[i])
  {
    seq(|xs|, i requires 0 <= i < |xs| => Str(xs[i]))
  }

  /** The dict `_extract_from_text` returns. */
  function TextResult(text: string): seq<Field> {
    var e := ExtractFromText(text);
    [Field("interests", Arr(Strs(e.interests))), Field("tech_skills", Arr(Strs(e.techSkills)))]
  }

  /** `_extract_json_from_analysis` on the analysis text: the decoded fenced
      JSON block, or else the keyword extraction. `block` stands for the
      regular-expression search and `loads` for `json.loads` on the block,
      whose surrounding braces make any decoded value a dict. */
  function ExtractJsonFromAnalysis(text: string, block: string -> Option<string>,
                                   loads: string -> Option<seq<Field>>): (r: seq<Field>)
    ensures block(text).Some? && loads(block(text).value).Some? ==> r == loads(block(text).value).value
    ensures block(text).None? || loads(block(text).value).None? ==>
              Get(r, "interests") == Some(Arr(Strs(ExtractFromText(text).interests))) &&
              Get(r, "tech_skills") == Some(Arr(Strs(ExtractFromText(text).techSkills)))
  {
    match block(text)
    case Some(js) =>
      (match loads(js)
       case Some(d) => d
       case None => TextResult(text))
    case None => TextResult(text)
  }

  /** A text field of the parsed dict; a missing or non-text value reads as
      the empty text. */
  function TextField(d: seq<Field>, key: string): string {
    match Get(d, key)
    case Some(Str(s)) => s
    case _ => ""
  }

  /** The fields of the parsed dict that the save helpers read. */
  function ParsedOf(d: seq<Field>): Parsed {
    Parsed(Get(d, "interests").GetOr(Arr([])), Get(d, "tech_skills").GetOr(Arr([])), TextField(d, "bio"),
           Get(d, "university_relation").GetOr(Null), TextField(d, "major_field"),
           TextField(d, "learning_style"), TextField(d, "activity_pattern"))
  }

  lemma LabelsSaveable()
    ensures forall i :: 0 <= i < |InterestKeywords| ==> Saveable(Str(InterestKeywords[i].0))
    ensures forall i :: 0 <= i < |SkillKeywords| ==> Saveable(Str(SkillKeywords[i].0))
  {
    forall i | 0 <= i < |InterestKeywords|
      ensures Saveable(Str(InterestKeywords[i].0))
    {
      var x := InterestKeywords[i].0;
      assert |x| > 0 && !IsSpace(x[0]);
      NotBlank(x);
    }
    forall i | 0 <= i < |SkillKeywords|
      ensures Saveable(Str(SkillKeywords[i].0))
    {
      var x := SkillKeywords[i].0;
      assert |x| > 0 && !IsSpace(x[0]);
      NotBlank(x);
    }
  }

  /** A text starting with a non-space character is not blank. */
  lemma NotBlank(x: string)
    requires |x| > 0 && !IsSpace(x[0])
    ensures Strip(x) != ""
  {
    assert LStrip(x) == x;
    assert RStrip(x) != "" by {
      if IsSpace(x[|x| - 1]) {
        RStripKeepsFirst(x);
      }
    }
  }

  lemma {:induction false} RStripKeepsFirst(x: string)
    requires |x| > 0 && !IsSpace(x[0])
    ensures |RStrip(x)| > 0 && RStrip(x)[0] == x[0]
    decreases |x|
  {
    if IsSpace(x[|x| - 1]) {
      RStripKeepsFirst(x[..|x| - 1]);
    }
  }

  lemma {:induction false} CountAllSaveable(xs: seq<string>)
    requires forall x :: x in xs ==> Saveable(Str(x))
    ensures CountSaveable(Strs(xs)) == |xs|
    decreases |xs|
  {
    if |xs| > 0 {
      assert Strs(xs)[1..] == Strs(xs[1..]);
      assert Strs(xs)[0] == Str(xs[0]) && xs[0] in xs;
      CountAllSaveable(xs[1..]);
    }
  }

  /** Without a decodable JSON block, every interest and skill the keywords
      find in the text is saved, one row each. */
  lemma TextFallbackSavesAll(userId: int, text: string, block: string -> Option<string>,
                             loads: string -> Option<seq<Field>>)
    requires block(text).None? || loads(block(text).value).None?
    ensures var p := ParsedOf(ExtractJsonFromAnalysis(text, block, loads));
            SaveInterests(userId, p).1 == |ExtractFromText(text).interests| &&
            SaveSkills(userId, p).1 == |ExtractFromText(text).techSkills|
  {
    LabelsSaveable();
    HitsAllSaveable(text, InterestKeywords);
    HitsAllSaveable(text, SkillKeywords);
  }

  /** When every label of a table can be saved, so can every label it finds. */
  lemma HitsAllSaveable(text: string, table: Table)
    requires forall i :: 0 <= i < |table| ==> Saveable(Str(table[i].0))
    ensures CountSaveable(Strs(Hits(text, table))) == |Hits(text, table)|
  {
    forall x | x in Hits(text, table)
      ensures Saveable(Str(x))
    {
      var i :| 0 <= i < |table| && table[i].0 == x && Applies(text, table[i]);
    }
    CountAllSaveable(Hits(text, table));
  }
}

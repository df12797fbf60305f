/** The analysis repository (repositories/analysis_repository.py): turning a
    model's free-form analysis into a structured record, its confidence
    score, the one-record-per-user store and the criteria search. */
module AnalysisRepo {
  import opened Wrappers
  import opened Text
  import opened Json
  import opened Sql
  import DbJson

  // ---------------------------------------------------------------------
  // Reading an analysis that is not JSON
  // ---------------------------------------------------------------------

  /** How closely the text ties the account to the university. */
  function UniversityRelation(text: string): (r: string)
    ensures r == "高" <==> Contains(text, "東京通信大学") || Contains(text, "TOU")
    ensures r == "中" <==> !Contains(text, "東京通信大学") && !Contains(text, "TOU") && Contains(text, "大学")
    ensures r == "低" <==> !Contains(text, "東京通信大学") && !Contains(text, "TOU") && !Contains(text, "大学")
  {
    if Contains(text, "東京通信大学") || Contains(text, "TOU") then "高"
    else if Contains(text, "大学") then "中"
    else "低"
  }

  /** A student mention wins over a teacher mention. */
  function RelationType(text: string): (r: string)
    ensures r == "学生" <==> Contains(text, "学生")
    ensures r == "教員" <==> !Contains(text, "学生") && (Contains(text, "教員") || Contains(text, "先生"))
    ensures r == "その他" <==> !Contains(text, "学生") && !Contains(text, "教員") && !Contains(text, "先生")
  {
    if Contains(text, "学生") then "学生"
    else if Contains(text, "教員") || Contains(text, "先生") then "教員"
    else "その他"
  }

  /** Information science wins over business. */
  function MajorField(text: string): (r: string)
    ensures r == "情報学" <==> Contains(text, "プログラミング") || Contains(text, "IT") || Contains(text, "情報")
    ensures r == "経営学" <==> !(Contains(text, "プログラミング") || Contains(text, "IT") || Contains(text, "情報"))
                             && (Contains(text, "経営") || Contains(text, "ビジネス"))
    ensures r == "その他" <==> !(Contains(text, "プログラミング") || Contains(text, "IT") || Contains(text, "情報"))
                             && !Contains(text, "経営") && !Contains(text, "ビジネス")
  {
    if Contains(text, "プログラミング") || Contains(text, "IT") || Contains(text, "情報") then "情報学"
    else if Contains(text, "経営") || Contains(text, "ビジネス") then "経営学"
    else "その他"
  }

  /** `_extract_from_text`: a dict with exactly the three judged fields. */
  function ExtractFromText(text: string): (r: seq<Field>)
    ensures Get(r, "university_relation") == Some(Str(UniversityRelation(text)))
    ensures Get(r, "relation_type") == Some(Str(RelationType(text)))
    ensures Get(r, "major_field") == Some(Str(MajorField(text)))
    ensures |r| == 3
  {
    var r := [Field("university_relation", Str(UniversityRelation(text))),
              Field("relation_type", Str(RelationType(text))),
              Field("major_field", Str(MajorField(text)))];
    assert r[1..][1..] == r[2..];
    assert Get(r[2..], "major_field") == Some(Str(MajorField(text)));
    r
  }

  function RelationRank(r: string): nat {
    if r == "高" then 2 else if r == "中" then 1 else 0
  }

  /** More text never weakens what was judged: the university relation only
      rises, and a student or an information-science verdict stays. */
  lemma {:induction false} ExtractionMonotone(text: string, more: string)
    ensures RelationRank(UniversityRelation(text)) <= RelationRank(UniversityRelation(text + more))
    ensures RelationRank(UniversityRelation(text)) <= RelationRank(UniversityRelation(more + text))
    ensures RelationType(text) == "学生" ==> RelationType(text + more) == "学生"
    ensures MajorField(text) == "情報学" ==> MajorField(text + more) == "情報学"
  {
    StillContains(text, more, "東京通信大学");
    StillContains(text, more, "TOU");
    StillContains(text, more, "大学");
    StillContains(text, more, "学生");
    StillContains(text, more, "プログラミング");
    StillContains(text, more, "IT");
    StillContains(text, more, "情報");
  }

  /** A word in `text` stays in it whichever side more text is added on. */
  lemma StillContains(text: string, more: string, k: string)
    ensures Contains(text, k) ==> Contains(text + more, k) && Contains(more + text, k)
  {
    if Contains(text, k) {
      ContainsAppendRight(text, more, k);
      ContainsAppendLeft(more, text, k);
    }
  }

  // ---------------------------------------------------------------------
  // Confidence
  // ---------------------------------------------------------------------

  /** `isinstance(d.get(key, []), list) and len(...) >= n`. */
  predicate ListOfAtLeast(v: Option<Value>, n: nat) {
    v.Some? && v.value.Arr? && |v.value.items| >= n
  }

  function RelationPoints(parsed: seq<Field>): (r: real)
    ensures r == 0.3 <==> Get(parsed, "university_relation") == Some(Str("高"))
    ensures r == 0.2 <==> Get(parsed, "university_relation") == Some(Str("中"))
    ensures r == 0.0 || r == 0.2 || r == 0.3
  {
    var rel := Get(parsed, "university_relation");
    if rel == Some(Str("高")) then 0.3
    else if rel == Some(Str("中")) then 0.2
    else 0.0
  }

  predicate InterestsDetailed(parsed: seq<Field>) {
    ListOfAtLeast(Get(parsed, "interests"), 3)
  }

  predicate SkillsDetailed(parsed: seq<Field>) {
    ListOfAtLeast(Get(parsed, "tech_skills"), 2)
  }

  predicate TraitsDetailed(parsed: seq<Field>) {
    ListOfAtLeast(Get(parsed, "personality_traits"), 2)
  }

  /** The sum of the five contributions, capped at 1.0. */
  function Score(relation: real, major: bool, interests: bool, skills: bool, traits: bool): (r: real)
    requires relation == 0.0 || relation == 0.2 || relation == 0.3
    ensures 0.0 <= r <= 1.0
    ensures r == 0.0 <==> relation == 0.0 && !major && !interests && !skills && !traits
    ensures r == 1.0 <==> relation == 0.3 && major && interests && skills && traits
  {
    var sum := relation + (if major then 0.2 else 0.0) + (if interests then 0.2 else 0.0)
               + (if skills then 0.2 else 0.0) + (if traits then 0.1 else 0.0);
    if sum < 1.0 then sum else 1.0
  }

  /** The major test as written: `get('major_field') not in ['不明', 'その他']`
      is also true when the key is missing. */
  predicate SpecificMajorAsWritten(parsed: seq<Field>) {
    var m := Get(parsed, "major_field");
    m != Some(Str("不明")) && m != Some(Str("その他"))
  }

  /** `_calculate_confidence` as written. */
  function ConfidenceAsWritten(parsed: seq<Field>): (r: real)
    ensures 0.0 <= r <= 1.0
    ensures SpecificMajorAsWritten(parsed) ==> r >= 0.2
  {
    Score(RelationPoints(parsed), SpecificMajorAsWritten(parsed), InterestsDetailed(parsed),
          SkillsDetailed(parsed), TraitsDetailed(parsed))
  }

  /** An analysis that says nothing at all still scores 0.2 as written. */
  lemma EmptyAnalysisScoresAsWritten()
    ensures ConfidenceAsWritten([]) == 0.2
  {
    assert Get([], "major_field") == None;
    assert !InterestsDetailed([]) && !SkillsDetailed([]) && !TraitsDetailed([]);
  }

  /** A major counts only when one is named and it is not a placeholder. */
  predicate SpecificMajor(parsed: seq<Field>) {
    var m := Get(parsed, "major_field");
    m.Some? && m.value != Null && m.value != Str("不明") && m.value != Str("その他")
  }

  /** The confidence of a parsed analysis: within [0, 1], zero exactly when
      nothing in it counts, and one exactly when everything does. */
  function Confidence(parsed: seq<Field>): (r: real)
    ensures 0.0 <= r <= 1.0
    ensures r == 0.0 <==> RelationPoints(parsed) == 0.0 && !SpecificMajor(parsed)
                          && !InterestsDetailed(parsed) && !SkillsDetailed(parsed) && !TraitsDetailed(parsed)
    ensures r == 1.0 <==> Get(parsed, "university_relation") == Some(Str("高")) && SpecificMajor(parsed)
                          && InterestsDetailed(parsed) && SkillsDetailed(parsed) && TraitsDetailed(parsed)
  {
    Score(RelationPoints(parsed), SpecificMajor(parsed), InterestsDetailed(parsed),
          SkillsDetailed(parsed), TraitsDetailed(parsed))
  }

  /** The two differ only on a missing or null major. */
  lemma ConfidenceAgreesWhenMajorNamed(parsed: seq<Field>)
    requires Get(parsed, "major_field").Some? && Get(parsed, "major_field").value != Null
    ensures Confidence(parsed) == ConfidenceAsWritten(parsed)
  {
  }

  /** An analysis that says nothing scores zero. */
  lemma EmptyAnalysisScoresZero()
    ensures Confidence([]) == 0.0
  {
    assert Get([], "university_relation") == None;
  }

  predicate IsListKey(key: string) {
    key == "interests" || key == "tech_skills" || key == "personality_traits"
  }

  function Needed(key: string): nat {
    if key == "interests" then 3 else if key == "personality_traits" then 2 else 2
  }

  /** A list field contributes only as a list of the required length: any
      other value in its place scores the same as an empty list. */
  lemma {:induction false} ShortOrNonListIgnored(parsed: seq<Field>, key: string, v: Value)
    requires IsListKey(key)
    requires !ListOfAtLeast(Some(v), Needed(key))
    ensures Confidence(Put(parsed, key, v)) == Confidence(Put(parsed, key, Arr([])))
  {
    SameReading(parsed, key, v, "university_relation");
    SameReading(parsed, key, v, "major_field");
    SameReading(parsed, key, v, "interests");
    SameReading(parsed, key, v, "tech_skills");
    SameReading(parsed, key, v, "personality_traits");
  }

  /** Putting `v` or an empty list under `key` reads the same at `k`, as far as
      the length test is concerned. */
  lemma SameReading(parsed: seq<Field>, key: string, v: Value, k: string)
    requires !ListOfAtLeast(Some(v), Needed(key))
    ensures k != key ==> Get(Put(parsed, key, v), k) == Get(Put(parsed, key, Arr([])), k)
    ensures k == key ==> !ListOfAtLeast(Get(Put(parsed, key, v), k), Needed(key)) &&
                         !ListOfAtLeast(Get(Put(parsed, key, Arr([])), k), Needed(key))
  {
    PutGet(parsed, key, v, k);
    PutGet(parsed, key, Arr([]), k);
  }

  // ---------------------------------------------------------------------
  // Structuring
  // ---------------------------------------------------------------------

  datatype Analysis = Analysis(
    universityRelation: Value,
    relationType: Value,
    majorField: Value,
    personalityTraits: string,
    learningStyle: Value,
    activityPattern: Value,
    collaborationPotential: Value,
    confidence: real,
    rawAnalysisData: string)

  /** The record stored when reading the analysis fails. */
  function DefaultAnalysis(raw: string): (r: Analysis)
    ensures r.confidence == 0.0 && r.rawAnalysisData == raw
    ensures r.universityRelation == Str("不明") && r.majorField == Str("不明")
  {
    Analysis(Str("不明"), Str("その他"), Str("不明"), "", Str(""), Str(""), Str("不明"), 0.0, raw)
  }

  /** How the analysis text was read: a fenced JSON block (decoded or not),
      JSON text, or plain text. `block` stands for the regular expression
      that finds the block and `loads` for `json.loads`. */
  function ParsedJson(text: string, block: string -> Option<string>, loads: string -> Option<Value>): Option<Value>
  {
    match block(text)
    case Some(js) => loads(js)
    case None =>
      match loads(text)
      case Some(v) => Some(v)
      case None => Some(Obj(ExtractFromText(text)))
  }

  /** The record built from a parsed dict, or `None` where building raises.
      Its confidence is the one the code computes, which differs from the
      corrected one only when the major is missing or null. */
  function Structure(parsed: seq<Field>, raw: string, dumps: Value -> string): (r: Option<Analysis>)
    ensures r.Some? ==> r.value.confidence == ConfidenceAsWritten(parsed) && r.value.rawAnalysisData == raw
    ensures r.Some? && Get(parsed, "major_field").Some? && Get(parsed, "major_field").value != Null
            ==> r.value.confidence == Confidence(parsed)
    ensures r.Some? ==> r.value.universityRelation == Get(parsed, "university_relation").GetOr(Str("不明"))
    ensures r.Some? ==> r.value.majorField == Get(parsed, "major_field").GetOr(Str("不明"))
    ensures r.None? <==> !Encodable(Get(parsed, "personality_traits").GetOr(Arr([])))
  {
    var traits := DbJson.JsonToText(Get(parsed, "personality_traits").GetOr(Arr([])), dumps);
    if traits.None? then None
    else Some(Analysis(
      Get(parsed, "university_relation").GetOr(Str("不明")),
      Get(parsed, "relation_type").GetOr(Str("その他")),
      Get(parsed, "major_field").GetOr(Str("不明")),
      traits.value,
      Get(parsed, "learning_style").GetOr(Str("")),
      Get(parsed, "activity_pattern").GetOr(Str("")),
      Get(parsed, "collaboration_potential").GetOr(Str("不明")),
      ConfidenceAsWritten(parsed),
      raw))
  }

  /** `_parse_analysis_data`. It fails only when the raw data cannot be
      serialised, which raises from the fallback as well; any other failure
      (a non-string analysis, an undecodable block, JSON that is not an
      object) yields the default record. */
  function ParseAnalysisData(data: seq<Field>, block: string -> Option<string>,
                             loads: string -> Option<Value>, dumps: Value -> string): (r: Result<Analysis, string>)
    ensures r.Err? <==> !Encodable(Obj(data))
    ensures r.Ok? ==> r.value.rawAnalysisData == dumps(Obj(data))
    ensures r.Ok? ==> 0.0 <= r.value.confidence <= 1.0
    ensures r.Ok? && !Get(data, "analysis").GetOr(Str("")).Str? ==> r.value == DefaultAnalysis(dumps(Obj(data)))
  {
    var raw := DbJson.JsonToText(Obj(data), dumps);
    if raw.None? then Err("analysis data is not serialisable")
    else
      var text := Get(data, "analysis").GetOr(Str(""));
      var parsed := if text.Str? then ParsedJson(text.s, block, loads) else None;
      if parsed.None? || !parsed.value.Obj? then Ok(DefaultAnalysis(raw.value))
      else match Structure(parsed.value.fields, raw.value, dumps)
        case Some(a) => Ok(a)
        case None => Ok(DefaultAnalysis(raw.value))
  }

  /** Plain text that is neither a JSON block nor JSON is judged by keywords,
      and then at most the relation and the major can count. */
  lemma PlainTextJudged(data: seq<Field>, text: string, block: string -> Option<string>,
                        loads: string -> Option<Value>, dumps: Value -> string)
    requires Encodable(Obj(data))
    requires Get(data, "analysis") == Some(Str(text))
    requires block(text).None? && loads(text).None?
    ensures ParseAnalysisData(data, block, loads, dumps).Ok?
    ensures ParseAnalysisData(data, block, loads, dumps).value.universityRelation == Str(UniversityRelation(text))
    ensures ParseAnalysisData(data, block, loads, dumps).value.majorField == Str(MajorField(text))
    ensures ParseAnalysisData(data, block, loads, dumps).value.confidence <= 0.5
  {
    var parsed := ExtractFromText(text);
    GetAbsent(parsed, "interests");
    GetAbsent(parsed, "tech_skills");
    GetAbsent(parsed, "personality_traits");
  }

  /** A fenced block that does not decode gives the default record. */
  lemma BadBlockGivesDefault(data: seq<Field>, text: string, block: string -> Option<string>,
                             loads: string -> Option<Value>, dumps: Value -> string)
    requires Encodable(Obj(data))
    requires Get(data, "analysis") == Some(Str(text))
    requires block(text).Some? && loads(block(text).value).None?
    ensures ParseAnalysisData(data, block, loads, dumps) == Ok(DefaultAnalysis(dumps(Obj(data))))
  {
  }

  // ---------------------------------------------------------------------
  // The user_analysis table
  // ---------------------------------------------------------------------

  datatype Row = Row(id: nat, userId: int, analysis: Analysis, createdAt: int)

  /** `nextId` is the row id the next insert receives. */
  datatype Store = Store(rows: seq<Row>, nextId: nat)

  predicate Valid(s: Store) {
    (forall i :: 0 <= i < |s.rows| ==> s.rows[i].id < s.nextId)
    && (forall i, j :: 0 <= i < j < |s.rows| ==> s.rows[i].id != s.rows[j].id)
  }

  /** `get_latest_analysis`: the user's row with the latest creation time
      (the earlier row on a tie). */
  function Latest(rows: seq<Row>, userId: int): (r: Option<Row>)
    ensures r.None? <==> forall i :: 0 <= i < |rows| ==> rows[i].userId != userId
    ensures r.Some? ==> r.value in rows && r.value.userId == userId
    ensures r.Some? ==> forall i :: 0 <= i < |rows| && rows[i].userId == userId ==> rows[i].createdAt <= r.value.createdAt
    decreases |rows|
  {
    if |rows| == 0 then None
    else
      var last := rows[|rows| - 1];
      var prev := Latest(rows[..|rows| - 1], userId);
      if last.userId != userId then prev
      else if prev.None? || last.createdAt > prev.value.createdAt then Some(last)
      else prev
  }

  /** `UPDATE ... WHERE id = ?`: rewrite the row with that id. */
  function Rewrite(rows: seq<Row>, id: nat, a: Analysis, now: int): (r: seq<Row>)
    ensures |r| == |rows|
    ensures forall i :: 0 <= i < |rows| ==> r[i].id == rows[i].id && r[i].userId == rows[i].userId
    ensures forall i :: 0 <= i < |rows| && rows[i].id != id ==> r[i] == rows[i]
    ensures forall i :: 0 <= i < |rows| && rows[i].id == id ==> r[i].analysis == a && r[i].createdAt == now
  {
    seq(|rows|, i requires 0 <= i < |rows| => if rows[i].id == id then rows[i].(analysis := a, createdAt := now) else rows[i])
  }

  function UserRows(rows: seq<Row>, userId: int): nat
    decreases |rows|
  {
    if |rows| == 0 then 0
    else UserRows(rows[..|rows| - 1], userId) + (if rows[|rows| - 1].userId == userId then 1 else 0)
  }

  /** `save_analysis`: parse, then overwrite the user's latest row in place
      (refreshing its time) or insert the first one; the answer is that row's
      id. A failed parse is raised as an analysis error and changes nothing. */
  function SaveAnalysis(s: Store, userId: int, data: seq<Field>, block: string -> Option<string>,
                        loads: string -> Option<Value>, dumps: Value -> string, now: int): (r: Result<(Store, nat), string>)
    requires Valid(s)
    ensures r.Err? <==> ParseAnalysisData(data, block, loads, dumps).Err?
    ensures r.Ok? ==> Valid(r.value.0)
    ensures r.Ok? ==> exists i :: 0 <= i < |r.value.0.rows| && r.value.0.rows[i].id == r.value.1
                        && r.value.0.rows[i].userId == userId
                        && r.value.0.rows[i].analysis == ParseAnalysisData(data, block, loads, dumps).value
    ensures r.Ok? ==> |r.value.0.rows| == |s.rows| + (if Latest(s.rows, userId).Some? then 0 else 1)
    ensures r.Ok? ==> forall i :: 0 <= i < |s.rows| && s.rows[i].userId != userId ==> r.value.0.rows[i] == s.rows[i]
  {
    SaveParsed(s, userId, ParseAnalysisData(data, block, loads, dumps), now)
  }

  /** The write of `save_analysis` once the analysis is parsed. */
  function SaveParsed(s: Store, userId: int, parsed: Result<Analysis, string>, now: int): (r: Result<(Store, nat), string>)
    requires Valid(s)
    ensures r.Err? <==> parsed.Err?
    ensures r.Ok? ==> Valid(r.value.0)
    ensures r.Ok? ==> exists i :: 0 <= i < |r.value.0.rows| && r.value.0.rows[i].id == r.value.1
                        && r.value.0.rows[i].userId == userId
                        && r.value.0.rows[i].analysis == parsed.value
    ensures r.Ok? ==> |r.value.0.rows| == |s.rows| + (if Latest(s.rows, userId).Some? then 0 else 1)
    ensures r.Ok? ==> forall i :: 0 <= i < |s.rows| && s.rows[i].userId != userId ==> r.value.0.rows[i] == s.rows[i]
  {
    match parsed
    case Err(e) => Err(e)
    case Ok(a) =>
      match Latest(s.rows, userId)
      case Some(row) =>
        var rows := Rewrite(s.rows, row.id, a, now);
        var i :| 0 <= i < |s.rows| && s.rows[i] == row;
        assert rows[i].id == row.id;
        Ok((Store(rows, s.nextId), row.id))
      case None =>
        var rows := s.rows + [Row(s.nextId, userId, a, now)];
        assert rows[|s.rows|].id == s.nextId;
        Ok((Store(rows, s.nextId + 1), s.nextId))
  }

  lemma {:induction false} UserRowsAppend(rows: seq<Row>, row: Row, userId: int)
    ensures UserRows(rows + [row], userId) == UserRows(rows, userId) + (if row.userId == userId then 1 else 0)
  {
    assert (rows + [row])[..|rows|] == rows;
  }

  lemma {:induction false} UserRowsRewrite(rows: seq<Row>, id: nat, a: Analysis, now: int, userId: int)
    ensures UserRows(Rewrite(rows, id, a, now), userId) == UserRows(rows, userId)
    decreases |rows|
  {
    if |rows| > 0 {
      var init := rows[..|rows| - 1];
      var r := Rewrite(rows, id, a, now);
      assert r[..|rows| - 1] == Rewrite(init, id, a, now);
      UserRowsRewrite(init, id, a, now, userId);
    }
  }

  lemma {:induction false} NoRowsCountZero(rows: seq<Row>, userId: int)
    requires forall i :: 0 <= i < |rows| ==> rows[i].userId != userId
    ensures UserRows(rows, userId) == 0
    decreases |rows|
  {
    if |rows| > 0 {
      NoRowsCountZero(rows[..|rows| - 1], userId);
    }
  }

  /** A user never holds more than one analysis row through this repository:
      saving into a store where the user has at most one row leaves exactly
      one. */
  lemma SaveKeepsOneRowPerUser(s: Store, userId: int, data: seq<Field>, block: string -> Option<string>,
                               loads: string -> Option<Value>, dumps: Value -> string, now: int)
    requires Valid(s)
    requires UserRows(s.rows, userId) <= 1
    requires SaveAnalysis(s, userId, data, block, loads, dumps, now).Ok?
    ensures UserRows(SaveAnalysis(s, userId, data, block, loads, dumps, now).value.0.rows, userId) == 1
  {
    var a := ParseAnalysisData(data, block, loads, dumps).value;
    match Latest(s.rows, userId)
    case Some(row) =>
      UserRowsRewrite(s.rows, row.id, a, now, userId);
      if UserRows(s.rows, userId) == 0 {
        var i :| 0 <= i < |s.rows| && s.rows[i] == row;
        UserHasRow(s.rows, userId, i);
      }
    case None =>
      NoRowsCountZero(s.rows, userId);
      UserRowsAppend(s.rows, Row(s.nextId, userId, a, now), userId);
  }

  lemma {:induction false} UserHasRow(rows: seq<Row>, userId: int, i: nat)
    requires i < |rows| && rows[i].userId == userId
    ensures UserRows(rows, userId) >= 1
    decreases |rows|
  {
    if i < |rows| - 1 {
      UserHasRow(rows[..|rows| - 1], userId, i);
    }
  }

  // ---------------------------------------------------------------------
  // Searching by criteria
  // ---------------------------------------------------------------------

  const CriteriaBase := "SELECT ua.*, u.twitter_username, u.name FROM user_analysis ua JOIN users u ON ua.user_id = u.id WHERE u.is_active = TRUE"
  const CriteriaOrder := " ORDER BY ua.created_at DESC"

  /** The criterion for one key, bound to the key's value when that value
      is truthy. */
  function CriterionFor(criteria: seq<Field>, key: string, condition: string): (c: Criterion)
    ensures c.applies <==> Truthy(Get(criteria, key).GetOr(Null))
    ensures c.applies ==> c.param == Get(criteria, key).value
  {
    var v := Get(criteria, key).GetOr(Null);
    Criterion(Truthy(v), condition, v)
  }

  function CriteriaOf(criteria: seq<Field>): seq<Criterion> {
    [CriterionFor(criteria, "university_relation", " AND ua.university_relation = "),
     CriterionFor(criteria, "major_field", " AND ua.major_field = "),
     CriterionFor(criteria, "relation_type", " AND ua.relation_type = "),
     CriterionFor(criteria, "min_confidence", " AND ua.analysis_confidence >= ")]
  }

  /** `get_users_by_criteria`: one `AND ... ?` clause and one parameter for
      each truthy criterion, in a fixed order, between the fixed head and the
      ordering. */
  function UsersByCriteria(criteria: seq<Field>): (q: Query)
    ensures Balanced(q)
    ensures |q.sql| >= 1 && q.sql[0] == Words(CriteriaBase) && q.sql[|q.sql| - 1] == Words(CriteriaOrder)
    ensures |q.params| == (if Truthy(Get(criteria, "university_relation").GetOr(Null)) then 1 else 0)
                          + (if Truthy(Get(criteria, "major_field").GetOr(Null)) then 1 else 0)
                          + (if Truthy(Get(criteria, "relation_type").GetOr(Null)) then 1 else 0)
                          + (if Truthy(Get(criteria, "min_confidence").GetOr(Null)) then 1 else 0)
    ensures Truthy(Get(criteria, "university_relation").GetOr(Null)) ==> q.params[0] == Get(criteria, "university_relation").value
    ensures q.params == [] <==> (!Truthy(Get(criteria, "university_relation").GetOr(Null))
                                 && !Truthy(Get(criteria, "major_field").GetOr(Null))
                                 && !Truthy(Get(criteria, "relation_type").GetOr(Null))
                                 && !Truthy(Get(criteria, "min_confidence").GetOr(Null)))
  {
    var cs := CriteriaOf(criteria);
    var base := Query([Words(CriteriaBase)], []);
    assert Placeholders(base.sql) == 0 by { assert base.sql[1..] == []; }
    var q := AddCriteria(base, cs);
    assert q.params == BoundParams(cs);
    FourCriteria(cs);
    assert q.sql[0] == Words(CriteriaBase);
    Append(q, CriteriaOrder)
  }
}

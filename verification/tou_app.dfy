/** `analyze_username_pattern` of tou_connect_app.py: a profile guessed from
    the username alone, with technical words taking precedence over study
    words and study words over creative ones. */
module UsernamePattern {
  import opened Text
  import opened Collections

  const TechWords: seq<string> := ["tech", "dev", "code", "program", "engineer", "ai", "ml", "data", "web", "app"]
  const StudyWords: seq<string> := ["study", "learn", "student", "academic", "research", "scholar"]
  const CreativeWords: seq<string> := ["design", "creative", "art", "ui", "ux", "graphic"]

  datatype Category = Tech | Study | Creative | General

  datatype Profile = Profile(interests: seq<string>, skills: seq<string>, learningStyle: string,
                             engagementLevel: string, summary: string)

  /** The first word list that matches the lower-cased username. */
  function CategoryOf(username: string): (c: Category)
    ensures c == Tech <==> ContainsAny(Lower(username), TechWords)
    ensures c == Study <==> !ContainsAny(Lower(username), TechWords) && ContainsAny(Lower(username), StudyWords)
    ensures c == Creative <==> !ContainsAny(Lower(username), TechWords) && !ContainsAny(Lower(username), StudyWords) &&
                               ContainsAny(Lower(username), CreativeWords)
  {
    var u := Lower(username);
    if ContainsAny(u, TechWords) then Tech
    else if ContainsAny(u, StudyWords) then Study
    else if ContainsAny(u, CreativeWords) then Creative
    else General
  }

  function ExtraInterests(c: Category): seq<string> {
    match c
    case Tech => ["プログラミング", "AI・機械学習", "Web開発"]
    case Study => ["学術研究", "理論学習", "知識探求"]
    case Creative => ["デザイン", "UI/UX", "クリエイティブ"]
    case General => ["多分野学習", "総合的理解"]
  }

  function ExtraSkills(c: Category): seq<string> {
    match c
    case Tech => ["Python", "JavaScript", "データ分析"]
    case Study => ["研究手法", "批判的思考", "文献調査"]
    case Creative => ["デザイン思考", "ビジュアル表現", "ユーザー体験"]
    case General => ["適応力", "多角的思考"]
  }

  function StyleOf(c: Category): string {
    match c
    case Tech => "技術志向"
    case Study => "研究志向"
    case Creative => "クリエイティブ志向"
    case General => "バランス型"
  }

  function SummaryOf(c: Category): string {
    match c
    case Tech => "技術分野への強い関心と実践的なスキル習得意欲を持っています。"
    case Study => "学術的な探求心と体系的な学習アプローチを重視しています。"
    case Creative => "クリエイティブな表現と革新的なアイデアの創出に長けています。"
    case General => "幅広い分野への関心と柔軟な学習スタイルを持っています。"
  }

  /** `analyze_username_pattern` */
  function AnalyzeUsernamePattern(username: string): (p: Profile)
    ensures 2 <= |p.interests| <= 5 && p.interests[..2] == ["学習", "テクノロジー"]
    ensures 2 <= |p.skills| <= 4 && p.skills[..2] == ["問題解決", "継続学習"]
    ensures p.interests[2..] == ExtraInterests(CategoryOf(username))
    ensures p.skills[2..] == ExtraSkills(CategoryOf(username))[..2]
    ensures p.engagementLevel == "アクティブ"
    ensures p.learningStyle == "バランス型" <==> CategoryOf(username) == General
    ensures p.learningStyle == "技術志向" <==> ContainsAny(Lower(username), TechWords)
  {
    var c := CategoryOf(username);
    var interests := ["学習", "テクノロジー"] + ExtraInterests(c);
    var skills := ["問題解決", "継続学習"] + ExtraSkills(c);
    Profile(Prefix(interests, 5), Prefix(skills, 4), StyleOf(c), "アクティブ", SummaryOf(c))
  }

  /** The category a learning style names; anything else reads as general. */
  function CategoryOfStyle(style: string): Category {
    if style == "技術志向" then Tech
    else if style == "研究志向" then Study
    else if style == "クリエイティブ志向" then Creative
    else General
  }

  /** The profile's learning style names the category the username was
      judged to be in, so the style alone recovers it. */
  lemma StyleRecoversCategory(username: string)
    ensures CategoryOfStyle(AnalyzeUsernamePattern(username).learningStyle) == CategoryOf(username)
  {
  }

  /** Only the lower-cased username matters: two spellings that differ only
      in the case of ASCII letters get the same profile. */
  lemma ProfileIgnoresCase(a: string, b: string)
    requires Lower(a) == Lower(b)
    ensures AnalyzeUsernamePattern(a) == AnalyzeUsernamePattern(b)
  {
  }
}

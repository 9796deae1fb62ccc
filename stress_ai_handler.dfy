/**
 * The deterministic part of the stress-ai-comment function: the level
 * analysis returned beside the comment, the priority areas and scales, the
 * focus rule shared by the prompt and the retrieval query, truncate,
 * levelText, the language choice and the appended extra instruction.
 * Scores and ratings arrive as JSON numbers and are modelled as reals.
 */
module StressAiHandler {
  import opened Wrappers
  import opened JsString
  import opened StableSort

  datatype StressScores = StressScores(scoreA: real, scoreB: real, scoreC: real, total: real, highStress: bool)

  datatype Level = Low | Medium | High

  datatype OverallRisk = HighRisk | NormalRisk

  datatype Analysis = Analysis(
    workStressLevel: Level,
    physicalStressLevel: Level,
    supportLevel: Level,
    overallRisk: OverallRisk,
    priorityAreas: seq<string>)

  function Rank(l: Level): int {
    match l
    case Low => 0
    case Medium => 1
    case High => 2
  }

  /** v >= high ? 'high' : v >= medium ? 'medium' : 'low' */
  function Grade(v: real, high: real, medium: real): Level {
    if v >= high then High else if v >= medium then Medium else Low
  }

  /** With ordered thresholds, a larger score never gets a lower level. */
  lemma GradeMonotone(v: real, w: real, high: real, medium: real)
    requires medium <= high && v <= w
    ensures Rank(Grade(v, high, medium)) <= Rank(Grade(w, high, medium))
  {
  }

  /** The support scale is inverted: a high C means little support. */
  function Invert(l: Level): Level {
    match l
    case Low => High
    case Medium => Medium
    case High => Low
  }

  const WORK_AREA := "仕事のストレス要因"
  const PHYSICAL_AREA := "心身のストレス反応"
  const SUPPORT_AREA := "周囲のサポート不足"

  /** The position of an area in the fixed A, B, C order. */
  function AreaRank(area: string): int {
    if area == WORK_AREA then 0 else if area == PHYSICAL_AREA then 1 else if area == SUPPORT_AREA then 2 else 3
  }

  /** getPriorityAreas: the areas whose scores reach 45, 70 and 25, in A, B, C order. */
  function PriorityAreas(s: StressScores): (areas: seq<string>)
    ensures |areas| <= 3
    ensures WORK_AREA in areas <==> s.scoreA >= 45.0
    ensures PHYSICAL_AREA in areas <==> s.scoreB >= 70.0
    ensures SUPPORT_AREA in areas <==> s.scoreC >= 25.0
    ensures forall a :: a in areas ==> a == WORK_AREA || a == PHYSICAL_AREA || a == SUPPORT_AREA
    ensures forall i, j :: 0 <= i < j < |areas| ==> AreaRank(areas[i]) < AreaRank(areas[j])
  {
    (if s.scoreA >= 45.0 then [WORK_AREA] else [])
      + (if s.scoreB >= 70.0 then [PHYSICAL_AREA] else [])
      + (if s.scoreC >= 25.0 then [SUPPORT_AREA] else [])
  }

  /** analyzeStressLevel */
  function AnalyzeStressLevel(s: StressScores): (a: Analysis)
    ensures a.workStressLevel == High <==> s.scoreA >= 45.0
    ensures a.workStressLevel == Medium <==> 30.0 <= s.scoreA < 45.0
    ensures a.physicalStressLevel == High <==> s.scoreB >= 77.0
    ensures a.physicalStressLevel == Medium <==> 50.0 <= s.scoreB < 77.0
    ensures a.supportLevel == Low <==> s.scoreC >= 25.0
    ensures a.supportLevel == Medium <==> 20.0 <= s.scoreC < 25.0
    ensures a.supportLevel == High <==> s.scoreC < 20.0
    ensures a.overallRisk == HighRisk <==> s.highStress
    ensures a.priorityAreas == PriorityAreas(s)
  {
    Analysis(
      Grade(s.scoreA, 45.0, 30.0),
      Grade(s.scoreB, 77.0, 50.0),
      Invert(Grade(s.scoreC, 25.0, 20.0)),
      if s.highStress then HighRisk else NormalRisk,
      PriorityAreas(s))
  }

  /**
   * The areas agree with the levels for A and C (the same thresholds); for
   * B the area starts at 70, below the 77 of a high level, so a high B is
   * always a priority but a priority B need not be high.
   */
  lemma AreasAgreeWithLevels(s: StressScores)
    ensures WORK_AREA in PriorityAreas(s) <==> AnalyzeStressLevel(s).workStressLevel == High
    ensures SUPPORT_AREA in PriorityAreas(s) <==> AnalyzeStressLevel(s).supportLevel == Low
    ensures AnalyzeStressLevel(s).physicalStressLevel == High ==> PHYSICAL_AREA in PriorityAreas(s)
  {
  }

  lemma PhysicalAreaBelowHigh()
    ensures var s := StressScores(0.0, 70.0, 0.0, 70.0, false);
      PHYSICAL_AREA in PriorityAreas(s) && AnalyzeStressLevel(s).physicalStressLevel == Medium
  {
  }

  /** A larger C never raises the support level. */
  lemma SupportInverted(s: StressScores, t: StressScores)
    requires s.scoreC <= t.scoreC
    ensures Rank(AnalyzeStressLevel(t).supportLevel) <= Rank(AnalyzeStressLevel(s).supportLevel)
  {
    GradeMonotone(s.scoreC, t.scoreC, 25.0, 20.0);
  }

  // ---------------------------------------------------------------- scales

  /** An entry of the subscaleScores record, in Object.entries order. */
  datatype ScaleInfo = ScaleInfo(raw: real, eval: real, caption: string, reverse: bool)

  datatype Entry = Entry(id: string, info: ScaleInfo)

  /** getPriorityScales' test: a reverse scale rated 2 or less, a normal one 4 or more. */
  predicate NeedsAttention(info: ScaleInfo) {
    if info.reverse then info.eval <= 2.0 else info.eval >= 4.0
  }

  /** `${id} ${label}` */
  function ScaleLine(e: Entry): string {
    e.id + " " + e.info.caption
  }

  /** The priority scales as a list comprehension over the entries. */
  function PriorityScalesOf(entries: seq<Entry>): (r: seq<string>)
    ensures |r| <= |entries|
  {
    if entries == [] then []
    else
      var e := entries[|entries| - 1];
      PriorityScalesOf(entries[..|entries| - 1]) + (if NeedsAttention(e.info) then [ScaleLine(e)] else [])
  }

  /** getPriorityScales: the forEach pushing the line of each entry that needs attention. */
  method GetPriorityScales(entries: seq<Entry>) returns (scales: seq<string>)
    ensures scales == PriorityScalesOf(entries)
  {
    scales := [];
    for k := 0 to |entries|
      invariant scales == PriorityScalesOf(entries[..k])
    {
      assert entries[..k + 1][..k] == entries[..k];
      var e := entries[k];
      if e.info.reverse {
        if e.info.eval <= 2.0 {
          scales := scales + [e.id + " " + e.info.caption];
        }
      } else {
        if e.info.eval >= 4.0 {
          scales := scales + [e.id + " " + e.info.caption];
        }
      }
    }
    assert entries[..|entries|] == entries;
  }

  /** Exactly the lines of the entries needing attention are listed. */
  lemma {:induction false} PriorityScalesMembers(entries: seq<Entry>)
    ensures forall j :: 0 <= j < |entries| && NeedsAttention(entries[j].info) ==> ScaleLine(entries[j]) in PriorityScalesOf(entries)
    ensures forall line :: line in PriorityScalesOf(entries) ==>
      exists j :: 0 <= j < |entries| && NeedsAttention(entries[j].info) && line == ScaleLine(entries[j])
  {
    if entries != [] {
      var init := entries[..|entries| - 1];
      PriorityScalesMembers(init);
      forall line | line in PriorityScalesOf(entries)
        ensures exists j :: 0 <= j < |entries| && NeedsAttention(entries[j].info) && line == ScaleLine(entries[j])
      {
        if line in PriorityScalesOf(init) {
          var j :| 0 <= j < |init| && NeedsAttention(init[j].info) && line == ScaleLine(init[j]);
          assert entries[j] == init[j];
        } else {
          assert line == ScaleLine(entries[|entries| - 1]);
        }
      }
      forall j | 0 <= j < |entries| && NeedsAttention(entries[j].info)
        ensures ScaleLine(entries[j]) in PriorityScalesOf(entries)
      {
        if j < |init| {
          assert entries[j] == init[j];
        }
      }
    }
  }

  /** risk: 6 - eval for a reverse scale, eval otherwise; high is bad either way. */
  function RiskOf(info: ScaleInfo): real {
    if info.reverse then 6.0 - info.eval else info.eval
  }

  /** The focus rule of the prompt and of the retrieval query. */
  predicate Focus(info: ScaleInfo) {
    RiskOf(info) > 3.0
  }

  /**
   * Every scale needing attention is a focus scale, and on whole ratings the
   * two rules coincide; a mean rating such as 3.5 is a focus scale without
   * needing attention.
   */
  lemma FocusAndAttention(info: ScaleInfo)
    ensures NeedsAttention(info) ==> Focus(info)
    ensures info.eval == info.eval.Floor as real ==> (Focus(info) <==> NeedsAttention(info))
  {
    if info.eval == info.eval.Floor as real {
      var k := info.eval.Floor;
      assert info.reverse ==> (6.0 - info.eval > 3.0 <==> k <= 2);
      assert !info.reverse ==> (info.eval > 3.0 <==> k >= 4);
    }
  }

  lemma HalfPointFocus()
    ensures var info := ScaleInfo(0.0, 3.5, "", false);
      Focus(info) && !NeedsAttention(info)
  {
  }

  datatype Focused = Focused(caption: string, risk: real)

  /** map to { label, risk } and filter risk > 3. */
  function FocusItems(entries: seq<Entry>): (r: seq<Focused>)
    ensures |r| <= |entries|
    ensures forall f :: f in r ==> f.risk > 3.0
  {
    if entries == [] then []
    else
      var e := entries[|entries| - 1];
      FocusItems(entries[..|entries| - 1]) + (if Focus(e.info) then [Focused(e.info.caption, RiskOf(e.info))] else [])
  }

  /** The comparator b.risk - a.risk. */
  function RiskKey(f: Focused): Key {
    Key(f.risk, 0.0)
  }

  /** sort by risk descending, then slice(0, 5). */
  function TopFocus(entries: seq<Entry>): seq<Focused> {
    Take(Sort(RiskKey, FocusItems(entries)), 5)
  }

  function Labels(items: seq<Focused>): (r: seq<string>)
    ensures |r| == |items| && forall i :: 0 <= i < |items| ==> r[i] == items[i].caption
  {
    seq(|items|, i requires 0 <= i < |items| => items[i].caption)
  }

  /**
   * The query's scales are at most five focus scales, riskiest first, with
   * no focus scale left out riskier than one kept, and equal risks in
   * record order.
   */
  lemma TopFocusSpec(entries: seq<Entry>)
    ensures |TopFocus(entries)| == if |FocusItems(entries)| < 5 then |FocusItems(entries)| else 5
    ensures SortedDesc(RiskKey, TopFocus(entries))
    ensures forall f :: f in TopFocus(entries) ==> f in FocusItems(entries) && f.risk > 3.0
    ensures forall i, j :: 0 <= i < |TopFocus(entries)| <= j < |Sort(RiskKey, FocusItems(entries))| ==>
      TopFocus(entries)[i].risk >= Sort(RiskKey, FocusItems(entries))[j].risk
    ensures forall k :: KeyClass(RiskKey, Sort(RiskKey, FocusItems(entries)), k) == KeyClass(RiskKey, FocusItems(entries), k)
  {
    var items := FocusItems(entries);
    SortSpec(RiskKey, items);
    var sorted := Sort(RiskKey, items);
    forall f | f in TopFocus(entries) ensures f in items {
      assert f in sorted;
      assert f in multiset(sorted);
    }
    forall i, j | 0 <= i < |TopFocus(entries)| <= j < |sorted|
      ensures TopFocus(entries)[i].risk >= sorted[j].risk
    {
      assert AtLeast(RiskKey(sorted[i]), RiskKey(sorted[j]));
    }
  }

  /** buildRetrieveQuery's target: the department for a cluster, else the individual. */
  function Target(department: Option<string>, isCluster: bool): string {
    if isCluster then "部署:" + department.GetOr("不明") else "個人"
  }

  const QUERY_HEAD := "産業ストレスチェックに関する知見。対象="
  const QUERY_MID := "。注目尺度="
  const QUERY_TAIL := "。根拠付きで解釈・分析する資料箇所を検索。"

  /** buildRetrieveQuery */
  function RetrieveQuery(entries: seq<Entry>, department: Option<string>, isCluster: bool): string {
    QUERY_HEAD + Target(department, isCluster) + QUERY_MID + Join(Labels(TopFocus(entries)), "、") + QUERY_TAIL
  }

  /** The query is framed by its fixed head and tail, and an individual's query names no department. */
  lemma RetrieveQueryFrame(entries: seq<Entry>, department: Option<string>, isCluster: bool)
    ensures var q := RetrieveQuery(entries, department, isCluster);
      StartsWith(q, QUERY_HEAD + Target(department, isCluster) + QUERY_MID) && EndsWith(q, QUERY_TAIL)
    ensures !isCluster ==> RetrieveQuery(entries, department, isCluster) == RetrieveQuery(entries, None, false)
    ensures isCluster && department.None? ==> Target(department, isCluster) == "部署:不明"
  {
  }

  // ---------------------------------------------------------------- texts

  /** truncate: the string itself when it fits, else slice(0, maxLen - 1) + '…'. */
  function Truncate(s: string, maxLen: int): (r: string)
    ensures |s| <= maxLen ==> r == s
    ensures 1 <= maxLen < |s| ==> |r| == maxLen && r[..maxLen - 1] == s[..maxLen - 1] && r[maxLen - 1] == '…'
  {
    if |s| <= maxLen then s else Slice(s, 0, maxLen - 1) + "…"
  }

  /** Truncating twice to the same positive length is truncating once. */
  lemma TruncateIdempotent(s: string, maxLen: int)
    requires maxLen >= 1
    ensures Truncate(Truncate(s, maxLen), maxLen) == Truncate(s, maxLen)
  {
  }

  /**
   * For maxLen <= 0 a negative slice end counts from the end, so a
   * non-empty string keeps all but 1 - maxLen of its characters and the
   * result is longer than maxLen.
   */
  lemma TruncateNonPositive(s: string, maxLen: int)
    requires maxLen <= 0 && s != []
    ensures var keep := if |s| + maxLen - 1 < 0 then 0 else |s| + maxLen - 1;
      Truncate(s, maxLen) == s[..keep] + "…"
    ensures |Truncate(s, maxLen)| > maxLen
  {
  }

  /** Math.round: the nearest integer, halves upwards. */
  function RoundHalfUp(v: real): int {
    (v + 0.5).Floor
  }

  /** Math.max(1, Math.min(5, Math.round(v))) */
  function LevelIndex(v: real): (k: int)
    ensures 1 <= k <= 5
  {
    var r := RoundHalfUp(v);
    if r > 5 then 5 else if r < 1 then 1 else r
  }

  const LEVEL_LABELS: seq<string> := ["低い", "やや低い", "中程度", "やや高い", "高い"]

  /** levelText */
  function LevelText(v: real): (r: string)
    ensures r != []
  {
    match LevelIndex(v)
    case 1 => "低い"
    case 2 => "やや低い"
    case 3 => "中程度"
    case 4 => "やや高い"
    case 5 => "高い"
  }

  /**
   * The label is the one of the clamped rounded rating, and a higher rating
   * never gets a lower label.
   */
  lemma LevelTextSpec(v: real, w: real)
    ensures LevelText(v) == LEVEL_LABELS[LevelIndex(v) - 1]
    ensures v <= w ==> LevelIndex(v) <= LevelIndex(w)
  {
    if v <= w {
      assert (v + 0.5).Floor <= (w + 0.5).Floor;
    }
  }

  /** A whole rating 1..5 names itself. */
  lemma LevelOfWholeRating(k: int)
    requires 1 <= k <= 5
    ensures LevelIndex(k as real) == k
    ensures LevelText(k as real) == LEVEL_LABELS[k - 1]
  {
    assert (k as real + 0.5).Floor == k;
  }

  /** `- ${label}: ${levelText(eval)}` for each focus entry, in record order. */
  function FocusLineList(entries: seq<Entry>): seq<string> {
    if entries == [] then []
    else
      var e := entries[|entries| - 1];
      FocusLineList(entries[..|entries| - 1]) + (if Focus(e.info) then ["- " + e.info.caption + ": " + LevelText(e.info.eval)] else [])
  }

  /** focusLines, joined by newlines. */
  function FocusLines(entries: seq<Entry>): string {
    Join(FocusLineList(entries), "\n")
  }

  /** One line per focus scale, the same scales the query ranks, each with a non-empty level. */
  lemma {:induction false} FocusLinesMatchQuery(entries: seq<Entry>)
    ensures |FocusLineList(entries)| == |FocusItems(entries)|
    ensures forall i :: 0 <= i < |FocusItems(entries)| ==>
      StartsWith(FocusLineList(entries)[i], "- " + FocusItems(entries)[i].caption + ": ")
      && |FocusLineList(entries)[i]| > |"- " + FocusItems(entries)[i].caption + ": "|
  {
    if entries != [] {
      FocusLinesMatchQuery(entries[..|entries| - 1]);
    }
  }

  // ---------------------------------------------------------------- language and extra prompt

  datatype Lang = Ja | En | ZhCn | ZhTw | Ko

  /** (language || 'ja').toLowerCase(), then the branch tests; anything else is Japanese. */
  function LangOf(language: Option<string>): Lang {
    var lang := LowerAscii(if language.None? || language.value == "" then "ja" else language.value);
    if lang == "en" then En
    else if lang == "zh-cn" || lang == "zh" || lang == "zh_hans" then ZhCn
    else if lang == "zh-tw" || lang == "zh_hant" then ZhTw
    else if lang == "ko" || lang == "kr" || lang == "ko-kr" then Ko
    else Ja
  }

  const KNOWN_TAGS: set<string> := {"en", "zh-cn", "zh", "zh_hans", "zh-tw", "zh_hant", "ko", "kr", "ko-kr"}

  /** An absent or empty language is Japanese, as is any tag whose lower case is not a known one. */
  lemma LanguageFallback(language: Option<string>)
    ensures language.None? || language.value == "" ==> LangOf(language) == Ja
    ensures language.Some? && language.value != "" && LowerAscii(language.value) !in KNOWN_TAGS ==> LangOf(language) == Ja
  {
    if language.None? || language.value == "" {
      assert LowerAscii("ja") == "ja";
    }
  }

  /** The tags are matched case-insensitively. */
  lemma LanguageCaseInsensitive(language: string)
    requires language != ""
    ensures LangOf(Some(language)) == LangOf(Some(LowerAscii(language)))
  {
    LowerAsciiIdempotent(language);
  }

  /** genderText: the word for 'male', for 'female', or for an unknown gender, in the chosen language. */
  function GenderText(lang: Lang, gender: Option<string>): string {
    var words := match lang
      case En => ["Male", "Female", "Unknown"]
      case ZhCn => ["男性", "女性", "未知"]
      case ZhTw => ["男性", "女性", "未知"]
      case Ko => ["남성", "여성", "알 수 없음"]
      case Ja => ["男性", "女性", "不明"];
    if gender == Some("male") then words[0] else if gender == Some("female") then words[1] else words[2]
  }

  /** In every language the three cases read differently, and any other tag reads as unknown. */
  lemma GenderTextDistinct(lang: Lang, gender: Option<string>)
    ensures GenderText(lang, Some("male")) != GenderText(lang, Some("female"))
    ensures GenderText(lang, Some("male")) != GenderText(lang, None)
    ensures GenderText(lang, Some("female")) != GenderText(lang, None)
    ensures gender != Some("male") && gender != Some("female") ==> GenderText(lang, gender) == GenderText(lang, None)
  {
  }

  /** clusterMode: the isCluster flag, or a user name containing クラスタ. */
  predicate ClusterMode(isCluster: bool, userName: Option<string>) {
    isCluster || Includes(userName.GetOr(""), "クラスタ")
  }

  /**
   * The flag alone selects the cluster texts; without it, no name does not,
   * and the name the cluster comment passes, クラスタ平均, does.
   */
  lemma ClusterModeSpec(userName: Option<string>)
    ensures ClusterMode(true, userName)
    ensures !ClusterMode(false, None)
    ensures ClusterMode(false, Some("クラスタ平均"))
  {
    assert "クラスタ平均"[..|"クラスタ"|] == "クラスタ";
    assert !OccursAt("", "クラスタ", 0);
  }

  const EXTRA_MARKER := "\n\n【追加指示】\n"

  /** The final prompt: a non-blank extraPrompt is trimmed and appended after the marker. */
  function FinalPrompt(prompt: string, extraPrompt: Option<string>): string {
    if extraPrompt.Some? && Trim(extraPrompt.value) != [] then prompt + EXTRA_MARKER + Trim(extraPrompt.value) else prompt
  }

  /**
   * The generated prompt is always kept as the prefix, followed by nothing
   * or by the marker and the trimmed instruction.
   */
  lemma FinalPromptPrefix(prompt: string, extraPrompt: Option<string>)
    ensures |FinalPrompt(prompt, extraPrompt)| >= |prompt| && FinalPrompt(prompt, extraPrompt)[..|prompt|] == prompt
    ensures FinalPrompt(prompt, extraPrompt)[|prompt|..] == [] || FinalPrompt(prompt, extraPrompt)[|prompt|..] == EXTRA_MARKER + Trim(extraPrompt.value)
  {
    if extraPrompt.Some? && Trim(extraPrompt.value) != [] {
      var t := Trim(extraPrompt.value);
      assert (prompt + EXTRA_MARKER + t)[..|prompt|] == prompt;
      assert (prompt + EXTRA_MARKER + t)[|prompt|..] == EXTRA_MARKER + t;
    }
  }

  /** Nothing is appended exactly when the instruction is absent or all white space. */
  lemma FinalPromptBlank(prompt: string, extraPrompt: Option<string>)
    ensures FinalPrompt(prompt, extraPrompt) == prompt <==>
      extraPrompt.None? || forall i :: 0 <= i < |extraPrompt.value| ==> IsWhitespace(extraPrompt.value[i])
  {
    if extraPrompt.Some? {
      TrimAllWhitespace(extraPrompt.value);
      if Trim(extraPrompt.value) != [] {
        assert |FinalPrompt(prompt, extraPrompt)| > |prompt|;
      }
    }
  }

  /** Trimming the instruction beforehand changes nothing. */
  lemma FinalPromptPretrimmed(prompt: string, extra: string)
    ensures FinalPrompt(prompt, Some(Trim(extra))) == FinalPrompt(prompt, Some(extra))
  {
    TrimIdempotent(extra);
  }
}

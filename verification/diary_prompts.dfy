/**
 * Prompt and response shaping of `src/prompts/diary-analysis.ts`: the user
 * prompt, the selection of the JSON text in an LLM reply, the checked and
 * truncated analysis, and the message shown to the user.
 *
 * `JSON.parse` is a parameter: it either fails or yields the four fields,
 * each absent or present with its JavaScript truthiness and its `String(...)`
 * rendering.
 */
module DiaryPrompts {
  import opened Wrappers
  import opened Text
  import opened Errors

  /** `AnalysisResult`: the four texts of a structured analysis. */
  datatype AnalysisResult = AnalysisResult(emotion: string, themes: string, patterns: string, positivePoints: string)

  /** The system message of the diary analysis request. */
  const DIARY_ANALYSIS_SYSTEM_PROMPT: string :=
    "あなたはユーザーの日記を分析し、心理的サポートを提供するAIアシスタントです。\n"
    + "\n"
    + "日記の内容を読み、以下の4つの観点から分析を行い、JSON形式で構造化された結果を返してください：\n"
    + "\n"
    + "1. emotion: 現在の感情状態と感情の変化（100文字以内）\n"
    + "2. themes: 主要なテーマや思考パターン（100文字以内）  \n"
    + "3. patterns: 行動パターンや習慣の特徴（100文字以内）\n"
    + "4. positive_points: ポジティブな点・成長の兆し・励ましのメッセージ（150文字以内）\n"
    + "\n"
    + "必ず以下のJSON形式で回答してください：\n"
    + "{\n"
    + "  \"emotion\": \"感情分析の結果\",\n"
    + "  \"themes\": \"主要テーマの分析\",\n"
    + "  \"patterns\": \"パターン分析の結果\", \n"
    + "  \"positive_points\": \"ポジティブな点と励ましのメッセージ\"\n"
    + "}\n"
    + "\n"
    + "親しみやすく温かみのある文体で、ユーザーに寄り添うような分析を心がけてください。"

  const HISTORY_PREFIX: string := "【過去7日間の傾向】"
  const DIARY_PREFIX: string := "【本日の日記】"

  /**
   * The history block of the prompt, present only for a non-empty summary:
   * the heading on a line of its own, the summary, and a blank line.
   */
  function HistoryBlock(historySummary: Option<string>): (b: string)
    ensures b == "" <==> !TruthyText(historySummary)
    ensures TruthyText(historySummary) ==>
      && |b| == |HISTORY_PREFIX| + 1 + |historySummary.value| + 2
      && OccursAt(b, HISTORY_PREFIX, 0)
      && b[|HISTORY_PREFIX|] == '\n'
      && OccursAt(b, historySummary.value, |HISTORY_PREFIX| + 1)
      && OccursAt(b, "\n\n", |b| - 2)
  {
    if TruthyText(historySummary) then
      PromptSlots(HISTORY_PREFIX, "\n", historySummary.value, "\n\n");
      HISTORY_PREFIX + "\n" + historySummary.value + "\n\n"
    else ""
  }

  /**
   * `generateDiaryAnalysisPrompt`: the optional history block, then the
   * diary block. With a summary, the heading line, the summary and a blank
   * line come first and nothing else precedes the diary block.
   */
  function GenerateDiaryAnalysisPrompt(diaryEntry: string, historySummary: Option<string>): (p: string)
    ensures OccursAt(p, DIARY_PREFIX + "\n" + diaryEntry, |p| - |DIARY_PREFIX + "\n" + diaryEntry|)
    ensures TruthyText(historySummary) <==> OccursAt(p, HISTORY_PREFIX, 0)
    ensures TruthyText(historySummary) ==> OccursAt(p, historySummary.value, |HISTORY_PREFIX| + 1)
    ensures TruthyText(historySummary) ==>
      && |p| == |HISTORY_PREFIX| + |historySummary.value| + |DIARY_PREFIX| + |diaryEntry| + 4
      && p[|HISTORY_PREFIX|] == '\n'
      && OccursAt(p, "\n\n", |HISTORY_PREFIX| + 1 + |historySummary.value|)
    ensures !TruthyText(historySummary) ==> p == DIARY_PREFIX + "\n" + diaryEntry
  {
    var diaryBlock := DIARY_PREFIX + "\n" + diaryEntry;
    if TruthyText(historySummary) then
      var m := HISTORY_PREFIX + "\n" + historySummary.value + "\n\n" + DIARY_PREFIX + "\n" + diaryEntry;
      PromptSlots(HISTORY_PREFIX, "\n", historySummary.value, "\n\n" + diaryBlock);
      assert "\n\n" + diaryBlock == "\n\n" + DIARY_PREFIX + "\n" + diaryEntry;
      assert m[|HISTORY_PREFIX|] == '\n';
      var k := |HISTORY_PREFIX| + 1 + |historySummary.value|;
      assert m[k..k + 2] == "\n\n";
      m
    else
      assert diaryBlock[1] == '本' && HISTORY_PREFIX[1] == '過';
      assert |diaryBlock| >= |HISTORY_PREFIX| ==> diaryBlock[..|HISTORY_PREFIX|][1] == diaryBlock[1];
      assert OccursAt(diaryBlock, diaryBlock, 0);
      diaryBlock
  }

  /** The prompt is the history block followed by the prompt without a history. */
  lemma PromptIsHistoryThenDiary(diaryEntry: string, historySummary: Option<string>)
    ensures GenerateDiaryAnalysisPrompt(diaryEntry, historySummary)
         == HistoryBlock(historySummary) + GenerateDiaryAnalysisPrompt(diaryEntry, None)
  {
    var p := GenerateDiaryAnalysisPrompt(diaryEntry, historySummary);
    var b := HistoryBlock(historySummary);
    var d := GenerateDiaryAnalysisPrompt(diaryEntry, None);
    if TruthyText(historySummary) {
      var h := historySummary.value;
      assert b == HISTORY_PREFIX + "\n" + h + "\n\n" by {
        assert b[..|HISTORY_PREFIX|] == HISTORY_PREFIX;
        assert b[|HISTORY_PREFIX| + 1..|HISTORY_PREFIX| + 1 + |h|] == h;
        assert b[|b| - 2..] == "\n\n";
        assert b == b[..|HISTORY_PREFIX|] + [b[|HISTORY_PREFIX|]] + b[|HISTORY_PREFIX| + 1..|HISTORY_PREFIX| + 1 + |h|] + b[|b| - 2..];
      }
    } else {
      assert b == "";
    }
  }

  /** Where the pieces of a four-part concatenation sit. */
  lemma PromptSlots(p0: string, p1: string, p2: string, p3: string)
    ensures var m := p0 + p1 + p2 + p3;
      && OccursAt(m, p0, 0) && OccursAt(m, p2, |p0| + |p1|) && OccursAt(m, p3, |m| - |p3|)
  {
    var m := p0 + p1 + p2 + p3;
    assert m[..|p0|] == p0;
    assert m[|p0| + |p1|..|p0| + |p1| + |p2|] == p2;
    assert m[|m| - |p3|..] == p3;
  }

  // ---------------------------------------------------------------------------
  // Selecting the JSON text
  // ---------------------------------------------------------------------------

  const FENCE: string := "```"
  const JSON_FENCE: string := "```json"

  /**
   * The capture group of `/<open>\s*([\s\S]*?)\s*```/`: after the first
   * occurrence of `open`, everything up to the next fence, with surrounding
   * whitespace removed. Absent when either delimiter is missing.
   */
  function FenceCapture(response: string, open: string): (c: Option<string>)
    requires |open| > 0
    ensures c.Some? ==> |c.value| + |open| + |FENCE| <= |response| && Trim(c.value) == c.value
    ensures c.None? <==>
      || IndexOfFrom(response, open, 0).None?
      || IndexOfFrom(response[IndexOfFrom(response, open, 0).value + |open|..], FENCE, 0).None?
    ensures c.Some? ==>
      var rest := response[IndexOfFrom(response, open, 0).value + |open|..];
      c.value == Trim(rest[..IndexOfFrom(rest, FENCE, 0).value])
  {
    match IndexOfFrom(response, open, 0)
    case None => None
    case Some(i) =>
      var rest := response[i + |open|..];
      match IndexOfFrom(rest, FENCE, 0)
      case None => None
      case Some(q) =>
        TrimIdempotent(rest[..q]);
        Some(Trim(rest[..q]))
  }

  /** The first ```` ```json ```` capture, else the first ```` ``` ```` capture. */
  function SelectedCapture(response: string): (c: Option<string>)
    ensures c.Some? ==> |c.value| <= |response| && Trim(c.value) == c.value
  {
    match FenceCapture(response, JSON_FENCE)
    case Some(c) => Some(c)
    case None => FenceCapture(response, FENCE)
  }

  /**
   * The text handed to `JSON.parse`: the selected capture, or the whole
   * response when there is none or it is empty; always trimmed.
   */
  function ExtractJsonCandidate(response: string): (j: string)
    ensures |j| <= |response|
    ensures Trim(j) == j
    ensures SelectedCapture(response).Some? && SelectedCapture(response).value != "" ==>
      j == SelectedCapture(response).value
    ensures SelectedCapture(response).None? || SelectedCapture(response).value == "" ==>
      j == Trim(response)
  {
    var cap := SelectedCapture(response);
    var jsonString := if cap.Some? && cap.value != "" then cap.value else response;
    TrimIdempotent(jsonString);
    Trim(jsonString)
  }

  /** A reply with no backquote at all is parsed whole. */
  lemma NoFenceUsesWholeResponse(response: string)
    requires '`' !in response
    ensures ExtractJsonCandidate(response) == Trim(response)
  {
    NoOccurrenceFrom(response, JSON_FENCE, 0);
    NoOccurrenceFrom(response, FENCE, 0);
  }

  /**
   * A JSON block fenced as ```` ```json ```` is recovered from the reply, trimmed,
   * whatever surrounds it, provided no backquote precedes the closing fence.
   */
  lemma {:induction false} JsonFenceRoundTrip(before: string, body: string, after: string)
    requires '`' !in before && '`' !in body
    requires Trim(body) != ""
    ensures ExtractJsonCandidate(before + JSON_FENCE + body + FENCE + after) == Trim(body)
  {
    var response := before + JSON_FENCE + body + FENCE + after;
    JsonFenceCaptured(before, body, after);
    TrimIdempotent(body);
    assert SelectedCapture(response) == Some(Trim(body));
  }

  /** The capture of a ```` ```json ```` block preceded and filled by backquote-free text is the trimmed body. */
  lemma JsonFenceCaptured(before: string, body: string, after: string)
    requires '`' !in before && '`' !in body
    ensures FenceCapture(before + JSON_FENCE + body + FENCE + after, JSON_FENCE) == Some(Trim(body))
  {
    var response := before + JSON_FENCE + body + FENCE + after;
    OpeningFenceFirst(before, body, after);
    assert response[|before| + |JSON_FENCE|..] == body + FENCE + after;
    ClosingFenceFirst(body, after);
    assert (body + FENCE + after)[..|body|] == body;
  }

  lemma OpeningFenceFirst(before: string, body: string, after: string)
    requires '`' !in before
    ensures IndexOfFrom(before + JSON_FENCE + body + FENCE + after, JSON_FENCE, 0) == Some(|before|)
  {
    var response := before + JSON_FENCE + body + FENCE + after;
    var i := |before|;
    assert response[i..i + |JSON_FENCE|] == JSON_FENCE;
    forall k | 0 <= k < i
      ensures response[k] != JSON_FENCE[0]
    {
      assert response[k] == before[k];
    }
    FirstOccurrence(response, JSON_FENCE, 0, i);
  }

  lemma ClosingFenceFirst(body: string, after: string)
    requires '`' !in body
    ensures IndexOfFrom(body + FENCE + after, FENCE, 0) == Some(|body|)
  {
    var rest := body + FENCE + after;
    assert rest[|body|..|body| + |FENCE|] == FENCE;
    forall k | 0 <= k < |body|
      ensures rest[k] != FENCE[0]
    {
      assert rest[k] == body[k];
    }
    FirstOccurrence(rest, FENCE, 0, |body|);
  }

  // ---------------------------------------------------------------------------
  // Checking and truncating the parsed analysis
  // ---------------------------------------------------------------------------

  /** A property of the parsed object: its JavaScript truthiness and its `String(...)` rendering. */
  datatype JsField = JsField(truthy: bool, text: string)

  /** What `JSON.parse` yields, read through the four property accesses. */
  datatype ParsedAnalysis = ParsedAnalysis(
    emotion: Option<JsField>,
    themes: Option<JsField>,
    patterns: Option<JsField>,
    positivePoints: Option<JsField>)

  const PROCESS_ERROR_FALLBACK: string := "分析処理中にエラーが発生しました"

  /** The fixed analysis returned when the reply cannot be used. */
  const ANALYSIS_FALLBACK: AnalysisResult := AnalysisResult(
    PROCESS_ERROR_FALLBACK, PROCESS_ERROR_FALLBACK, PROCESS_ERROR_FALLBACK,
    "お疲れさまでした。明日も頑張りましょう！")

  /** A required field is present and truthy. */
  predicate Present(f: Option<JsField>) {
    f.Some? && f.value.truthy
  }

  predicate Complete(p: ParsedAnalysis) {
    Present(p.emotion) && Present(p.themes) && Present(p.patterns) && Present(p.positivePoints)
  }

  /** `s` is `t` cut to its first `n` characters: `t` itself when it is no longer. */
  predicate CutFrom(s: string, t: string, n: nat) {
    |s| <= n && |s| <= |t| && s == t[..|s|] && (|t| <= n ==> s == t) && (|t| > n ==> |s| == n)
  }

  /**
   * `parseAnalysisResult`: never fails; a reply that does not parse, or lacks
   * a truthy field, gives the fixed fallback; otherwise the fields are cut to
   * 100, 100, 100 and 150 characters.
   */
  function ParseAnalysisResult(response: string, parse: string -> Option<ParsedAnalysis>): (r: AnalysisResult)
    ensures var p := parse(ExtractJsonCandidate(response));
      && (p.None? || !Complete(p.value) ==> r == ANALYSIS_FALLBACK)
      && (p.Some? && Complete(p.value) ==>
          && CutFrom(r.emotion, p.value.emotion.value.text, 100)
          && CutFrom(r.themes, p.value.themes.value.text, 100)
          && CutFrom(r.patterns, p.value.patterns.value.text, 100)
          && CutFrom(r.positivePoints, p.value.positivePoints.value.text, 150))
  {
    match parse(ExtractJsonCandidate(response))
    case None => ANALYSIS_FALLBACK
    case Some(parsed) =>
      if !Complete(parsed) then ANALYSIS_FALLBACK
      else AnalysisResult(
        Truncate(parsed.emotion.value.text, 100),
        Truncate(parsed.themes.value.text, 100),
        Truncate(parsed.patterns.value.text, 100),
        Truncate(parsed.positivePoints.value.text, 150))
  }

  /** Every field of a parsed analysis fits the limits the prompt asks for. */
  predicate WithinLimits(a: AnalysisResult) {
    |a.emotion| <= 100 && |a.themes| <= 100 && |a.patterns| <= 100 && |a.positivePoints| <= 150
  }

  lemma ParsedWithinLimits(response: string, parse: string -> Option<ParsedAnalysis>)
    ensures WithinLimits(ParseAnalysisResult(response, parse))
  {
  }

  /** Parsing a reply whose fields already fit the limits reproduces them exactly. */
  lemma ParseKeepsShortFields(response: string, parse: string -> Option<ParsedAnalysis>, a: AnalysisResult)
    requires WithinLimits(a)
    requires parse(ExtractJsonCandidate(response)) == Some(ParsedAnalysis(
      Some(JsField(true, a.emotion)), Some(JsField(true, a.themes)),
      Some(JsField(true, a.patterns)), Some(JsField(true, a.positivePoints))))
    ensures ParseAnalysisResult(response, parse) == a
  {
  }

  // ---------------------------------------------------------------------------
  // The message shown to the user
  // ---------------------------------------------------------------------------

  const FORMAT_HEAD: string := "📝 日記分析結果\n\n🎭 **感情分析**\n"
  const FORMAT_THEMES: string := "\n\n🎯 **主なテーマ**\n"
  const FORMAT_PATTERNS: string := "\n\n🔄 **行動パターン**\n"
  const FORMAT_POSITIVE: string := "\n\n✨ **ポジティブポイント**\n"
  const FORMAT_CLOSING: string := "\n\n今日もお疲れさまでした！明日も素敵な一日にしましょう 🌟"

  /** `formatAnalysisForUser`: the four fields, in order, inside the fixed template. */
  function FormatAnalysisForUser(a: AnalysisResult): (m: string)
    ensures OccursAt(m, FORMAT_HEAD, 0)
    ensures OccursAt(m, a.emotion, |FORMAT_HEAD|)
    ensures OccursAt(m, a.themes, |FORMAT_HEAD| + |a.emotion| + |FORMAT_THEMES|)
    ensures OccursAt(m, a.patterns,
      |FORMAT_HEAD| + |a.emotion| + |FORMAT_THEMES| + |a.themes| + |FORMAT_PATTERNS|)
    ensures OccursAt(m, a.positivePoints,
      |FORMAT_HEAD| + |a.emotion| + |FORMAT_THEMES| + |a.themes| + |FORMAT_PATTERNS| + |a.patterns|
      + |FORMAT_POSITIVE|)
    ensures OccursAt(m, FORMAT_CLOSING, |m| - |FORMAT_CLOSING|)
    ensures OccursAt(m, FORMAT_THEMES, |FORMAT_HEAD| + |a.emotion|)
    ensures OccursAt(m, FORMAT_PATTERNS, |FORMAT_HEAD| + |a.emotion| + |FORMAT_THEMES| + |a.themes|)
    ensures OccursAt(m, FORMAT_POSITIVE,
      |FORMAT_HEAD| + |a.emotion| + |FORMAT_THEMES| + |a.themes| + |FORMAT_PATTERNS| + |a.patterns|)
    ensures |m| == |FORMAT_HEAD| + |a.emotion| + |FORMAT_THEMES| + |a.themes| + |FORMAT_PATTERNS|
      + |a.patterns| + |FORMAT_POSITIVE| + |a.positivePoints| + |FORMAT_CLOSING|
  {
    TemplateSlots(FORMAT_HEAD, a.emotion, FORMAT_THEMES, a.themes, FORMAT_PATTERNS, a.patterns,
      FORMAT_POSITIVE, a.positivePoints, FORMAT_CLOSING);
    FORMAT_HEAD + a.emotion + FORMAT_THEMES + a.themes + FORMAT_PATTERNS + a.patterns
      + FORMAT_POSITIVE + a.positivePoints + FORMAT_CLOSING
  }

  /** Where each piece of a nine-part concatenation sits. */
  lemma TemplateSlots(p0: string, p1: string, p2: string, p3: string, p4: string, p5: string,
                      p6: string, p7: string, p8: string)
    ensures var m := p0 + p1 + p2 + p3 + p4 + p5 + p6 + p7 + p8;
      && OccursAt(m, p0, 0)
      && OccursAt(m, p1, |p0|)
      && OccursAt(m, p2, |p0| + |p1|)
      && OccursAt(m, p3, |p0| + |p1| + |p2|)
      && OccursAt(m, p4, |p0| + |p1| + |p2| + |p3|)
      && OccursAt(m, p5, |p0| + |p1| + |p2| + |p3| + |p4|)
      && OccursAt(m, p6, |p0| + |p1| + |p2| + |p3| + |p4| + |p5|)
      && OccursAt(m, p7, |p0| + |p1| + |p2| + |p3| + |p4| + |p5| + |p6|)
      && OccursAt(m, p8, |m| - |p8|)
  {
    var m := p0 + p1 + p2 + p3 + p4 + p5 + p6 + p7 + p8;
    var o1 := |p0|;
    var o3 := o1 + |p1| + |p2|;
    var o5 := o3 + |p3| + |p4|;
    var o7 := o5 + |p5| + |p6|;
    assert m[..o1] == p0;
    assert m[o1..o1 + |p1|] == p1;
    assert m[o1 + |p1|..o3] == p2;
    assert m[o3..o3 + |p3|] == p3;
    assert m[o3 + |p3|..o5] == p4;
    assert m[o5..o5 + |p5|] == p5;
    assert m[o5 + |p5|..o7] == p6;
    assert m[o7..o7 + |p7|] == p7;
    assert m[|m| - |p8|..] == p8;
  }

  /** The message determines the analysis: different analyses are shown differently. */
  lemma FormatInjective(a: AnalysisResult, b: AnalysisResult)
    requires FormatAnalysisForUser(a) == FormatAnalysisForUser(b)
    requires |a.emotion| == |b.emotion| && |a.themes| == |b.themes| && |a.patterns| == |b.patterns|
    ensures a == b
  {
    var m := FormatAnalysisForUser(a);
    var o1 := |FORMAT_HEAD|;
    var o2 := o1 + |a.emotion| + |FORMAT_THEMES|;
    var o3 := o2 + |a.themes| + |FORMAT_PATTERNS|;
    var o4 := o3 + |a.patterns| + |FORMAT_POSITIVE|;
    assert a.emotion == m[o1..o1 + |a.emotion|] == b.emotion;
    assert a.themes == m[o2..o2 + |a.themes|] == b.themes;
    assert a.patterns == m[o3..o3 + |a.patterns|] == b.patterns;
    assert |a.positivePoints| == |b.positivePoints|;
    assert a.positivePoints == m[o4..o4 + |a.positivePoints|] == b.positivePoints;
  }
}

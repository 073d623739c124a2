/**
 * The keyword-based analyser of `src/services/light-analysis.ts`: emotion by
 * counting positive against negative keywords, themes by keyword families,
 * patterns from length, line count and punctuation, a template chosen by
 * length, and a point-score confidence.
 *
 * Lengths are counted in characters (Unicode scalar values); lower-casing is
 * ASCII-only. The elapsed time and its one-decimal rendering are parameters.
 */
module LightAnalysis {
  import opened Text
  import DiaryPrompts

  // ---------------------------------------------------------------------------
  // Keyword lists
  // ---------------------------------------------------------------------------

  const POSITIVE_KEYWORDS: seq<string> := [
    "うれしい", "たのしい", "よかった", "すてき", "がんばった", "できた",
    "よい", "いい", "よろこび", "しあわせ", "まんぞく", "らく", "やすらか",
    "嬉しい", "楽しい", "良かった", "素敵", "頑張った", "良い", "喜び",
    "幸せ", "満足", "楽", "安らか", "ありがと", "感謝", "おいしい", "美味しい",
    "すばらしい", "素晴らしい", "かんどう", "感動", "げんき", "元気"]

  /** Listed as in the service, with "つらい" and "むかつく" appearing twice each. */
  const NEGATIVE_KEYWORDS: seq<string> := [
    "つらい", "かなしい", "いやだ", "つかれた", "しんどい", "むかつく",
    "いらいら", "ふあん", "しんぱい", "こまった", "だめ", "わるい",
    "辛い", "悲しい", "嫌だ", "疲れた", "むかつく", "イライラ", "不安",
    "心配", "困った", "駄目", "ダメ", "悪い", "ストレス", "きつい", "つらい"]

  const WORK_KEYWORDS: seq<string> := ["しごと", "仕事", "会社", "かいしゃ", "しょくば", "職場", "プロジェクト", "残業"]
  const RELATIONSHIP_KEYWORDS: seq<string> := ["友達", "ともだち", "かぞく", "家族", "恋人", "彼氏", "彼女", "夫", "妻", "子供"]
  const HEALTH_KEYWORDS: seq<string> := ["健康", "けんこう", "体調", "たいちょう", "病気", "びょうき", "医者", "いしゃ"]
  const STUDY_KEYWORDS: seq<string> := ["勉強", "べんきょう", "学校", "がっこう", "テスト", "試験", "しけん"]
  const HOBBY_KEYWORDS: seq<string> := ["趣味", "しゅみ", "ゲーム", "読書", "どくしょ", "映画", "えいが", "音楽"]
  const DAILY_KEYWORDS: seq<string> := ["今日", "きょう", "朝", "あさ", "昼", "ひる", "夜", "よる", "買い物", "かいもの"]

  /** A theme family: the name reported and the keywords that select it. */
  datatype Theme = Theme(name: string, keywords: seq<string>)

  /** The families in reporting order. */
  const THEMES: seq<Theme> := [
    Theme("お仕事", WORK_KEYWORDS), Theme("人間関係", RELATIONSHIP_KEYWORDS),
    Theme("健康", HEALTH_KEYWORDS), Theme("学習", STUDY_KEYWORDS),
    Theme("趣味", HOBBY_KEYWORDS), Theme("日常生活", DAILY_KEYWORDS)]

  /** The pool the confidence score counts: emotion keywords, then every theme family. */
  const ALL_KEYWORDS: seq<string> :=
    POSITIVE_KEYWORDS + NEGATIVE_KEYWORDS + WORK_KEYWORDS + RELATIONSHIP_KEYWORDS
    + HEALTH_KEYWORDS + STUDY_KEYWORDS + HOBBY_KEYWORDS + DAILY_KEYWORDS

  // ---------------------------------------------------------------------------
  // Counting keyword hits
  // ---------------------------------------------------------------------------

  /** Positions of the list entries found in the text. */
  function MatchIndices(text: string, keywords: seq<string>): set<nat> {
    set k: nat | k < |keywords| && Contains(text, keywords[k])
  }

  /**
   * Number of list entries contained in the text: each entry counts once
   * however often it occurs, and an entry listed twice counts twice.
   */
  function CountMatches(text: string, keywords: seq<string>): (n: nat)
    ensures n == |MatchIndices(text, keywords)|
    ensures n <= |keywords|
    decreases |keywords|
  {
    if |keywords| == 0 then 0
    else
      var last := |keywords| - 1;
      var init := keywords[..last];
      var n0 := CountMatches(text, init);
      MatchIndicesSnoc(text, keywords);
      n0 + (if Contains(text, keywords[last]) then 1 else 0)
  }

  /** The hits of a list are the hits of all but its last entry, plus that entry when it is found. */
  lemma MatchIndicesSnoc(text: string, keywords: seq<string>)
    requires |keywords| > 0
    ensures var last := |keywords| - 1;
      && last !in MatchIndices(text, keywords[..last])
      && MatchIndices(text, keywords)
         == MatchIndices(text, keywords[..last]) + (if Contains(text, keywords[last]) then {last} else {})
  {
  }

  /** Counting over a concatenated list adds the counts of the parts. */
  lemma {:induction false} CountMatchesAppend(text: string, a: seq<string>, b: seq<string>)
    ensures CountMatches(text, a + b) == CountMatches(text, a) + CountMatches(text, b)
    decreases |b|
  {
    if |b| == 0 {
      assert a + b == a;
    } else {
      var last := |b| - 1;
      assert (a + b)[..|a + b| - 1] == a + b[..last];
      assert (a + b)[|a + b| - 1] == b[last];
      CountMatchesAppend(text, a, b[..last]);
    }
  }

  /** No entry found: count zero; some entry found: count positive. */
  lemma CountZeroIffNoHit(text: string, keywords: seq<string>)
    ensures CountMatches(text, keywords) == 0 <==> forall k :: 0 <= k < |keywords| ==> !Contains(text, keywords[k])
  {
    if CountMatches(text, keywords) == 0 {
      assert MatchIndices(text, keywords) == {};
      forall k | 0 <= k < |keywords|
        ensures !Contains(text, keywords[k])
      {
        assert k !in MatchIndices(text, keywords);
      }
    } else {
      var k :| k in MatchIndices(text, keywords);
    }
  }

  // ---------------------------------------------------------------------------
  // Emotion
  // ---------------------------------------------------------------------------

  const MOOD_POSITIVE: string := "今日はポジティブな気持ちが感じられますね。良い一日だったようです。"
  const MOOD_NEGATIVE: string := "ちょっと大変な一日だったようですが、それでも頑張っているあなたは素晴らしいです。"
  const MOOD_CALM: string := "落ち着いた気持ちで過ごされたようですね。穏やかな一日でした。"

  function PositiveScore(text: string): nat { CountMatches(text, POSITIVE_KEYWORDS) }
  function NegativeScore(text: string): nat { CountMatches(text, NEGATIVE_KEYWORDS) }

  /** `analyzeEmotion`: positive exactly when positive hits outnumber negative ones, negative in the converse case, calm on a tie. */
  function AnalyzeEmotion(text: string): (r: string)
    ensures r == MOOD_POSITIVE <==> PositiveScore(text) > NegativeScore(text)
    ensures r == MOOD_NEGATIVE <==> NegativeScore(text) > PositiveScore(text)
    ensures r == MOOD_CALM <==> PositiveScore(text) == NegativeScore(text)
  {
    assert |MOOD_POSITIVE| != |MOOD_NEGATIVE| && |MOOD_POSITIVE| != |MOOD_CALM| && |MOOD_NEGATIVE| != |MOOD_CALM|;
    var positiveScore := PositiveScore(text);
    var negativeScore := NegativeScore(text);
    if positiveScore > negativeScore then MOOD_POSITIVE
    else if negativeScore > positiveScore then MOOD_NEGATIVE
    else MOOD_CALM
  }

  /** A text with some positive keyword and no negative one reads positive. */
  lemma OnlyPositiveWordsReadPositive(text: string)
    requires exists k :: 0 <= k < |POSITIVE_KEYWORDS| && Contains(text, POSITIVE_KEYWORDS[k])
    requires forall k :: 0 <= k < |NEGATIVE_KEYWORDS| ==> !Contains(text, NEGATIVE_KEYWORDS[k])
    ensures AnalyzeEmotion(text) == MOOD_POSITIVE
  {
    CountZeroIffNoHit(text, POSITIVE_KEYWORDS);
    CountZeroIffNoHit(text, NEGATIVE_KEYWORDS);
  }

  /** A text with no keyword of either list reads calm. */
  lemma NoKeywordsReadCalm(text: string)
    requires forall k :: 0 <= k < |POSITIVE_KEYWORDS| ==> !Contains(text, POSITIVE_KEYWORDS[k])
    requires forall k :: 0 <= k < |NEGATIVE_KEYWORDS| ==> !Contains(text, NEGATIVE_KEYWORDS[k])
    ensures AnalyzeEmotion(text) == MOOD_CALM
  {
    CountZeroIffNoHit(text, POSITIVE_KEYWORDS);
    CountZeroIffNoHit(text, NEGATIVE_KEYWORDS);
  }

  /** "むかつく" is listed twice, so a text containing it scores at least two negative hits. */
  lemma DuplicateKeywordCountsTwice(text: string)
    requires Contains(text, "むかつく")
    ensures NegativeScore(text) >= 2
  {
    assert NEGATIVE_KEYWORDS[5] == "むかつく" && NEGATIVE_KEYWORDS[16] == "むかつく";
    assert {5, 16} <= MatchIndices(text, NEGATIVE_KEYWORDS);
    assert |{5, 16}| == 2;
    SubsetCard({5, 16}, MatchIndices(text, NEGATIVE_KEYWORDS));
  }

  lemma SubsetCard(a: set<nat>, b: set<nat>)
    requires a <= b
    ensures |a| <= |b|
  {
    assert b == a + (b - a);
  }

  // ---------------------------------------------------------------------------
  // Themes
  // ---------------------------------------------------------------------------

  const NO_THEMES: string := "日常の出来事について思いを巡らせていますね。"
  const THEMES_LEAD: string := "主に"
  const THEMES_TAIL: string := "について考えていらっしゃいますね。"

  /** The separator between listed themes or patterns. */
  const LIST_SEP: char := '、'

  /**
   * A list sentence, labels joined by `、` between a lead and a tail, holds
   * each label and gives the labels back when its middle is split.
   */
  lemma ListSentenceReadBack(lead: string, parts: seq<string>, tail: string)
    requires |parts| >= 1
    requires forall k :: 0 <= k < |parts| ==> LIST_SEP !in parts[k]
    ensures var r := lead + JoinWith(parts, [LIST_SEP]) + tail;
      && |lead| + |tail| <= |r|
      && r[..|lead|] == lead
      && r[|r| - |tail|..] == tail
      && Split(r[|lead|..|r| - |tail|], LIST_SEP) == parts
      && forall i :: 0 <= i < |parts| ==> Contains(r, parts[i])
  {
    var joined := JoinWith(parts, [LIST_SEP]);
    var r := lead + joined + tail;
    forall i | 0 <= i < |parts|
      ensures Contains(r, parts[i])
    {
      JoinedPartInContext(lead, parts, [LIST_SEP], tail, i);
    }
    JoinSplit(parts, LIST_SEP);
    assert r[|lead|..|r| - |tail|] == joined;
  }

  lemma ThemeNamesUnseparated()
    ensures forall k :: 0 <= k < |THEMES| ==> LIST_SEP !in THEMES[k].name
  {
    assert LIST_SEP !in THEMES[0].name && LIST_SEP !in THEMES[1].name && LIST_SEP !in THEMES[2].name;
    assert LIST_SEP !in THEMES[3].name && LIST_SEP !in THEMES[4].name && LIST_SEP !in THEMES[5].name;
  }

  /** Indices of the families, from `from` on, with a keyword in the text: exactly those, in increasing order. */
  function ThemeHits(text: string, themes: seq<Theme>, from: nat): (r: seq<nat>)
    requires from <= |themes|
    decreases |themes| - from
    ensures forall i :: 0 <= i < |r| ==> from <= r[i] < |themes|
    ensures forall a, b :: 0 <= a < b < |r| ==> r[a] < r[b]
    ensures forall k :: k in r <==> from <= k < |themes| && ContainsAny(text, themes[k].keywords)
  {
    if from == |themes| then []
    else
      var rest := ThemeHits(text, themes, from + 1);
      if ContainsAny(text, themes[from].keywords) then
        var r := [from] + rest;
        assert forall i :: 0 < i < |r| ==> r[i] == rest[i - 1];
        r
      else rest
  }

  /** Labels of the families found in the text, in the fixed reporting order. */
  function DetectedThemes(text: string): (labels: seq<string>)
    ensures var hits := ThemeHits(text, THEMES, 0);
      |labels| == |hits| && forall i :: 0 <= i < |hits| ==> labels[i] == THEMES[hits[i]].name
  {
    var hits := ThemeHits(text, THEMES, 0);
    seq(|hits|, i requires 0 <= i < |hits| => THEMES[hits[i]].name)
  }

  /**
   * `analyzeThemes`: the fixed sentence when no family is found; otherwise
   * the found labels, in order and separated by `、`, between a fixed lead
   * and tail, so that splitting the middle gives exactly the found labels.
   */
  function AnalyzeThemes(text: string): (r: string)
    ensures r != ""
    ensures |DetectedThemes(text)| == 0 ==> r == NO_THEMES
    ensures forall i :: 0 <= i < |DetectedThemes(text)| ==> Contains(r, DetectedThemes(text)[i])
    ensures |DetectedThemes(text)| > 0 ==>
      && |THEMES_LEAD| + |THEMES_TAIL| <= |r|
      && r[..|THEMES_LEAD|] == THEMES_LEAD
      && r[|r| - |THEMES_TAIL|..] == THEMES_TAIL
      && Split(r[|THEMES_LEAD|..|r| - |THEMES_TAIL|], LIST_SEP) == DetectedThemes(text)
  {
    var detected := DetectedThemes(text);
    if |detected| == 0 then NO_THEMES
    else
      ThemeNamesUnseparated();
      ListSentenceReadBack(THEMES_LEAD, detected, THEMES_TAIL);
      THEMES_LEAD + JoinWith(detected, [LIST_SEP]) + THEMES_TAIL
  }

  // ---------------------------------------------------------------------------
  // Patterns
  // ---------------------------------------------------------------------------

  const DETAILED: string := "詳しく書く習慣"
  const CONCISE: string := "簡潔に表現する傾向"
  const STRUCTURED: string := "構造化して考える習慣"
  const QUESTIONING: string := "自問自答する思考パターン"
  const EXPRESSIVE: string := "感情表現豊かな表現力"
  const NO_PATTERNS: string := "自然体で思いを表現されていますね。"

  predicate AsksQuestions(text: string) { Contains(text, "？") || Contains(text, "?") }
  predicate Exclaims(text: string) { Contains(text, "！") || Contains(text, "!") }

  lemma PatternNamesDistinct()
    ensures DETAILED != CONCISE && DETAILED != STRUCTURED && DETAILED != QUESTIONING && DETAILED != EXPRESSIVE
    ensures CONCISE != STRUCTURED && CONCISE != QUESTIONING && CONCISE != EXPRESSIVE
    ensures STRUCTURED != QUESTIONING && STRUCTURED != EXPRESSIVE && QUESTIONING != EXPRESSIVE
  {
    assert DETAILED[0] == '詳' && CONCISE[0] == '簡' && STRUCTURED[0] == '構';
    assert QUESTIONING[0] == '自' && EXPRESSIVE[0] == '感';
  }

  /** The pattern clauses that apply, in the service's order. */
  function DetectedPatterns(text: string, charCount: nat, lineCount: nat): (r: seq<string>)
    ensures DETAILED in r <==> charCount > 300
    ensures CONCISE in r <==> charCount < 50
    ensures STRUCTURED in r <==> lineCount > 5
    ensures QUESTIONING in r <==> AsksQuestions(text)
    ensures EXPRESSIVE in r <==> Exclaims(text)
    ensures forall p :: p in r ==> p in {DETAILED, CONCISE, STRUCTURED, QUESTIONING, EXPRESSIVE}
    ensures |r| <= 4
  {
    PatternNamesDistinct();
    var length := if charCount > 300 then [DETAILED] else if charCount < 50 then [CONCISE] else [];
    var lines := if lineCount > 5 then [STRUCTURED] else [];
    var questions := if AsksQuestions(text) then [QUESTIONING] else [];
    var exclamations := if Exclaims(text) then [EXPRESSIVE] else [];
    InFourParts(length, lines, questions, exclamations);
    length + lines + questions + exclamations
  }

  lemma InFourParts<T>(a: seq<T>, b: seq<T>, c: seq<T>, d: seq<T>)
    ensures forall x :: x in a + b + c + d <==> x in a || x in b || x in c || x in d
  {
  }

  const PATTERNS_TAIL: string := "が見られます。"

  lemma PatternNamesUnseparated()
    ensures LIST_SEP !in DETAILED && LIST_SEP !in CONCISE && LIST_SEP !in STRUCTURED
    ensures LIST_SEP !in QUESTIONING && LIST_SEP !in EXPRESSIVE
  {
  }

  /**
   * `analyzePatterns`: the fixed sentence when no clause applies; otherwise
   * the applying clauses, in order and separated by `、`, before a fixed
   * tail, so that splitting what precedes the tail gives exactly those clauses.
   */
  function AnalyzePatterns(text: string, charCount: nat, lineCount: nat): (r: string)
    ensures r != ""
    ensures |DetectedPatterns(text, charCount, lineCount)| == 0 ==> r == NO_PATTERNS
    ensures forall i :: 0 <= i < |DetectedPatterns(text, charCount, lineCount)| ==>
      Contains(r, DetectedPatterns(text, charCount, lineCount)[i])
    ensures |DetectedPatterns(text, charCount, lineCount)| > 0 ==>
      && |PATTERNS_TAIL| <= |r|
      && r[|r| - |PATTERNS_TAIL|..] == PATTERNS_TAIL
      && Split(r[..|r| - |PATTERNS_TAIL|], LIST_SEP) == DetectedPatterns(text, charCount, lineCount)
  {
    var patterns := DetectedPatterns(text, charCount, lineCount);
    if |patterns| == 0 then NO_PATTERNS
    else
      PatternNamesUnseparated();
      ListSentenceReadBack("", patterns, PATTERNS_TAIL);
      assert "" + JoinWith(patterns, [LIST_SEP]) == JoinWith(patterns, [LIST_SEP]);
      JoinWith(patterns, [LIST_SEP]) + PATTERNS_TAIL
  }

  // ---------------------------------------------------------------------------
  // Positive points
  // ---------------------------------------------------------------------------

  const TEMPLATES: seq<string> := [
    "きちんと日記を書く習慣を続けているのは素晴らしいことです。",
    "自分の気持ちを言葉にできているのは大きな成長ですね。",
    "今日も一日お疲れさまでした。振り返る時間を大切にしていますね。",
    "思いを文字にすることで心が整理されていると思います。",
    "継続は力なり。日記を書く習慣が素敵です。"]

  const BONUS_TEMPLATE: string := "しっかりと詳しく書けているのは内省力の表れですね。"

  /** The templates on offer: the bonus one only for entries longer than 200 characters. */
  function TemplatesFor(charCount: nat): (t: seq<string>)
    ensures |t| == if charCount > 200 then 6 else 5
  {
    if charCount > 200 then TEMPLATES + [BONUS_TEMPLATE] else TEMPLATES
  }

  /** `generatePositivePoints`: the template at `charCount mod k`. */
  function GeneratePositivePoints(charCount: nat): (r: string)
    ensures r in TemplatesFor(charCount)
    ensures r == BONUS_TEMPLATE <==> charCount > 200 && charCount % 6 == 5
    ensures charCount <= 200 ==> r == TEMPLATES[charCount % 5]
    ensures charCount > 200 && charCount % 6 < 5 ==> r == TEMPLATES[charCount % 6]
  {
    assert forall k :: 0 <= k < 5 ==> TEMPLATES[k][0] != BONUS_TEMPLATE[0];
    var templates := TemplatesFor(charCount);
    templates[charCount % |templates|]
  }

  /** The choice cycles: with period 5 up to 200 characters and 6 beyond. */
  lemma PositivePointsPeriodic(charCount: nat)
    ensures charCount + 5 <= 200 ==> GeneratePositivePoints(charCount) == GeneratePositivePoints(charCount + 5)
    ensures charCount > 200 ==> GeneratePositivePoints(charCount) == GeneratePositivePoints(charCount + 6)
  {
  }

  // ---------------------------------------------------------------------------
  // Confidence
  // ---------------------------------------------------------------------------

  datatype Confidence = High | Medium | Low

  function ConfidenceName(c: Confidence): string {
    match c
    case High => "high"
    case Medium => "medium"
    case Low => "low"
  }

  function Flag(b: bool): nat { if b then 1 else 0 }

  /** One point each for more than 100 characters, more than 200, more than 2 hits and more than 5. */
  function ConfidenceScore(charCount: nat, matchCount: nat): (s: nat)
    ensures s <= 4
    ensures s >= 3 ==> charCount > 100 && matchCount > 2
  {
    Flag(charCount > 100) + Flag(charCount > 200) + Flag(matchCount > 2) + Flag(matchCount > 5)
  }

  /** `calculateConfidence`: high from three points, medium at two, low below. */
  function CalculateConfidence(text: string, charCount: nat): (c: Confidence)
    ensures var s := ConfidenceScore(charCount, CountMatches(text, ALL_KEYWORDS));
      && (c == High <==> s >= 3) && (c == Medium <==> s == 2) && (c == Low <==> s <= 1)
  {
    var score := ConfidenceScore(charCount, CountMatches(text, ALL_KEYWORDS));
    if score >= 3 then High else if score >= 2 then Medium else Low
  }

  /** The hit count behind the confidence is the sum over the emotion lists and the theme families. */
  lemma AllKeywordsCount(text: string)
    ensures CountMatches(text, ALL_KEYWORDS)
         == PositiveScore(text) + NegativeScore(text)
          + CountMatches(text, WORK_KEYWORDS) + CountMatches(text, RELATIONSHIP_KEYWORDS)
          + CountMatches(text, HEALTH_KEYWORDS) + CountMatches(text, STUDY_KEYWORDS)
          + CountMatches(text, HOBBY_KEYWORDS) + CountMatches(text, DAILY_KEYWORDS)
  {
    var p := POSITIVE_KEYWORDS;
    var n := NEGATIVE_KEYWORDS;
    CountMatchesAppend(text, p, n);
    CountMatchesAppend(text, p + n, WORK_KEYWORDS);
    CountMatchesAppend(text, p + n + WORK_KEYWORDS, RELATIONSHIP_KEYWORDS);
    CountMatchesAppend(text, p + n + WORK_KEYWORDS + RELATIONSHIP_KEYWORDS, HEALTH_KEYWORDS);
    CountMatchesAppend(text, p + n + WORK_KEYWORDS + RELATIONSHIP_KEYWORDS + HEALTH_KEYWORDS, STUDY_KEYWORDS);
    CountMatchesAppend(text,
      p + n + WORK_KEYWORDS + RELATIONSHIP_KEYWORDS + HEALTH_KEYWORDS + STUDY_KEYWORDS, HOBBY_KEYWORDS);
    CountMatchesAppend(text,
      p + n + WORK_KEYWORDS + RELATIONSHIP_KEYWORDS + HEALTH_KEYWORDS + STUDY_KEYWORDS + HOBBY_KEYWORDS,
      DAILY_KEYWORDS);
  }

  /** Entries of at most 100 characters are never rated high, and long entries with many hits always are. */
  lemma ConfidenceBounds(text: string, charCount: nat)
    ensures charCount <= 100 ==> CalculateConfidence(text, charCount) != High
    ensures charCount > 200 && CountMatches(text, ALL_KEYWORDS) > 5 ==> CalculateConfidence(text, charCount) == High
    ensures charCount <= 100 && CountMatches(text, ALL_KEYWORDS) <= 2 ==> CalculateConfidence(text, charCount) == Low
  {
  }

  // ---------------------------------------------------------------------------
  // The analysis
  // ---------------------------------------------------------------------------

  /** `LightAnalysisResult`. */
  datatype LightResult = LightResult(
    emotion: string,
    themes: string,
    patterns: string,
    positivePoints: string,
    confidence: Confidence,
    processingTimeMs: real)

  /** `createFallbackResult`: fixed low-confidence texts, none of them a mood label. */
  function FallbackResult(processingTimeMs: real): (r: LightResult)
    ensures r.confidence == Low && r.processingTimeMs == processingTimeMs
    ensures r.emotion != "" && r.themes != "" && r.patterns != "" && r.positivePoints != ""
    ensures r.emotion !in {MOOD_POSITIVE, MOOD_NEGATIVE, MOOD_CALM}
  {
    assert |MOOD_POSITIVE| != 9 && |MOOD_NEGATIVE| != 9 && |MOOD_CALM| != 9;
    LightResult(
      "お疲れさまでした。",
      "日常の出来事について考えていらっしゃいますね。",
      "自然体で思いを表現されています。",
      "今日も日記を書く時間を作れたのは素晴らしいことです。",
      Low, processingTimeMs)
  }

  /** Number of lines, `content.split('\n').length`: one more than the number of line breaks. */
  function LineCount(content: string): (n: nat)
    ensures n == CountChar(content, '\n') + 1
  {
    SplitShape(content, '\n');
    |Split(content, '\n')|
  }

  /**
   * `analyze`: blank input gives the fallback; otherwise the lower-cased text
   * is scored and the untrimmed length and line count drive the patterns,
   * the template and the confidence.
   */
  function Analyze(content: string, elapsedMs: real): (r: LightResult)
    ensures r.processingTimeMs == elapsedMs
    ensures IsBlank(content) <==> r == FallbackResult(elapsedMs)
    ensures !IsBlank(content) ==>
      && r.emotion in {MOOD_POSITIVE, MOOD_NEGATIVE, MOOD_CALM}
      && r.positivePoints in TemplatesFor(|content|)
      && (Contains(r.patterns, STRUCTURED) <== CountChar(content, '\n') >= 5)
    ensures !IsBlank(content) ==>
      && r.emotion == AnalyzeEmotion(ToLower(content))
      && r.themes == AnalyzeThemes(ToLower(content))
      && r.patterns == AnalyzePatterns(ToLower(content), |content|, CountChar(content, '\n') + 1)
      && r.positivePoints == GeneratePositivePoints(|content|)
      && r.confidence == CalculateConfidence(ToLower(content), |content|)
  {
    if IsBlank(content) then FallbackResult(elapsedMs)
    else
      var text := ToLower(content);
      var charCount := |content|;
      var lineCount := LineCount(content);
      var emotion := AnalyzeEmotion(text);
      assert emotion != FallbackResult(elapsedMs).emotion;
      LightResult(
        emotion,
        AnalyzeThemes(text),
        AnalyzePatterns(text, charCount, lineCount),
        GeneratePositivePoints(charCount),
        CalculateConfidence(text, charCount),
        elapsedMs)
  }

  /** Every field of a result is non-empty, for blank and non-blank diaries alike. */
  lemma FieldsNonEmpty(content: string, elapsedMs: real)
    ensures var r := Analyze(content, elapsedMs);
      r.emotion != "" && r.themes != "" && r.patterns != "" && r.positivePoints != ""
  {
    if !IsBlank(content) {
      var t := TemplatesFor(|content|);
      assert forall k :: 0 <= k < |t| ==> t[k] != "" by {
        assert TEMPLATES[0] != "" && TEMPLATES[1] != "" && TEMPLATES[2] != "";
        assert TEMPLATES[3] != "" && TEMPLATES[4] != "" && BONUS_TEMPLATE != "";
      }
    }
  }

  const RESULT_TITLE: string := "📝 日記分析結果"
  const EMOTION_SECTION: string := "🎭 **感情分析**"
  const THEMES_SECTION: string := "🎯 **主なテーマ**"
  const PATTERNS_SECTION: string := "🔄 **行動パターン**"
  const POSITIVE_SECTION: string := "✨ **ポジティブポイント**"
  const CLOSING_MESSAGE: string := "今日もお疲れさまでした！明日も素敵な一日にしましょう 🌟"

  /** The last line: the rendered time and the confidence. */
  function Footer(r: LightResult, timing: string): string {
    "💻 軽量分析 (" + timing + "ms, 信頼度: " + ConfidenceName(r.confidence) + ")"
  }

  /** The seventeen lines of the light report. */
  function ReportLines(r: LightResult, timing: string): seq<string> {
    [RESULT_TITLE, "",
     EMOTION_SECTION, r.emotion, "",
     THEMES_SECTION, r.themes, "",
     PATTERNS_SECTION, r.patterns, "",
     POSITIVE_SECTION, r.positivePoints, "",
     CLOSING_MESSAGE, "",
     Footer(r, timing)]
  }

  /**
   * `formatForUser`; `timing` is the elapsed time rendered with one decimal.
   * When no field holds a line break, reading the report back line by line
   * gives its seventeen lines: the fields under their section titles and the
   * footer last.
   */
  function FormatForUser(r: LightResult, timing: string): (m: string)
    ensures SingleLineFields(r, timing) ==> Split(m, '\n') == ReportLines(r, timing)
  {
    if SingleLineFields(r, timing) then
      ReportLinesSingle(r, timing);
      JoinSplit(ReportLines(r, timing), '\n');
      JoinWith(ReportLines(r, timing), "\n")
    else JoinWith(ReportLines(r, timing), "\n")
  }

  /** No line break in the four fields or the rendered time. */
  predicate SingleLineFields(r: LightResult, timing: string) {
    '\n' !in r.emotion && '\n' !in r.themes && '\n' !in r.patterns
    && '\n' !in r.positivePoints && '\n' !in timing
  }

  lemma TitlesSingleLine()
    ensures '\n' !in RESULT_TITLE && '\n' !in EMOTION_SECTION && '\n' !in THEMES_SECTION
  {
  }

  lemma SectionsSingleLine()
    ensures '\n' !in PATTERNS_SECTION && '\n' !in POSITIVE_SECTION && '\n' !in CLOSING_MESSAGE
  {
  }

  lemma FooterSingleLine(r: LightResult, timing: string)
    requires '\n' !in timing
    ensures '\n' !in Footer(r, timing)
  {
    assert '\n' !in ConfidenceName(r.confidence);
    assert '\n' !in "💻 軽量分析 (" && '\n' !in "ms, 信頼度: " && '\n' !in ")";
  }

  /** With single-line fields, no line of the report holds a line break. */
  lemma ReportLinesSingle(r: LightResult, timing: string)
    requires SingleLineFields(r, timing)
    ensures forall k :: 0 <= k < |ReportLines(r, timing)| ==> '\n' !in ReportLines(r, timing)[k]
  {
    TitlesSingleLine();
    SectionsSingleLine();
    FooterSingleLine(r, timing);
  }
}

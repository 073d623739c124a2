/**
 * The tiered diary pipeline (`HybridAnalysisService.processDiaryEntry`).
 *
 * After the entry is stored, three levels are tried in turn: level 1 (the
 * history summary, the light analysis and a model reply), level 2 (the light
 * analysis alone) and level 3 (a fixed message, nothing stored). The elapsed
 * times at each checkpoint, the database faults, the clock and the model are
 * parameters; the stores and the metrics buffer are explicit state.
 */
module HybridAnalysis {
  import opened Wrappers
  import opened Text
  import opened Errors
  import opened Database
  import OpenAIClient
  import LightAnalysis
  import PerformanceMonitor
  import SummaryCache

  // ---------------------------------------------------------------------------
  // Data
  // ---------------------------------------------------------------------------

  /** CPU budgets in milliseconds. */
  const LEVEL_1_MAX: real := 8.0
  const LEVEL_2_MAX: real := 5.0
  const LEVEL_3_MAX: real := 2.0

  /** `HybridAnalysisResult`; the level-3 placeholder analysis `{}` is `None`. */
  datatype HybridResult = HybridResult(
    entry: Entry,
    analysis: Option<StoredAnalysis>,
    userMessage: string,
    level: PerformanceMonitor.AnalysisLevel,
    totalProcessingTimeMs: real,
    aiProcessingTimeMs: Option<real>,
    lightProcessingTimeMs: Option<real>)

  /** The state the pipeline touches: entries, analyses, cached summaries, the metrics buffer. */
  datatype Stores = Stores(
    entries: seq<Entry>,
    analyses: seq<StoredAnalysis>,
    summaries: SummaryCache.Store,
    monitor: PerformanceMonitor.Monitor)

  /**
   * One call's environment. Times are milliseconds since the call started,
   * read at the checkpoints of the code: after the entry is stored, when
   * level 1 starts, after the summary and light analysis, and when each
   * level finishes; `lightMs` and `level2LightMs` are the light analyses'
   * own timings and `level2Timing` their rendering in the level-2 report.
   */
  datatype Conditions = Conditions(
    now: int,
    entryId: nat,
    entryFault: Option<Thrown>,
    entryMs: real,
    level1StartMs: real,
    summary: SummaryCache.Backend,
    lightMs: real,
    level1CheckMs: real,
    apiKey: string,
    complete: (seq<OpenAIClient.Message>, OpenAIClient.ChatOptions) -> Result<OpenAIClient.Completion, JsError>,
    level1StoreFails: bool,
    aiMs: real,
    level1DoneMs: real,
    level2LightMs: real,
    level2Timing: string,
    level2StoreFails: bool,
    level2DoneMs: real,
    level3DoneMs: real,
    failureMs: real)

  /** The result or the error thrown, and the stores afterwards. */
  datatype HybridRun = HybridRun(result: Result<HybridResult, JsError>, stores: Stores)

  /**
   * The services the pipeline is constructed with: the light analyser, its
   * report formatter and the history summary service.
   */
  datatype Collaborators = Collaborators(
    analyze: (string, real) -> LightAnalysis.LightResult,
    format: (LightAnalysis.LightResult, string) -> string,
    summarize: (SummaryCache.Store, string, int, SummaryCache.Backend) -> SummaryCache.SummaryRun)

  /** The services as the constructor wires them. */
  const SERVICES: Collaborators :=
    Collaborators(LightAnalysis.Analyze, LightAnalysis.FormatForUser, SummaryCache.GetOrCreateSummaryAsWritten)

  // ---------------------------------------------------------------------------
  // Storing an analysis
  // ---------------------------------------------------------------------------

  /** The four fields of a light result. */
  function LightFields(light: LightAnalysis.LightResult): AnalysisFields {
    AnalysisFields(light.emotion, light.themes, light.patterns, light.positivePoints)
  }

  const EMOTION_LIMIT: nat := 100
  const ELLIPSIS: string := "..."

  /**
   * `parseAIResult`: the model's text, cut to 100 characters plus "..." when
   * longer, as the emotion, and the light result's other three fields.
   */
  function ParseAIResult(ai: string, light: LightAnalysis.LightResult): (r: AnalysisFields)
    ensures |ai| <= EMOTION_LIMIT ==> r.emotion == ai
    ensures |ai| > EMOTION_LIMIT ==>
              && |r.emotion| == EMOTION_LIMIT + |ELLIPSIS|
              && r.emotion[..EMOTION_LIMIT] == ai[..EMOTION_LIMIT]
              && r.emotion[EMOTION_LIMIT..] == ELLIPSIS
    ensures r.themes == light.themes && r.patterns == light.patterns && r.positivePoints == light.positivePoints
  {
    AnalysisFields(if |ai| > EMOTION_LIMIT then ai[..EMOTION_LIMIT] + ELLIPSIS else ai,
                   light.themes, light.patterns, light.positivePoints)
  }

  /** Two different model texts of at most 100 characters give different stored emotions. */
  lemma ShortRepliesKeptApart(a: string, b: string, light: LightAnalysis.LightResult)
    requires |a| <= EMOTION_LIMIT && |b| <= EMOTION_LIMIT && a != b
    ensures ParseAIResult(a, light).emotion != ParseAIResult(b, light).emotion
  {
  }

  /** The emotion never exceeds 103 characters and always starts the way the reply does. */
  lemma EmotionIsBoundedPrefix(ai: string, light: LightAnalysis.LightResult)
    ensures var e := ParseAIResult(ai, light).emotion;
      var n := if |ai| < EMOTION_LIMIT then |ai| else EMOTION_LIMIT;
      |e| <= EMOTION_LIMIT + |ELLIPSIS| && n <= |e| && e[..n] == ai[..n]
  {
  }

  // ---------------------------------------------------------------------------
  // The model call of level 1
  // ---------------------------------------------------------------------------

  /**
   * The model settings level 1 reads. As the code stands the settings object
   * is imported from a module that does not define it, so it is `undefined`
   * and reading a field throws; `Resolved` is the object the configuration
   * module defines.
   */
  datatype AiConfig = Unresolved | Resolved(maxTokens: int, temperature: real)

  const OPTIMIZED_AI_CONFIG: AiConfig := Resolved(300, 0.3)

  const AI_SYSTEM_PROMPT: string := "あなたは日記分析の専門家です。簡潔で温かい分析を提供してください。"
  const PAST_TREND_HEADING: string := "【過去の傾向】"
  const TODAY_HEADING: string := "【今日の日記】"
  const MISSING_CONFIG_MESSAGE: string := "Cannot read properties of undefined (reading 'MAX_TOKENS')"
  const AI_NO_RESPONSE: string := "No response from OpenAI"
  const AI_EMPTY_RESPONSE: string := "Empty response from OpenAI"

  /** The level-1 messages: the history block only for a non-empty summary. */
  function AiMessages(content: string, history: Option<string>): (r: seq<OpenAIClient.Message>)
    ensures |r| == 2 && r[0] == OpenAIClient.Message(OpenAIClient.System, AI_SYSTEM_PROMPT) && r[1].role == OpenAIClient.User
    ensures TruthyText(history) ==> r[1].content == PAST_TREND_HEADING + history.value + "\n\n" + TODAY_HEADING + content
    ensures !TruthyText(history) ==> r[1].content == TODAY_HEADING + content
  {
    var user := if TruthyText(history) then PAST_TREND_HEADING + history.value + "\n\n" + TODAY_HEADING + content
                else TODAY_HEADING + content;
    [OpenAIClient.Message(OpenAIClient.System, AI_SYSTEM_PROMPT), OpenAIClient.Message(OpenAIClient.User, user)]
  }

  /** The diary text is the tail of the user message, whatever the history. */
  lemma AiMessageEndsWithEntry(content: string, history: Option<string>)
    ensures var user := AiMessages(content, history)[1].content;
      |content| <= |user| && user[|user| - |content|..] == content
  {
    var user := AiMessages(content, history)[1].content;
    if TruthyText(history) {
      assert user == (PAST_TREND_HEADING + history.value + "\n\n" + TODAY_HEADING) + content;
    }
  }

  /**
   * `executeAIAnalysis`: create the client, read the settings, request a
   * completion and return the first choice's content.
   */
  function ExecuteAIAnalysis(content: string, history: Option<string>, apiKey: string, config: AiConfig,
                             complete: (seq<OpenAIClient.Message>, OpenAIClient.ChatOptions) -> Result<OpenAIClient.Completion, JsError>)
    : (r: Result<string, JsError>)
    ensures config.Unresolved? ==> r.Failure?
    ensures r.Success? ==> apiKey != "" && r.value != ""
    ensures r.Success? ==> var reply := complete(AiMessages(content, history), OpenAIClient.ChatOptions(
                             Some(OpenAIClient.DEFAULT_MODEL), Some(config.maxTokens), Some(config.temperature)));
                           reply.Success? && reply.value.choices.Some? && |reply.value.choices.value| > 0
                           && r.value == reply.value.choices.value[0]
    ensures apiKey == "" ==> r == Failure(OpenAIError("OpenAI API key is required", None, None))
    ensures apiKey != "" && config.Resolved? ==>
      var reply := complete(AiMessages(content, history), OpenAIClient.ChatOptions(
                     Some(OpenAIClient.DEFAULT_MODEL), Some(config.maxTokens), Some(config.temperature)));
      && (r.Success? <==> reply.Success? && reply.value.choices.Some? && |reply.value.choices.value| > 0
                          && reply.value.choices.value[0] != "")
      && (reply.Failure? ==> r == Failure(reply.error))
  {
    match OpenAIClient.NewClient(apiKey)
    case Failure(e) => Failure(e)
    case Success(_) =>
      match config
      case Unresolved => Failure(JsError("TypeError", MISSING_CONFIG_MESSAGE, None, None, None))
      case Resolved(maxTokens, temperature) =>
        var options := OpenAIClient.ChatOptions(Some(OpenAIClient.DEFAULT_MODEL), Some(maxTokens), Some(temperature));
        match complete(AiMessages(content, history), options)
        case Failure(e) => Failure(e)
        case Success(completion) =>
          if completion.choices.None? || |completion.choices.value| == 0 then Failure(OpenAIError(AI_NO_RESPONSE, None, None))
          else if completion.choices.value[0] == "" then Failure(OpenAIError(AI_EMPTY_RESPONSE, None, None))
          else Success(completion.choices.value[0])
  }

  // ---------------------------------------------------------------------------
  // The three levels
  // ---------------------------------------------------------------------------

  /** What `tryLevel1Analysis` returned (`None` for `null`) and the stores afterwards. */
  datatype Level1Run = Level1Run(result: Option<HybridResult>, stores: Stores)

  /**
   * `tryLevel1Analysis`: give up past half the level-1 budget; fetch the
   * summary and run the light analysis; give up past 80% of the budget;
   * ask the model and store the merged analysis. Any failure gives `None`.
   */
  function TryLevel1(s: Stores, entry: Entry, userId: string, content: string, c: Conditions, config: AiConfig,
                     deps: Collaborators): (r: Level1Run)
    ensures r.stores.entries == s.entries && r.stores.monitor == s.monitor
    ensures c.level1StartMs > LEVEL_1_MAX * 0.5 ==> r == Level1Run(None, s)
    ensures c.level1CheckMs > LEVEL_1_MAX * 0.8 ==> r.result.None?
    ensures r.result.None? ==> r.stores.analyses == s.analyses
    ensures r.result.Some? ==>
      var light := deps.analyze(content, c.lightMs);
      && r.result.value.level == 1
      && r.result.value.entry == entry
      && ExecuteAIAnalysis(content, deps.summarize(s.summaries, userId, c.now, c.summary).result,
                           c.apiKey, config, c.complete) == Success(r.result.value.userMessage)
      && r.result.value.analysis == Some(StoreAnalysis(entry, userId, ParseAIResult(r.result.value.userMessage, light)))
      && r.stores.analyses == s.analyses + [r.result.value.analysis.value]
  {
    if c.level1StartMs > LEVEL_1_MAX * 0.5 then Level1Run(None, s)
    else
      var summary := deps.summarize(s.summaries, userId, c.now, c.summary);
      var s1 := s.(summaries := summary.store);
      var light := deps.analyze(content, c.lightMs);
      if c.level1CheckMs > LEVEL_1_MAX * 0.8 then Level1Run(None, s1)
      else
        match ExecuteAIAnalysis(content, summary.result, c.apiKey, config, c.complete)
        case Failure(_) => Level1Run(None, s1)
        case Success(ai) =>
          if c.level1StoreFails then Level1Run(None, s1)
          else
            var stored := StoreAnalysis(entry, userId, ParseAIResult(ai, light));
            Level1Run(Some(HybridResult(entry, Some(stored), ai, 1, c.level1DoneMs, Some(c.aiMs), Some(light.processingTimeMs))),
                      s1.(analyses := s1.analyses + [stored]))
  }

  /** As the code stands the settings read fails, so level 1 never yields a result. */
  lemma Level1NeverSucceedsAsWritten(s: Stores, entry: Entry, userId: string, content: string, c: Conditions,
                                     deps: Collaborators)
    ensures TryLevel1(s, entry, userId, content, c, Unresolved, deps).result.None?
  {
  }

  /**
   * With the settings resolved, level 1 succeeds whenever both time checks
   * pass, the model answers and the analysis is stored.
   */
  lemma Level1SucceedsWhenEverythingWorks(s: Stores, entry: Entry, userId: string, content: string, c: Conditions,
                                          deps: Collaborators)
    requires c.level1StartMs <= LEVEL_1_MAX * 0.5 && c.level1CheckMs <= LEVEL_1_MAX * 0.8
    requires !c.level1StoreFails
    requires ExecuteAIAnalysis(content, deps.summarize(s.summaries, userId, c.now, c.summary).result,
                               c.apiKey, OPTIMIZED_AI_CONFIG, c.complete).Success?
    ensures var r := TryLevel1(s, entry, userId, content, c, OPTIMIZED_AI_CONFIG, deps);
      r.result.Some? && r.result.value.level == 1
  {
  }

  /** `executeLevel2LightOnly`: store the light result's four fields; a failed store throws. */
  function ExecuteLevel2(s: Stores, entry: Entry, userId: string, content: string, c: Conditions,
                         deps: Collaborators): (r: Option<(HybridResult, Stores)>)
    ensures r.None? <==> c.level2StoreFails
    ensures r.Some? ==>
      var light := deps.analyze(content, c.level2LightMs);
      var (res, s2) := r.value;
      && res.level == 2 && res.entry == entry
      && res.analysis == Some(StoreAnalysis(entry, userId, LightFields(light)))
      && res.userMessage == deps.format(light, c.level2Timing)
      && s2 == s.(analyses := s.analyses + [res.analysis.value])
  {
    if c.level2StoreFails then None
    else
      var light := deps.analyze(content, c.level2LightMs);
      var stored := StoreAnalysis(entry, userId, LightFields(light));
      Some((HybridResult(entry, Some(stored), deps.format(light, c.level2Timing), 2,
                         c.level2DoneMs, None, Some(light.processingTimeMs)),
            s.(analyses := s.analyses + [stored])))
  }

  /** The fixed level-3 message. */
  const EMERGENCY_LINES: seq<string> := [
    "📝 日記を記録しました",
    "",
    "お疲れさまでした！",
    "今日も日記を書く時間を作ることができて素晴らしいです。",
    "",
    "✨ 継続は力なり。明日も一緒に頑張りましょう！",
    "",
    "🚀 緊急モード (高負荷対応)"]

  const EMERGENCY_MESSAGE: string := JoinWith(EMERGENCY_LINES, "\n")

  lemma EmergencyHeadSingle()
    ensures '\n' !in EMERGENCY_LINES[0] && '\n' !in EMERGENCY_LINES[1]
    ensures '\n' !in EMERGENCY_LINES[2] && '\n' !in EMERGENCY_LINES[3]
  {
  }

  lemma EmergencyTailSingle()
    ensures '\n' !in EMERGENCY_LINES[4] && '\n' !in EMERGENCY_LINES[5]
    ensures '\n' !in EMERGENCY_LINES[6] && '\n' !in EMERGENCY_LINES[7]
  {
  }

  /** No line of the message holds a line break. */
  lemma EmergencyLinesSingle()
    ensures forall k :: 0 <= k < |EMERGENCY_LINES| ==> '\n' !in EMERGENCY_LINES[k]
  {
    EmergencyHeadSingle();
    EmergencyTailSingle();
  }

  /** The message reads back as its eight lines. */
  lemma EmergencyMessageLines()
    ensures Split(EMERGENCY_MESSAGE, '\n') == EMERGENCY_LINES
  {
    EmergencyLinesSingle();
    JoinSplit(EMERGENCY_LINES, '\n');
  }

  /** `executeLevel3Emergency`: the fixed message and no analysis; nothing is stored. */
  function ExecuteLevel3(entry: Entry, totalMs: real): (r: HybridResult)
    ensures r.level == 3 && r.entry == entry && r.analysis.None? && r.aiProcessingTimeMs.None?
    ensures r.userMessage == EMERGENCY_MESSAGE
  {
    HybridResult(entry, None, EMERGENCY_MESSAGE, 3, totalMs, None, None)
  }

  // ---------------------------------------------------------------------------
  // processDiaryEntry
  // ---------------------------------------------------------------------------

  const HYBRID_ERROR_CLASS: string := "HybridAnalysisError"
  const INPUT_REQUIRED: string := "User ID and diary content are required"
  const HYBRID_FAILURE_PREFIX: string := "Hybrid analysis processing failed: "

  /** `new HybridAnalysisError(message)`: its `name` is `DiaryAnalysisError`. */
  function HybridAnalysisError(message: string): Thrown {
    Thrown(JsError(DIARY_ANALYSIS_ERROR, message, None, None, None), HYBRID_ERROR_CLASS)
  }

  /** The metrics sample of a finished call. */
  function Metric(userId: string, content: string, totalMs: real, level: PerformanceMonitor.AnalysisLevel,
                  success: bool, errorType: Option<string>, now: int): PerformanceMonitor.Sample {
    PerformanceMonitor.Sample(now, userId, totalMs, level, |content|, success, errorType)
  }

  /** Record a successful return at its level. */
  function Succeed(s: Stores, res: HybridResult, userId: string, content: string, now: int): HybridRun {
    HybridRun(Success(res), s.(monitor := PerformanceMonitor.RecordMetrics(
      s.monitor, Metric(userId, content, res.totalProcessingTimeMs, res.level, true, None, now), now)))
  }

  /** The outer `catch`: record a level-3 failure, rethrow a `HybridAnalysisError`, wrap anything else. */
  function Fail(s: Stores, t: Thrown, userId: string, content: string, c: Conditions): (r: HybridRun)
    ensures r.result.Failure? && r.result.error.name == DIARY_ANALYSIS_ERROR <== t.error.name == DIARY_ANALYSIS_ERROR || t.constructorName != HYBRID_ERROR_CLASS
    ensures t.constructorName == HYBRID_ERROR_CLASS ==> r.result == Failure(t.error)
    ensures t.constructorName != HYBRID_ERROR_CLASS ==> r.result == Failure(HybridAnalysisError(HYBRID_FAILURE_PREFIX + t.error.message).error)
  {
    var error := if t.constructorName == HYBRID_ERROR_CLASS then t.error
                 else HybridAnalysisError(HYBRID_FAILURE_PREFIX + t.error.message).error;
    HybridRun(Failure(error), s.(monitor := PerformanceMonitor.RecordMetrics(
      s.monitor, Metric(userId, content, c.failureMs, 3, false, Some(t.constructorName), c.now), c.now)))
  }

  /** `processDiaryEntry` with the given level-1 model settings. */
  function Process(s: Stores, userId: string, content: string, c: Conditions, config: AiConfig,
                   deps: Collaborators): (r: HybridRun)
    ensures userId == "" || IsBlank(content) ==>
      r.result == Failure(JsError(DIARY_ANALYSIS_ERROR, INPUT_REQUIRED, None, None, None))
    ensures r.result.Failure? ==> r.stores.entries == s.entries && r.stores.analyses == s.analyses
    ensures r.result.Success? ==>
      && userId != "" && !IsBlank(content)
      && r.result.value.entry == Entry(c.entryId, userId, Trim(content))
      && r.stores.entries == s.entries + [r.result.value.entry]
  {
    if userId == "" || IsBlank(content) then Fail(s, HybridAnalysisError(INPUT_REQUIRED), userId, content, c)
    else match c.entryFault
      case Some(t) => Fail(s, t, userId, content, c)
      case None =>
        var entry := Entry(c.entryId, userId, Trim(content));
        var s1 := s.(entries := s.entries + [entry]);
        if c.entryMs > LEVEL_3_MAX then HybridRun(Success(ExecuteLevel3(entry, c.level3DoneMs)), s1)
        else
          var l1 := TryLevel1(s1, entry, userId, content, c, config, deps);
          if l1.result.Some? then Succeed(l1.stores, l1.result.value, userId, content, c.now)
          else match ExecuteLevel2(l1.stores, entry, userId, content, c, deps)
            case Some((res, s2)) => Succeed(s2, res, userId, content, c.now)
            case None => Succeed(l1.stores, ExecuteLevel3(entry, c.level3DoneMs), userId, content, c.now)
  }

  /** The pipeline as written: level 1 reads the undefined settings object, so no call is answered there. */
  function ProcessDiaryEntryAsWritten(s: Stores, userId: string, content: string, c: Conditions): (r: HybridRun)
    ensures r.result.Success? ==> r.result.value.level != 1
  {
    AsWrittenNeverAnswersAtLevel1(s, userId, content, c, SERVICES);
    Process(s, userId, content, c, Unresolved, SERVICES)
  }

  /** Everything level 1 needs, for a call with the resolved settings and the wired services. */
  predicate Level1Ready(s: Stores, userId: string, content: string, c: Conditions) {
    && userId != "" && !IsBlank(content) && c.entryFault.None? && c.entryMs <= LEVEL_3_MAX
    && c.level1StartMs <= LEVEL_1_MAX * 0.5 && c.level1CheckMs <= LEVEL_1_MAX * 0.8 && !c.level1StoreFails
    && ExecuteAIAnalysis(content, SERVICES.summarize(s.summaries, userId, c.now, c.summary).result,
                         c.apiKey, OPTIMIZED_AI_CONFIG, c.complete).Success?
  }

  /**
   * The pipeline with level 1 reading the settings the configuration module
   * defines: a call that level 1 can serve is answered there with the model's text.
   */
  function ProcessDiaryEntry(s: Stores, userId: string, content: string, c: Conditions): (r: HybridRun)
    ensures Level1Ready(s, userId, content, c) ==>
      && r.result.Success? && r.result.value.level == 1
      && r.result.value.userMessage == ExecuteAIAnalysis(content, SERVICES.summarize(s.summaries, userId, c.now, c.summary).result,
                                                         c.apiKey, OPTIMIZED_AI_CONFIG, c.complete).value
  {
    if Level1Ready(s, userId, content, c) then
      CorrectedAnswersAtLevel1(s, userId, content, c, SERVICES);
      Process(s, userId, content, c, OPTIMIZED_AI_CONFIG, SERVICES)
    else Process(s, userId, content, c, OPTIMIZED_AI_CONFIG, SERVICES)
  }

  /** As written, no call is ever answered at level 1. */
  lemma AsWrittenNeverAnswersAtLevel1(s: Stores, userId: string, content: string, c: Conditions, deps: Collaborators)
    ensures var r := Process(s, userId, content, c, Unresolved, deps);
      r.result.Success? ==> r.result.value.level != 1
  {
    var entry := Entry(c.entryId, userId, Trim(content));
    Level1NeverSucceedsAsWritten(s.(entries := s.entries + [entry]), entry, userId, content, c, deps);
  }

  /**
   * With the settings resolved, a call whose entry is stored in time, whose
   * time checks pass and whose model call and analysis write succeed is
   * answered at level 1 with the model's text.
   */
  lemma CorrectedAnswersAtLevel1(s: Stores, userId: string, content: string, c: Conditions, deps: Collaborators)
    requires userId != "" && !IsBlank(content) && c.entryFault.None? && c.entryMs <= LEVEL_3_MAX
    requires c.level1StartMs <= LEVEL_1_MAX * 0.5 && c.level1CheckMs <= LEVEL_1_MAX * 0.8 && !c.level1StoreFails
    requires ExecuteAIAnalysis(content, deps.summarize(s.summaries, userId, c.now, c.summary).result,
                               c.apiKey, OPTIMIZED_AI_CONFIG, c.complete).Success?
    ensures var r := Process(s, userId, content, c, OPTIMIZED_AI_CONFIG, deps);
      && r.result.Success? && r.result.value.level == 1
      && r.result.value.userMessage == ExecuteAIAnalysis(content, deps.summarize(s.summaries, userId, c.now, c.summary).result,
                                                         c.apiKey, OPTIMIZED_AI_CONFIG, c.complete).value
  {
    var entry := Entry(c.entryId, userId, Trim(content));
    Level1SucceedsWhenEverythingWorks(s.(entries := s.entries + [entry]), entry, userId, content, c, deps);
  }

  /** Missing user or blank diary: a `HybridAnalysisError`, nothing stored, one failure sample. */
  lemma InvalidInputRejected(s: Stores, userId: string, content: string, c: Conditions, config: AiConfig,
                              deps: Collaborators)
    requires userId == "" || IsBlank(content)
    ensures var r := Process(s, userId, content, c, config, deps);
      && r.result == Failure(JsError(DIARY_ANALYSIS_ERROR, INPUT_REQUIRED, None, None, None))
      && r.stores.entries == s.entries && r.stores.analyses == s.analyses && r.stores.summaries == s.summaries
      && r.stores.monitor == PerformanceMonitor.RecordMetrics(s.monitor,
           Metric(userId, content, c.failureMs, 3, false, Some(HYBRID_ERROR_CLASS), c.now), c.now)
  {
  }

  /** A failed entry write: wrapped, nothing stored, one failure sample naming the error's class. */
  lemma EntryFailureWrapped(s: Stores, userId: string, content: string, c: Conditions, config: AiConfig,
                              deps: Collaborators)
    requires userId != "" && !IsBlank(content) && c.entryFault.Some?
    requires c.entryFault.value.constructorName != HYBRID_ERROR_CLASS
    ensures var r := Process(s, userId, content, c, config, deps);
      && r.result == Failure(JsError(DIARY_ANALYSIS_ERROR, HYBRID_FAILURE_PREFIX + c.entryFault.value.error.message, None, None, None))
      && r.stores.entries == s.entries && r.stores.analyses == s.analyses
      && r.stores.monitor.metrics[|r.stores.monitor.metrics| - 1].success == false
      && r.stores.monitor.metrics[|r.stores.monitor.metrics| - 1].analysisLevel == 3
  {
  }

  /** Every accepted call stores exactly one entry: the trimmed diary text. */
  lemma StoredEntryIsTrimmed(s: Stores, userId: string, content: string, c: Conditions, config: AiConfig,
                              deps: Collaborators)
    requires Process(s, userId, content, c, config, deps).result.Success?
    ensures var r := Process(s, userId, content, c, config, deps);
      && userId != "" && !IsBlank(content)
      && r.stores.entries == s.entries + [Entry(c.entryId, userId, Trim(content))]
      && r.result.value.entry == Entry(c.entryId, userId, Trim(content))
      && r.result.value.entry.content != ""
  {
    if userId != "" && !IsBlank(content) && c.entryFault.None? && c.entryMs <= LEVEL_3_MAX {
      var entry := Entry(c.entryId, userId, Trim(content));
      var s1 := s.(entries := s.entries + [entry]);
      var l1 := TryLevel1(s1, entry, userId, content, c, config, deps);
      assert l1.stores.entries == s1.entries;
      assert l1.result.Some? ==> l1.result.value.entry == entry;
    }
  }

  /** A slow entry write cuts straight to level 3: no level-1 or level-2 work, no metric. */
  lemma SlowEntryCutsToLevel3(s: Stores, userId: string, content: string, c: Conditions, config: AiConfig,
                              deps: Collaborators)
    requires userId != "" && !IsBlank(content) && c.entryFault.None? && c.entryMs > LEVEL_3_MAX
    ensures var r := Process(s, userId, content, c, config, deps);
      && r.result.Success? && r.result.value.level == 3 && r.result.value.analysis.None?
      && r.stores == s.(entries := s.entries + [Entry(c.entryId, userId, Trim(content))])
  {
  }

  /**
   * Past the cut-off check, the level is 1 exactly when level 1 yields a
   * result, 2 exactly when it does not and level 2 stores its analysis, and 3
   * otherwise; each such return records one successful sample at its level.
   */
  lemma LevelsTriedInOrder(s: Stores, userId: string, content: string, c: Conditions, config: AiConfig,
                              deps: Collaborators)
    requires userId != "" && !IsBlank(content) && c.entryFault.None? && c.entryMs <= LEVEL_3_MAX
    ensures var entry := Entry(c.entryId, userId, Trim(content));
      var l1 := TryLevel1(s.(entries := s.entries + [entry]), entry, userId, content, c, config, deps);
      var r := Process(s, userId, content, c, config, deps);
      && r.result.Success?
      && (r.result.value.level == 1 <==> l1.result.Some?)
      && (r.result.value.level == 2 <==> l1.result.None? && !c.level2StoreFails)
      && (r.result.value.level == 3 <==> l1.result.None? && c.level2StoreFails)
      && (r.result.value.level == 3 ==> r.result.value.analysis.None? && r.stores.analyses == s.analyses)
      && r.stores.monitor == PerformanceMonitor.RecordMetrics(l1.stores.monitor,
           Metric(userId, content, r.result.value.totalProcessingTimeMs, r.result.value.level, true, None, c.now), c.now)
      && l1.stores.monitor == s.monitor
  {
  }

  /** A level-2 answer stores the light result's four fields and replies with its report. */
  lemma Level2StoresLightFields(s: Stores, userId: string, content: string, c: Conditions, config: AiConfig,
                              deps: Collaborators)
    requires Process(s, userId, content, c, config, deps).result.Success?
    requires Process(s, userId, content, c, config, deps).result.value.level == 2
    ensures var r := Process(s, userId, content, c, config, deps);
      var light := deps.analyze(content, c.level2LightMs);
      && r.result.value.analysis == Some(StoreAnalysis(r.result.value.entry, userId, LightFields(light)))
      && r.result.value.userMessage == deps.format(light, c.level2Timing)
      && r.stores.analyses[|r.stores.analyses| - 1] == r.result.value.analysis.value
  {
    var entry := Entry(c.entryId, userId, Trim(content));
    var l1 := TryLevel1(s.(entries := s.entries + [entry]), entry, userId, content, c, config, deps);
    assert l1.result.None?;
  }

  /** A light result with all four fields non-empty. */
  predicate FieldsPresent(light: LightAnalysis.LightResult) {
    light.emotion != "" && light.themes != "" && light.patterns != "" && light.positivePoints != ""
  }

  /** A stored row with all four fields present. */
  predicate Filled(row: StoredAnalysis) {
    row.emotion.Some? && row.themes.Some? && row.patterns.Some? && row.positivePoints.Some?
  }

  /** A level-1 row is filled when the light result it merges is. */
  lemma Level1RowFilled(s: Stores, entry: Entry, userId: string, content: string, c: Conditions, config: AiConfig,
                        deps: Collaborators)
    requires FieldsPresent(deps.analyze(content, c.lightMs))
    ensures var r := TryLevel1(s, entry, userId, content, c, config, deps);
      r.result.Some? ==> Filled(r.result.value.analysis.value)
  {
  }

  /** A level-2 row is filled when the light result it copies is. */
  lemma Level2RowFilled(s: Stores, entry: Entry, userId: string, content: string, c: Conditions, deps: Collaborators)
    requires FieldsPresent(deps.analyze(content, c.level2LightMs))
    ensures var r := ExecuteLevel2(s, entry, userId, content, c, deps);
      r.Some? ==> Filled(r.value.0.analysis.value)
  {
  }

  /**
   * When the light analyser never returns an empty field, every analysis row
   * the pipeline stores has all four fields present: no `NULL` is written.
   */
  lemma StoredRowsHaveNoNulls(s: Stores, userId: string, content: string, c: Conditions, config: AiConfig,
                              deps: Collaborators)
    requires FieldsPresent(deps.analyze(content, c.lightMs)) && FieldsPresent(deps.analyze(content, c.level2LightMs))
    requires Process(s, userId, content, c, config, deps).result.Success?
    ensures var r := Process(s, userId, content, c, config, deps).result.value;
      r.analysis.Some? ==> Filled(r.analysis.value)
  {
    if userId != "" && !IsBlank(content) && c.entryFault.None? && c.entryMs <= LEVEL_3_MAX {
      var entry := Entry(c.entryId, userId, Trim(content));
      var s1 := s.(entries := s.entries + [entry]);
      var l1 := TryLevel1(s1, entry, userId, content, c, config, deps);
      Level1RowFilled(s1, entry, userId, content, c, config, deps);
      Level2RowFilled(l1.stores, entry, userId, content, c, deps);
    }
  }

  /** The light analyser the pipeline is built with never returns an empty field. */
  lemma WiredAnalyserFillsFields(content: string, ms: real)
    ensures FieldsPresent(SERVICES.analyze(content, ms))
  {
    LightAnalysis.FieldsNonEmpty(content, ms);
  }
}

/**
 * The synchronous diary pipeline (`DiaryAnalysisService.processDiaryEntry`):
 * validate, store the entry, look up or build the seven-day history, ask the
 * model for a structured analysis, store it and format the reply.
 *
 * The clock, the database faults, the recent entries, the completion call and
 * `JSON.parse` are parameters; the three tables are explicit state.
 */
module DiaryAnalysis {
  import opened Wrappers
  import opened Text
  import opened Errors
  import opened Database
  import OpenAIClient
  import DiaryPrompts
  import SummaryCache

  // ---------------------------------------------------------------------------
  // generateSimpleSummary
  // ---------------------------------------------------------------------------

  const SIMPLE_HEAD: string := "過去7日間で"
  const COUNT_TAIL: string := "件の日記を投稿。平均"
  const AVERAGE_TAIL: string := "文字程度の内容。"

  /** The summed lengths of the entries, accumulated from the first as `reduce` does. */
  function TotalLength(contents: seq<string>): nat {
    if |contents| == 0 then 0 else TotalLength(contents[..|contents| - 1]) + |contents[|contents| - 1]|
  }

  /** Entries that all have the same length total that length times their number. */
  lemma {:induction false} TotalLengthUniform(contents: seq<string>, len: nat)
    requires forall i :: 0 <= i < |contents| ==> |contents[i]| == len
    ensures TotalLength(contents) == len * |contents|
  {
    if |contents| > 0 {
      TotalLengthUniform(contents[..|contents| - 1], len);
    }
  }

  /**
   * `Math.round(total / count)`: the integer `a` with `a - 1/2 <= total / count < a + 1/2`,
   * so the nearest integer to the mean, a half rounded up.
   */
  function RoundedAverage(total: nat, count: nat): (a: nat)
    requires count > 0
    ensures count * (2 * a - 1) <= 2 * total < count * (2 * a + 1)
  {
    var a := (2 * total + count) / (2 * count);
    FloorBounds(2 * total + count, 2 * count);
    assert count * (2 * a - 1) == 2 * count * a - count;
    assert count * (2 * a + 1) == 2 * count * a + count;
    a
  }

  /** Euclidean division by a positive divisor brackets the dividend. */
  lemma FloorBounds(n: nat, d: nat)
    requires d > 0
    ensures d * (n / d) <= n < d * (n / d) + d
  {
  }

  /** Multiplying by a positive number keeps a strict order. */
  lemma ScaleStrict(c: int, x: int, y: int)
    requires c > 0 && x < y
    ensures c * x < c * y
  {
    assert c * y - c * x == c * (y - x);
  }

  /** `generateSimpleSummary`: nothing for no entries, else the count and the rounded mean length. */
  function GenerateSimpleSummary(contents: seq<string>): (r: string)
    ensures r == "" <==> |contents| == 0
  {
    if |contents| == 0 then ""
    else SummarySentence(NatToString(|contents|), NatToString(RoundedAverage(TotalLength(contents), |contents|)))
  }

  /** The sentence around the two rendered figures. */
  function SummarySentence(count: string, average: string): string {
    Sentence(SIMPLE_HEAD, count, COUNT_TAIL, average, AVERAGE_TAIL)
  }

  /** Two figures set between three runs of words. */
  function Sentence(head: string, first: string, middle: string, second: string, end: string): string {
    head + first + middle + second + end
  }

  /** The two figures a summary states. */
  datatype SummaryFigures = SummaryFigures(count: nat, average: nat)

  /** Read the count and the average back out of a summary sentence. */
  function ReadSimpleSummary(s: string): Option<SummaryFigures> {
    match ReadSentence(s, SIMPLE_HEAD, COUNT_TAIL, AVERAGE_TAIL)
    case None => None
    case Some((count, average)) =>
      if AllDigits(count) && AllDigits(average) then Some(SummaryFigures(DigitsValue(count), DigitsValue(average)))
      else None
  }

  /** The two runs of digits of a sentence with the given words. */
  function ReadSentence(s: string, head: string, middle: string, end: string): Option<(string, string)> {
    if !OccursAt(s, head, 0) then None else ReadFigures(s[|head|..], middle, end)
  }

  /** The two runs of digits after the opening words. */
  function ReadFigures(rest: string, middle: string, end: string): Option<(string, string)> {
    var n := DigitRun(rest);
    if n == 0 || !OccursAt(rest[n..], middle, 0) then None
    else match ReadLastFigure(rest[n + |middle|..], end)
      case None => None
      case Some(second) => Some((rest[..n], second))
  }

  /** The run of digits before the closing words. */
  function ReadLastFigure(tail: string, end: string): Option<string> {
    var m := DigitRun(tail);
    if m == 0 || tail[m..] != end then None else Some(tail[..m])
  }

  /** A string of digits. */
  predicate AllDigits(s: string) {
    forall i :: 0 <= i < |s| ==> IsDigit(s[i])
  }

  /** A figure followed by closing words that start with a non-digit reads back as that figure. */
  lemma LastFigureReadsBack(d: string, end: string)
    requires |d| > 0 && AllDigits(d) && |end| > 0 && !IsDigit(end[0])
    ensures ReadLastFigure(d + end, end) == Some(d)
  {
    DigitRunEndsAt(d, end);
    var tail := d + end;
    assert tail[..|d|] == d && tail[|d|..] == end;
  }

  /** Two figures with their words after the opening words read back as those figures. */
  lemma FiguresReadBack(d1: string, middle: string, d2: string, end: string)
    requires |d1| > 0 && |d2| > 0 && AllDigits(d1) && AllDigits(d2)
    requires |middle| > 0 && !IsDigit(middle[0]) && |end| > 0 && !IsDigit(end[0])
    ensures ReadFigures(d1 + (middle + (d2 + end)), middle, end) == Some((d1, d2))
  {
    var after := middle + (d2 + end);
    var rest := d1 + after;
    DigitRunEndsAt(d1, after);
    assert rest[..|d1|] == d1 && rest[|d1|..] == after;
    assert OccursAt(after, middle, 0) && rest[|d1| + |middle|..] == d2 + end by {
      assert after[..|middle|] == middle;
    }
    LastFigureReadsBack(d2, end);
  }

  /** Reading a sentence finds the two digit strings it was built from, when the words after each start with a non-digit. */
  lemma SentenceReadsBack(head: string, d1: string, middle: string, d2: string, end: string)
    requires |d1| > 0 && |d2| > 0 && AllDigits(d1) && AllDigits(d2)
    requires |middle| > 0 && !IsDigit(middle[0]) && |end| > 0 && !IsDigit(end[0])
    ensures ReadSentence(Sentence(head, d1, middle, d2, end), head, middle, end) == Some((d1, d2))
  {
    var s := Sentence(head, d1, middle, d2, end);
    var rest := d1 + (middle + (d2 + end));
    assert s == head + rest;
    assert s[..|head|] == head && s[|head|..] == rest;
    FiguresReadBack(d1, middle, d2, end);
  }

  /** The summary of some entries states their number and their rounded mean length, and nothing else. */
  lemma SimpleSummaryRoundTrip(contents: seq<string>)
    requires |contents| > 0
    ensures ReadSimpleSummary(GenerateSimpleSummary(contents))
            == Some(SummaryFigures(|contents|, RoundedAverage(TotalLength(contents), |contents|)))
  {
    var count := |contents|;
    var average := RoundedAverage(TotalLength(contents), count);
    assert COUNT_TAIL[0] == '件' && AVERAGE_TAIL[0] == '文';
    SentenceReadsBack(SIMPLE_HEAD, NatToString(count), COUNT_TAIL, NatToString(average), AVERAGE_TAIL);
    NatToStringRoundTrip(count);
    NatToStringRoundTrip(average);
  }

  /** Entries of one length are summarised with exactly that length as the average. */
  lemma UniformEntriesAverage(contents: seq<string>, len: nat)
    requires |contents| > 0
    requires forall i :: 0 <= i < |contents| ==> |contents[i]| == len
    ensures RoundedAverage(TotalLength(contents), |contents|) == len
  {
    var c := |contents|;
    var total := TotalLength(contents);
    TotalLengthUniform(contents, len);
    MeanOfEqualParts(c, total, len, RoundedAverage(total, c));
  }

  /** A total of `c` parts of `len` has `len` as its nearest-integer mean. */
  lemma MeanOfEqualParts(c: int, total: int, len: int, a: int)
    requires c > 0 && total == len * c
    requires c * (2 * a - 1) <= 2 * total < c * (2 * a + 1)
    ensures a == len
  {
    assert 2 * total == c * (2 * len);
    if a < len {
      ScaleStrict(c, 2 * a + 1, 2 * len);
    } else if a > len {
      ScaleStrict(c, 2 * len, 2 * a - 1);
    }
  }

  // ---------------------------------------------------------------------------
  // getHistorySummary
  // ---------------------------------------------------------------------------

  /**
   * How the cached summary is looked up: through `getSummary`, a method the
   * summary service does not define, as the code does, or through
   * `getByDateRange`, the method it has for this query.
   */
  datatype SummaryLookup = UndefinedMethod | ByDateRange

  /**
   * What the database does during one history lookup: whether the cache query
   * throws, what the recent-entries query returns (`None` when it throws) and
   * whether the write throws.
   */
  datatype HistoryBackend = HistoryBackend(lookupFails: bool, recentEntries: Option<seq<string>>, saveFails: bool)

  /** The history returned (`undefined` as `None`) and the summaries table afterwards. */
  datatype HistoryRun = HistoryRun(result: Option<string>, store: SummaryCache.Store)

  /**
   * `getHistorySummary`: a cached row for the seven-day range is served as it
   * is, whatever its age; otherwise the recent entries are summarised and the
   * summary cached when non-empty. Any error yields no history.
   */
  function GetHistory(store: SummaryCache.Store, userId: string, now: int, b: HistoryBackend,
                      lookup: SummaryLookup): (r: HistoryRun)
    ensures var key := SummaryCache.DateRange(userId, now);
      && (lookup == UndefinedMethod || b.lookupFails ==> r == HistoryRun(None, store))
      && (lookup == ByDateRange && !b.lookupFails && key in store ==>
            r == HistoryRun(Some(store[key].content), store))
      && (key !in store && (b.recentEntries.None? || b.recentEntries == Some([])) ==> r.result.None?)
      && (r.store == store
          || (r.result.Some? && r.result.value != "" && r.store == SummaryCache.Upsert(store, key, r.result.value, now)))
  {
    var key := SummaryCache.DateRange(userId, now);
    if lookup == UndefinedMethod || b.lookupFails then HistoryRun(None, store)
    else if key in store then HistoryRun(Some(store[key].content), store)
    else match b.recentEntries
      case None => HistoryRun(None, store)
      case Some(entries) =>
        if |entries| == 0 then HistoryRun(None, store)
        else
          var summary := GenerateSimpleSummary(entries);
          if summary == "" then HistoryRun(Some(summary), store)
          else if b.saveFails then HistoryRun(None, store)
          else HistoryRun(Some(summary), SummaryCache.Upsert(store, key, summary, now))
  }

  /** As written: the call to the undefined method throws, so there is never a history. */
  function GetHistorySummaryAsWritten(store: SummaryCache.Store, userId: string, now: int,
                                      b: HistoryBackend): (r: HistoryRun)
    ensures r.result.None? && r.store == store
  {
    GetHistory(store, userId, now, b, UndefinedMethod)
  }

  /** Corrected: the lookup goes through `getByDateRange`. */
  function GetHistorySummary(store: SummaryCache.Store, userId: string, now: int, b: HistoryBackend): (r: HistoryRun)
    ensures var key := SummaryCache.DateRange(userId, now);
      !b.lookupFails && key in store ==> r.result == Some(store[key].content)
  {
    GetHistory(store, userId, now, b, ByDateRange)
  }

  /**
   * With no cached row, recent entries and a working write, the history is
   * the simple summary of those entries, cached under today's range.
   */
  lemma NewHistoryIsCached(store: SummaryCache.Store, userId: string, now: int, b: HistoryBackend)
    requires !b.lookupFails && !b.saveFails
    requires SummaryCache.DateRange(userId, now) !in store
    requires b.recentEntries.Some? && |b.recentEntries.value| > 0
    ensures var r := GetHistorySummary(store, userId, now, b);
      && r.result == Some(GenerateSimpleSummary(b.recentEntries.value))
      && r.store == SummaryCache.Upsert(store, SummaryCache.DateRange(userId, now),
                                        GenerateSimpleSummary(b.recentEntries.value), now)
  {
  }

  /**
   * A history built once is served again, unchanged, to every later lookup on
   * the same day, whatever the entries have become and however old the row is.
   */
  lemma HistoryServedAllDay(store: SummaryCache.Store, userId: string, now: int, later: int,
                            b1: HistoryBackend, b2: HistoryBackend)
    requires !b2.lookupFails
    requires GetHistorySummary(store, userId, now, b1).result.Some?
    requires SummaryCache.Day(later) == SummaryCache.Day(now)
    ensures var r1 := GetHistorySummary(store, userId, now, b1);
      GetHistorySummary(r1.store, userId, later, b2) == HistoryRun(r1.result, r1.store)
  {
    var key := SummaryCache.DateRange(userId, now);
    assert SummaryCache.DateRange(userId, later) == key by {
      DayShift(now, later);
    }
  }

  /** Two instants of the same day have the same day a week earlier. */
  lemma DayShift(now: int, later: int)
    requires SummaryCache.Day(later) == SummaryCache.Day(now)
    ensures SummaryCache.Day(later - SummaryCache.WINDOW_DAYS * SummaryCache.MS_PER_DAY)
            == SummaryCache.Day(now - SummaryCache.WINDOW_DAYS * SummaryCache.MS_PER_DAY)
  {
    var week := SummaryCache.WINDOW_DAYS * SummaryCache.MS_PER_DAY;
    WeekEarlier(now);
    WeekEarlier(later);
  }

  /** The day a week before an instant is its day less seven. */
  lemma WeekEarlier(t: int)
    ensures SummaryCache.Day(t - SummaryCache.WINDOW_DAYS * SummaryCache.MS_PER_DAY) == SummaryCache.Day(t) - 7
  {
    var d := SummaryCache.MS_PER_DAY;
    var q := t / d;
    assert q * d <= t < q * d + d;
    assert (q - 7) * d <= t - 7 * d < (q - 7) * d + d;
  }

  // ---------------------------------------------------------------------------
  // analyzeWithGPT
  // ---------------------------------------------------------------------------

  const GPT_MODEL: string := "gpt-3.5-turbo"

  /** The options `analyzeWithGPT` passes: 800 tokens at temperature 0.7. */
  const GPT_OPTIONS: OpenAIClient.ChatOptions := OpenAIClient.ChatOptions(Some(GPT_MODEL), Some(800), Some(0.7))

  const OPENAI_FAILURE_PREFIX: string := "OpenAI API error: "
  const GPT_FAILURE_PREFIX: string := "GPT analysis failed: "

  /** `new DiaryAnalysisError(message)`. */
  function DiaryAnalysisError(message: string): JsError {
    JsError(DIARY_ANALYSIS_ERROR, message, None, None, None)
  }

  /** The request: the fixed system message, then the prompt built from the entry and the history. */
  function AnalysisMessages(content: string, history: Option<string>): (r: seq<OpenAIClient.Message>)
    ensures |r| == 2
    ensures r[0] == OpenAIClient.Message(OpenAIClient.System, DiaryPrompts.DIARY_ANALYSIS_SYSTEM_PROMPT)
    ensures r[1].role == OpenAIClient.User
    ensures OccursAt(r[1].content, DiaryPrompts.DIARY_PREFIX + "\n" + content,
                     |r[1].content| - |DiaryPrompts.DIARY_PREFIX + "\n" + content|)
    ensures TruthyText(history) <==> OccursAt(r[1].content, DiaryPrompts.HISTORY_PREFIX, 0)
    ensures TruthyText(history) ==> OccursAt(r[1].content, history.value, |DiaryPrompts.HISTORY_PREFIX| + 1)
  {
    [OpenAIClient.Message(OpenAIClient.System, DiaryPrompts.DIARY_ANALYSIS_SYSTEM_PROMPT),
     OpenAIClient.Message(OpenAIClient.User, DiaryPrompts.GenerateDiaryAnalysisPrompt(content, history))]
  }

  /** The `catch` of `analyzeWithGPT`: every error leaves as a `DiaryAnalysisError`. */
  function GptFailure(e: JsError): (r: JsError)
    ensures r.name == DIARY_ANALYSIS_ERROR
    ensures e.name == OPENAI_ERROR ==> r.message == OPENAI_FAILURE_PREFIX + e.message
    ensures e.name != OPENAI_ERROR ==> r.message == GPT_FAILURE_PREFIX + e.message
  {
    if e.name == OPENAI_ERROR then DiaryAnalysisError(OPENAI_FAILURE_PREFIX + e.message)
    else DiaryAnalysisError(GPT_FAILURE_PREFIX + e.message)
  }

  /**
   * `analyzeWithGPT`: create the client, request a completion, and parse its
   * first choice. The "no response" and "empty response" errors are thrown
   * inside the `try` and so are wrapped by its `catch`.
   */
  function AnalyzeWithGPT(content: string, history: Option<string>, apiKey: string,
                          complete: (seq<OpenAIClient.Message>, OpenAIClient.ChatOptions) -> Result<OpenAIClient.Completion, JsError>,
                          parse: string -> Option<DiaryPrompts.ParsedAnalysis>): (r: Result<DiaryPrompts.AnalysisResult, JsError>)
    ensures var reply := complete(AnalysisMessages(content, history), GPT_OPTIONS);
      && (r.Success? <==> apiKey != "" && reply.Success? && reply.value.choices.Some?
                          && |reply.value.choices.value| > 0 && reply.value.choices.value[0] != "")
      && (r.Success? ==> r.value == DiaryPrompts.ParseAnalysisResult(reply.value.choices.value[0], parse))
      && (r.Failure? ==> r.error.name == DIARY_ANALYSIS_ERROR)
      && (apiKey == "" ==> r == Failure(DiaryAnalysisError(OPENAI_FAILURE_PREFIX + "OpenAI API key is required")))
      && (apiKey != "" && reply.Failure? ==> r == Failure(GptFailure(reply.error)))
      && (apiKey != "" && reply.Success? && (reply.value.choices.None? || |reply.value.choices.value| == 0) ==>
            r == Failure(DiaryAnalysisError(GPT_FAILURE_PREFIX + SummaryCache.NO_RESPONSE)))
  {
    match OpenAIClient.NewClient(apiKey)
    case Failure(e) => Failure(GptFailure(e))
    case Success(_) =>
      match complete(AnalysisMessages(content, history), GPT_OPTIONS)
      case Failure(e) => Failure(GptFailure(e))
      case Success(completion) =>
        if completion.choices.None? || |completion.choices.value| == 0 then
          Failure(GptFailure(DiaryAnalysisError(SummaryCache.NO_RESPONSE)))
        else if completion.choices.value[0] == "" then
          Failure(GptFailure(DiaryAnalysisError(SummaryCache.EMPTY_RESPONSE)))
        else Success(DiaryPrompts.ParseAnalysisResult(completion.choices.value[0], parse))
  }

  // ---------------------------------------------------------------------------
  // processDiaryEntry
  // ---------------------------------------------------------------------------

  const DIARY_ERROR_CLASS: string := "DiaryAnalysisError"
  const INPUT_REQUIRED: string := "User ID and diary content are required"
  const PROCESSING_FAILURE_PREFIX: string := "Analysis processing failed: "

  /** The tables the pipeline writes. */
  datatype Tables = Tables(entries: seq<Entry>, analyses: seq<StoredAnalysis>, summaries: SummaryCache.Store)

  /**
   * One call's environment: the clock, the id the entry receives, the fault
   * of the entry write, the history backend, the API key, the completion
   * call, `JSON.parse` and the fault of the analysis write.
   */
  datatype Conditions = Conditions(
    now: int,
    entryId: nat,
    entryFault: Option<Thrown>,
    history: HistoryBackend,
    apiKey: string,
    complete: (seq<OpenAIClient.Message>, OpenAIClient.ChatOptions) -> Result<OpenAIClient.Completion, JsError>,
    parse: string -> Option<DiaryPrompts.ParsedAnalysis>,
    analysisFault: Option<Thrown>)

  /** `DiaryAnalysisResult`. */
  datatype DiaryResult = DiaryResult(entry: Entry, analysis: StoredAnalysis, userMessage: string)

  /** The result or the error thrown, and the tables afterwards. */
  datatype DiaryRun = DiaryRun(result: Result<DiaryResult, JsError>, tables: Tables)

  /** A fault that, if it is a `DiaryAnalysisError` instance, carries that class's name. */
  predicate NamedByClass(f: Option<Thrown>) {
    f.None? || f.value.constructorName != DIARY_ERROR_CLASS || f.value.error.name == DIARY_ANALYSIS_ERROR
  }

  /** The outer `catch`: a `DiaryAnalysisError` is rethrown as it is, anything else wrapped in one. */
  function Rethrow(t: Thrown): (r: Thrown)
    ensures r.constructorName == DIARY_ERROR_CLASS && r.error.name == DIARY_ANALYSIS_ERROR
            <== t.constructorName != DIARY_ERROR_CLASS || t.error.name == DIARY_ANALYSIS_ERROR
    ensures t.constructorName == DIARY_ERROR_CLASS ==> r == t
    ensures t.constructorName != DIARY_ERROR_CLASS ==> r.error.message == PROCESSING_FAILURE_PREFIX + t.error.message
  {
    if t.constructorName == DIARY_ERROR_CLASS then t
    else Thrown(DiaryAnalysisError(PROCESSING_FAILURE_PREFIX + t.error.message), DIARY_ERROR_CLASS)
  }

  /** Wrapping is done once: an error that has passed the `catch` passes it again unchanged. */
  lemma RethrowIdempotent(t: Thrown)
    ensures Rethrow(Rethrow(t)) == Rethrow(t)
  {
  }

  /** A `DiaryAnalysisError` thrown inside the pipeline. */
  function Raised(message: string): Thrown {
    Thrown(DiaryAnalysisError(message), DIARY_ERROR_CLASS)
  }

  /** The fields of a parsed analysis as `AnalysisService.create` receives them. */
  function ResultFields(a: DiaryPrompts.AnalysisResult): AnalysisFields {
    AnalysisFields(a.emotion, a.themes, a.patterns, a.positivePoints)
  }

  /**
   * The services the pipeline is constructed with: the history lookup, the
   * model analysis and the formatter of the reply.
   */
  datatype Services = Services(
    history: (SummaryCache.Store, string, int, HistoryBackend) -> HistoryRun,
    analyze: (string, Option<string>, string,
              (seq<OpenAIClient.Message>, OpenAIClient.ChatOptions) -> Result<OpenAIClient.Completion, JsError>,
              string -> Option<DiaryPrompts.ParsedAnalysis>) -> Result<DiaryPrompts.AnalysisResult, JsError>,
    format: DiaryPrompts.AnalysisResult -> string)

  /** The services as written: the history lookup calls the undefined method. */
  const SERVICES_AS_WRITTEN: Services := Services(GetHistorySummaryAsWritten, AnalyzeWithGPT, DiaryPrompts.FormatAnalysisForUser)

  /** The services with the history looked up by date range. */
  const SERVICES: Services := Services(GetHistorySummary, AnalyzeWithGPT, DiaryPrompts.FormatAnalysisForUser)

  /** `processDiaryEntry`. */
  function Process(t: Tables, userId: string, content: string, c: Conditions, deps: Services): (r: DiaryRun)
    ensures r.result.Failure? ==> r.tables.analyses == t.analyses
    ensures r.result.Failure? && (userId == "" || IsBlank(content) || c.entryFault.Some?) ==> r.tables == t
  {
    if userId == "" || IsBlank(content) then DiaryRun(Failure(Rethrow(Raised(INPUT_REQUIRED)).error), t)
    else match c.entryFault
      case Some(f) => DiaryRun(Failure(Rethrow(f).error), t)
      case None =>
        var entry := Entry(c.entryId, userId, Trim(content));
        var h := deps.history(t.summaries, userId, c.now, c.history);
        var t1 := t.(entries := t.entries + [entry], summaries := h.store);
        match deps.analyze(content, h.result, c.apiKey, c.complete, c.parse)
        case Failure(e) => DiaryRun(Failure(Rethrow(Thrown(e, DIARY_ERROR_CLASS)).error), t1)
        case Success(a) =>
          match c.analysisFault
          case Some(f) => DiaryRun(Failure(Rethrow(f).error), t1)
          case None =>
            var row := StoreAnalysis(entry, userId, ResultFields(a));
            DiaryRun(Success(DiaryResult(entry, row, deps.format(a))), t1.(analyses := t1.analyses + [row]))
  }

  /** Every error leaving the pipeline is a `DiaryAnalysisError`. */
  lemma FailuresAreDiaryAnalysisErrors(t: Tables, userId: string, content: string, c: Conditions)
    requires NamedByClass(c.entryFault) && NamedByClass(c.analysisFault)
    ensures var r := Process(t, userId, content, c, SERVICES);
      r.result.Failure? ==> r.result.error.name == DIARY_ANALYSIS_ERROR
  {
    if userId != "" && !IsBlank(content) && c.entryFault.None? {
      var h := GetHistorySummary(t.summaries, userId, c.now, c.history);
      var a := AnalyzeWithGPT(content, h.result, c.apiKey, c.complete, c.parse);
      assert a.Failure? ==> a.error.name == DIARY_ANALYSIS_ERROR;
    }
  }

  /** Missing user or blank diary: the validation error, thrown as it is, and nothing written. */
  lemma InvalidInputRejected(t: Tables, userId: string, content: string, c: Conditions, deps: Services)
    requires userId == "" || IsBlank(content)
    ensures Process(t, userId, content, c, deps) == DiaryRun(Failure(DiaryAnalysisError(INPUT_REQUIRED)), t)
  {
  }

  /** A failed entry write of any other class: wrapped once, nothing written. */
  lemma EntryFailureWrapped(t: Tables, userId: string, content: string, c: Conditions, deps: Services)
    requires userId != "" && !IsBlank(content) && c.entryFault.Some?
    requires c.entryFault.value.constructorName != DIARY_ERROR_CLASS
    ensures Process(t, userId, content, c, deps)
            == DiaryRun(Failure(DiaryAnalysisError(PROCESSING_FAILURE_PREFIX + c.entryFault.value.error.message)), t)
  {
  }

  /**
   * Every accepted call stores exactly one entry, the trimmed diary text, and
   * one analysis row for it.
   */
  lemma StoredEntryIsTrimmed(t: Tables, userId: string, content: string, c: Conditions, deps: Services)
    requires Process(t, userId, content, c, deps).result.Success?
    ensures var r := Process(t, userId, content, c, deps);
      var res := r.result.value;
      && userId != "" && !IsBlank(content)
      && res.entry == Entry(c.entryId, userId, Trim(content)) && res.entry.content != ""
      && r.tables.entries == t.entries + [res.entry]
      && r.tables.analyses == t.analyses + [res.analysis]
      && res.analysis.entryId == res.entry.id
  {
  }

  /** The reply formats exactly the four fields stored in the analysis row. */
  lemma ReplyShowsStoredRow(t: Tables, userId: string, content: string, c: Conditions, deps: Services)
    requires Process(t, userId, content, c, deps).result.Success?
    ensures var res := Process(t, userId, content, c, deps).result.value;
      var f := RowFields(res.analysis);
      res.userMessage == deps.format(DiaryPrompts.AnalysisResult(f.emotion, f.themes, f.patterns, f.positivePoints))
  {
    var entry := Entry(c.entryId, userId, Trim(content));
    var h := deps.history(t.summaries, userId, c.now, c.history);
    var a := deps.analyze(content, h.result, c.apiKey, c.complete, c.parse).value;
    StoredFieldsRoundTrip(entry, userId, ResultFields(a));
  }

  /**
   * Once the entry is written it stays written: a later failure of the model
   * call or of the analysis write leaves the entry stored and no analysis.
   */
  lemma EntryKeptOnLaterFailure(t: Tables, userId: string, content: string, c: Conditions, deps: Services)
    requires userId != "" && !IsBlank(content) && c.entryFault.None?
    requires Process(t, userId, content, c, deps).result.Failure?
    ensures var r := Process(t, userId, content, c, deps);
      && r.tables.entries == t.entries + [Entry(c.entryId, userId, Trim(content))]
      && r.tables.analyses == t.analyses
  {
  }

  /**
   * Model failures reach the caller with the message the analysis step gave
   * them: the outer `catch` adds no second prefix.
   */
  lemma ModelFailureNotRewrapped(t: Tables, userId: string, content: string, c: Conditions, deps: Services)
    requires userId != "" && !IsBlank(content) && c.entryFault.None?
    ensures var h := deps.history(t.summaries, userId, c.now, c.history);
      var a := deps.analyze(content, h.result, c.apiKey, c.complete, c.parse);
      a.Failure? ==> Process(t, userId, content, c, deps).result == Failure(a.error)
  {
  }

  /**
   * The history the lookup returns is what the model call receives, the
   * summaries table is what the lookup leaves, and a reply formats the
   * model's analysis.
   */
  lemma HistoryReachesModel(t: Tables, userId: string, content: string, c: Conditions, deps: Services)
    requires userId != "" && !IsBlank(content) && c.entryFault.None?
    ensures var h := deps.history(t.summaries, userId, c.now, c.history);
      var a := deps.analyze(content, h.result, c.apiKey, c.complete, c.parse);
      var r := Process(t, userId, content, c, deps);
      && r.tables.summaries == h.store
      && (r.result.Success? ==> a.Success? && r.result.value.userMessage == deps.format(a.value))
  {
  }

  /** As written, every analysis is requested without a history, and the summaries are never touched. */
  lemma AsWrittenAnalysesWithoutHistory(t: Tables, userId: string, content: string, c: Conditions)
    requires userId != "" && !IsBlank(content) && c.entryFault.None?
    ensures var r := Process(t, userId, content, c, SERVICES_AS_WRITTEN);
      var a := SERVICES_AS_WRITTEN.analyze(content, None, c.apiKey, c.complete, c.parse);
      && r.tables.summaries == t.summaries
      && (r.result.Success? ==> a.Success? && r.result.value.userMessage == SERVICES_AS_WRITTEN.format(a.value))
  {
    HistoryReachesModel(t, userId, content, c, SERVICES_AS_WRITTEN);
  }

  /** Corrected, a cached summary for the week is what the analysis request carries. */
  lemma CorrectedAnalysesWithCachedHistory(t: Tables, userId: string, content: string, c: Conditions)
    requires userId != "" && !IsBlank(content) && c.entryFault.None?
    requires !c.history.lookupFails
    requires SummaryCache.DateRange(userId, c.now) in t.summaries
    ensures var cached := t.summaries[SummaryCache.DateRange(userId, c.now)].content;
      var r := Process(t, userId, content, c, SERVICES);
      var a := SERVICES.analyze(content, Some(cached), c.apiKey, c.complete, c.parse);
      && r.tables.summaries == t.summaries
      && (r.result.Success? ==> a.Success? && r.result.value.userMessage == SERVICES.format(a.value))
  {
    HistoryReachesModel(t, userId, content, c, SERVICES);
    var h := GetHistorySummary(t.summaries, userId, c.now, c.history);
    assert h == HistoryRun(Some(t.summaries[SummaryCache.DateRange(userId, c.now)].content), t.summaries);
  }
}

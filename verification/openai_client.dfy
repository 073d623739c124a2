/**
 * The chat-completions client of `src/services/openai.ts`: which failures
 * are retried, the backoff between attempts, the attempt bound, how
 * timeouts and transport failures surface, the request defaults, the
 * analysis prompt and the guards.
 *
 * The network is a parameter: `send(request, attempt)` is what the fetch of
 * that attempt produced. Sleeping is recorded as the list of waits.
 */
module OpenAIClient {
  import opened Wrappers
  import opened Text
  import opened Errors
  import ErrorHandler

  // ---------------------------------------------------------------------------
  // Retry policy
  // ---------------------------------------------------------------------------

  const MAX_RETRIES: nat := 3
  const BASE_DELAY: int := 1000
  const MAX_DELAY: int := 10000
  const BACKOFF_MULTIPLIER: int := 2

  /** 429 or a 5xx status. */
  predicate RetryableStatus(status: int) {
    status == 429 || 500 <= status < 600
  }

  /** `isRetryableError`: a present, non-zero status that is retryable. */
  predicate IsRetryable(e: JsError)
    ensures IsRetryable(e) ==> e.statusCode.Some? && e.statusCode.value != 0
    ensures IsRetryable(e) ==> ErrorHandler.ClassifyOpenAIError(e).isRetryable
  {
    Truthy(e.statusCode) && RetryableStatus(e.statusCode.value)
  }

  /**
   * The client retries strictly fewer OpenAI errors than the shared handler:
   * exactly those the handler retries that carry a status from 400 to 599.
   * A missing or zero status, and a status below 400, the handler still
   * retries as a network problem; a status of 600 or more it retries as
   * temporary.
   */
  lemma RetryableAgainstHandler(e: JsError)
    ensures IsRetryable(e) <==>
      ErrorHandler.ClassifyOpenAIError(e).isRetryable
      && Truthy(e.statusCode) && 400 <= e.statusCode.value < 600
  {
  }

  /** `calculateDelay`: `min(1000 * 2 ** attempt, 10000)`. */
  function Delay(attempt: nat): (d: int)
    ensures BASE_DELAY <= d <= MAX_DELAY
  {
    ErrorHandler.PowMonotone(BACKOFF_MULTIPLIER, attempt);
    var raw := BASE_DELAY * ErrorHandler.Pow(BACKOFF_MULTIPLIER, attempt);
    if raw < MAX_DELAY then raw else MAX_DELAY
  }

  /** The client's backoff is the shared handler's backoff under its default configuration. */
  lemma SameBackoffAsHandler(attempt: nat)
    ensures Delay(attempt) == ErrorHandler.CalculateDelay(attempt, ErrorHandler.DEFAULT_RETRY_CONFIG)
  {
  }

  /** The first three waits double from one second. */
  lemma FirstDelays()
    ensures Delay(0) == 1000 && Delay(1) == 2000 && Delay(2) == 4000
  {
    assert ErrorHandler.Pow(2, 2) == 4;
  }

  // ---------------------------------------------------------------------------
  // Requests
  // ---------------------------------------------------------------------------

  datatype Role = System | User | Assistant

  datatype Message = Message(role: Role, content: string)

  /** `ChatCompletionRequest`. */
  datatype ChatRequest = ChatRequest(model: string, messages: seq<Message>, maxTokens: int, temperature: real)

  /** The optional settings of `createChatCompletion`. */
  datatype ChatOptions = ChatOptions(model: Option<string>, maxTokens: Option<int>, temperature: Option<real>)

  const DEFAULT_MODEL: string := "gpt-3.5-turbo"
  const DEFAULT_MAX_TOKENS: int := 1000
  const DEFAULT_TEMPERATURE: real := 0.7

  /**
   * The request `createChatCompletion` sends: the model and token limit fall
   * back on any falsy value (`||`), the temperature only on a missing one
   * (`??`).
   */
  function BuildRequest(messages: seq<Message>, options: ChatOptions): (r: ChatRequest)
    ensures r.messages == messages
    ensures r.model != "" && r.maxTokens != 0
    ensures r.model == DEFAULT_MODEL <==> !TruthyText(options.model) || options.model.value == DEFAULT_MODEL
    ensures r.maxTokens == DEFAULT_MAX_TOKENS <==> !Truthy(options.maxTokens) || options.maxTokens.value == DEFAULT_MAX_TOKENS
    ensures TruthyText(options.model) ==> r.model == options.model.value
    ensures Truthy(options.maxTokens) ==> r.maxTokens == options.maxTokens.value
    ensures options.temperature.Some? ==> r.temperature == options.temperature.value
    ensures options.temperature.None? ==> r.temperature == DEFAULT_TEMPERATURE
  {
    ChatRequest(
      if TruthyText(options.model) then options.model.value else DEFAULT_MODEL,
      messages,
      if Truthy(options.maxTokens) then options.maxTokens.value else DEFAULT_MAX_TOKENS,
      options.temperature.GetOr(DEFAULT_TEMPERATURE))
  }

  /** A zero token limit is replaced, but a zero temperature is sent as given. */
  lemma ZeroTokensReplacedZeroTemperatureKept(messages: seq<Message>, model: Option<string>)
    ensures BuildRequest(messages, ChatOptions(model, Some(0), Some(0.0))).maxTokens == DEFAULT_MAX_TOKENS
    ensures BuildRequest(messages, ChatOptions(model, Some(0), Some(0.0))).temperature == 0.0
  {
  }

  // ---------------------------------------------------------------------------
  // One attempt and the retry loop
  // ---------------------------------------------------------------------------

  /**
   * What one fetch produced: a successful response body; a non-OK HTTP
   * response with its status, status text, body text, the body parsed as
   * JSON (`None` when parsing threw; otherwise the `error.message` field, if
   * any) and the parsed reset header; a timeout or abort; or another thrown
   * value (`None` when it is not an `Error`).
   */
  datatype FetchOutcome =
    | Response(body: string)
    | HttpFailure(status: nat, statusText: string, errorText: string,
                  parsed: Option<Option<string>>, resetHeader: Option<int>)
    | TimedOut
    | Transport(message: Option<string>)

  const REQUEST_TIMEOUT: string := "Request timeout"
  const NETWORK_ERROR_PREFIX: string := "Network error: "
  const TIMEOUT_STATUS: int := 408
  const TRANSPORT_STATUS: int := 0

  /** The message of a non-OK response: the JSON error message, else the raw body, else the status line. */
  function HttpErrorMessage(status: nat, statusText: string, errorText: string,
                            parsed: Option<Option<string>>): string
  {
    var statusLine := "HTTP " + NatToString(status) + ": " + statusText;
    match parsed
    case Some(field) => if TruthyText(field) then field.value else statusLine
    case None => if errorText != "" then errorText else statusLine
  }

  /** The `OpenAIError` an attempt's failure becomes. */
  function AttemptError(o: FetchOutcome): (e: JsError)
    requires !o.Response?
    ensures e.name == OPENAI_ERROR
    ensures o.TimedOut? ==> e.statusCode == Some(TIMEOUT_STATUS)
    ensures o.Transport? ==> e.statusCode == Some(TRANSPORT_STATUS)
    ensures o.HttpFailure? ==> e.statusCode == Some(o.status) && e.rateLimitReset == o.resetHeader
  {
    match o
    case HttpFailure(status, statusText, errorText, parsed, resetHeader) =>
      OpenAIError(HttpErrorMessage(status, statusText, errorText, parsed), Some(status), resetHeader)
    case TimedOut => OpenAIError(REQUEST_TIMEOUT, Some(TIMEOUT_STATUS), None)
    case Transport(message) => OpenAIError(NETWORK_ERROR_PREFIX + message.GetOr("Unknown error"), Some(TRANSPORT_STATUS), None)
  }

  /**
   * Whether a failed attempt is followed by another while attempts remain:
   * an HTTP failure only when its error is retryable, a timeout or
   * transport failure always.
   */
  predicate WillRetry(o: FetchOutcome, attempt: nat)
    requires !o.Response?
    ensures WillRetry(o, attempt) ==> attempt < MAX_RETRIES
    ensures o.HttpFailure? ==> (WillRetry(o, attempt) <==> attempt < MAX_RETRIES && IsRetryable(AttemptError(o)))
    ensures !o.HttpFailure? ==> (WillRetry(o, attempt) <==> attempt < MAX_RETRIES)
  {
    attempt < MAX_RETRIES && (o.HttpFailure? ==> RetryableStatus(o.status))
  }

  /** The wait before the next attempt: a 429 with a reset time waits at least until then. */
  function Wait(o: FetchOutcome, attempt: nat): (w: int)
    ensures w >= Delay(attempt)
    ensures o.HttpFailure? && o.status == 429 && Truthy(o.resetHeader) ==> w >= o.resetHeader.value * 1000
    ensures !(o.HttpFailure? && o.status == 429 && Truthy(o.resetHeader)) ==> w == Delay(attempt)
  {
    var delay := Delay(attempt);
    if o.HttpFailure? && o.status == 429 && Truthy(o.resetHeader) then
      var resetDelay := o.resetHeader.value * 1000;
      if delay < resetDelay then resetDelay else delay
    else delay
  }

  /** The outcome of `makeRequest`, the number of fetches it made and the waits between them. */
  datatype RequestRun = RequestRun(result: Result<string, JsError>, attempts: nat, waits: seq<int>)

  /**
   * `makeRequest(endpoint, body, attempt)`: fetch; on a failure that is
   * retried, wait and recurse with `attempt + 1`; otherwise return the body
   * or throw the attempt's error. At most four fetches are made.
   */
  function MakeRequest(request: ChatRequest, send: (ChatRequest, nat) -> FetchOutcome, attempt: nat): (r: RequestRun)
    requires attempt <= MAX_RETRIES
    decreases MAX_RETRIES - attempt
    ensures 1 <= r.attempts <= MAX_RETRIES + 1 - attempt
    ensures |r.waits| == r.attempts - 1
  {
    var o := send(request, attempt);
    if o.Response? then RequestRun(Success(o.body), 1, [])
    else if WillRetry(o, attempt) then
      var rest := MakeRequest(request, send, attempt + 1);
      RequestRun(rest.result, rest.attempts + 1, [Wait(o, attempt)] + rest.waits)
    else RequestRun(Failure(AttemptError(o)), 1, [])
  }

  /** Every fetch before the last one failed, was retried, and was followed by its wait. */
  lemma {:induction false} MakeRequestRetries(request: ChatRequest, send: (ChatRequest, nat) -> FetchOutcome, attempt: nat)
    requires attempt <= MAX_RETRIES
    decreases MAX_RETRIES - attempt
    ensures var r := MakeRequest(request, send, attempt);
      forall n: nat :: attempt <= n < attempt + r.attempts - 1 ==>
        && !send(request, n).Response?
        && WillRetry(send(request, n), n)
        && r.waits[n - attempt] == Wait(send(request, n), n)
  {
    var o := send(request, attempt);
    if !o.Response? && WillRetry(o, attempt) {
      MakeRequestRetries(request, send, attempt + 1);
      var r := MakeRequest(request, send, attempt);
      var rest := MakeRequest(request, send, attempt + 1);
      assert r.waits == [Wait(o, attempt)] + rest.waits;
      assert forall k :: 1 <= k < |r.waits| ==> r.waits[k] == rest.waits[k - 1];
    }
  }

  /**
   * The run ends at the last fetch: its body on a response, otherwise its
   * error, and then only because that failure is not retried.
   */
  lemma {:induction false} MakeRequestOutcome(request: ChatRequest, send: (ChatRequest, nat) -> FetchOutcome, attempt: nat)
    requires attempt <= MAX_RETRIES
    decreases MAX_RETRIES - attempt
    ensures var r := MakeRequest(request, send, attempt);
      var last := send(request, attempt + r.attempts - 1);
      && (r.result.Success? <==> last.Response?)
      && (last.Response? ==> r.result.value == last.body)
      && (!last.Response? ==> r.result.error == AttemptError(last) && !WillRetry(last, attempt + r.attempts - 1))
  {
    var o := send(request, attempt);
    if !o.Response? && WillRetry(o, attempt) {
      MakeRequestOutcome(request, send, attempt + 1);
      var rest := MakeRequest(request, send, attempt + 1);
      assert attempt + (rest.attempts + 1) - 1 == (attempt + 1) + rest.attempts - 1;
    }
  }

  /** A first HTTP failure that is not retryable is thrown as is, after one fetch and no wait. */
  lemma NonRetryableHttpFailsOnce(request: ChatRequest, send: (ChatRequest, nat) -> FetchOutcome)
    requires send(request, 0).HttpFailure? && !IsRetryable(AttemptError(send(request, 0)))
    ensures MakeRequest(request, send, 0) == RequestRun(Failure(AttemptError(send(request, 0))), 1, [])
  {
  }

  /** Timeouts on every attempt: four fetches, waits of 1, 2 and 4 seconds, then status 408. */
  lemma PersistentTimeoutSurfaces408(request: ChatRequest, send: (ChatRequest, nat) -> FetchOutcome)
    requires forall k :: 0 <= k <= MAX_RETRIES ==> send(request, k) == TimedOut
    ensures var r := MakeRequest(request, send, 0);
      && r.attempts == MAX_RETRIES + 1
      && r.waits == [1000, 2000, 4000]
      && r.result == Failure(OpenAIError(REQUEST_TIMEOUT, Some(TIMEOUT_STATUS), None))
  {
    MakeRequestRetries(request, send, 0);
    MakeRequestOutcome(request, send, 0);
    FirstDelays();
  }

  /** A transport failure on the last permitted attempt surfaces with status 0. */
  lemma TransportFailureSurfacesStatus0(request: ChatRequest, send: (ChatRequest, nat) -> FetchOutcome, message: string)
    requires send(request, MAX_RETRIES) == Transport(Some(message))
    ensures MakeRequest(request, send, MAX_RETRIES).result
         == Failure(OpenAIError(NETWORK_ERROR_PREFIX + message, Some(TRANSPORT_STATUS), None))
  {
  }

  // ---------------------------------------------------------------------------
  // Completions and the analysis call
  // ---------------------------------------------------------------------------

  /** The parts of `ChatCompletionResponse` the client reads: each choice's message content. */
  datatype Completion = Completion(choices: Option<seq<string>>)

  /**
   * `createChatCompletion`: build the request, run it, and decode the body;
   * `decode` is `response.json()`, failing with its error message.
   */
  function CreateChatCompletion(messages: seq<Message>, options: ChatOptions,
                                send: (ChatRequest, nat) -> FetchOutcome,
                                decode: string -> Result<Completion, string>): (r: Result<Completion, JsError>)
    ensures var run := MakeRequest(BuildRequest(messages, options), send, 0);
      && (run.result.Failure? ==> r == Failure(run.result.error))
      && (r.Success? ==> run.result.Success? && decode(run.result.value) == Success(r.value))
      && (run.result.Success? && decode(run.result.value).Success? ==> r == Success(decode(run.result.value).value))
      && (run.result.Success? && decode(run.result.value).Failure? ==>
            r == Failure(JsError("SyntaxError", decode(run.result.value).error, None, None, None)))
  {
    var run := MakeRequest(BuildRequest(messages, options), send, 0);
    match run.result
    case Failure(e) => Failure(e)
    case Success(body) =>
      match decode(body)
      case Success(c) => Success(c)
      case Failure(message) => Failure(JsError("SyntaxError", message, None, None, None))
  }

  const SYSTEM_PROMPT: string :=
    "あなたはユーザーの日記を分析するAIアシスタントです。\n"
    + "日記の内容を読み、以下の観点から分析してください：\n\n"
    + "1. 現在の感情状態と感情の変化\n"
    + "2. 主要なテーマや思考パターン\n"
    + "3. ポジティブな点や成長の兆し\n"
    + "4. 励ましやアドバイス\n\n"
    + "分析結果は自然で親しみやすい文体で返してください。"

  const HISTORY_HEADING: string := "【過去7日間の傾向】\n"
  const ENTRY_HEADING: string := "【本日の投稿】\n"

  /**
   * `generateAnalysisPrompt`: the system message, the history message only
   * for a non-empty summary, then the diary message.
   */
  function GenerateAnalysisPrompt(diaryEntry: string, historySummary: Option<string>): (r: seq<Message>)
    ensures |r| == if TruthyText(historySummary) then 3 else 2
    ensures r[0] == Message(System, SYSTEM_PROMPT)
    ensures forall i :: 1 <= i < |r| ==> r[i].role == User
    ensures r[|r| - 1].content == ENTRY_HEADING + diaryEntry
    ensures |r| == 3 ==> r[1].content == HISTORY_HEADING + historySummary.value
  {
    var history := if TruthyText(historySummary) then [Message(User, HISTORY_HEADING + historySummary.value)] else [];
    [Message(System, SYSTEM_PROMPT)] + history + [Message(User, ENTRY_HEADING + diaryEntry)]
  }

  /** Different entries give different prompts, whatever the summaries. */
  lemma PromptDeterminesEntry(a: string, b: string, ha: Option<string>, hb: Option<string>)
    requires GenerateAnalysisPrompt(a, ha) == GenerateAnalysisPrompt(b, hb)
    ensures a == b
  {
    var p := GenerateAnalysisPrompt(a, ha);
    var content := p[|p| - 1].content;
    assert a == content[|ENTRY_HEADING|..];
    assert b == content[|ENTRY_HEADING|..];
  }

  const ENTRY_REQUIRED: string := "Diary entry is required"
  const NO_RESPONSE: string := "No response from OpenAI API"
  const EMPTY_RESPONSE: string := "Empty response from OpenAI API"
  const ANALYSIS_FAILED_PREFIX: string := "Analysis failed: "

  /** The options `analyzeDiary` passes. */
  const ANALYSIS_OPTIONS: ChatOptions := ChatOptions(Some(DEFAULT_MODEL), Some(DEFAULT_MAX_TOKENS), Some(DEFAULT_TEMPERATURE))

  /**
   * `analyzeDiary`: a blank entry is refused before any request; otherwise
   * the first choice's content is returned. Every failure is an
   * `OpenAIError`: those from the request pass through, others are wrapped.
   */
  function AnalyzeDiary(diaryEntry: string, historySummary: Option<string>,
                        send: (ChatRequest, nat) -> FetchOutcome,
                        decode: string -> Result<Completion, string>): (r: Result<string, JsError>)
    ensures r.Failure? ==> r.error.name == OPENAI_ERROR
    ensures IsBlank(diaryEntry) ==> r == Failure(OpenAIError(ENTRY_REQUIRED, None, None))
    ensures r.Success? ==> !IsBlank(diaryEntry) && r.value != ""
    ensures !IsBlank(diaryEntry) ==>
      var c := CreateChatCompletion(GenerateAnalysisPrompt(diaryEntry, historySummary), ANALYSIS_OPTIONS, send, decode);
      && (r.Success? <==> c.Success? && c.value.choices.Some? && |c.value.choices.value| > 0 && c.value.choices.value[0] != "")
      && (r.Success? ==> r.value == c.value.choices.value[0])
      && (c.Failure? && c.error.name == OPENAI_ERROR ==> r == Failure(c.error))
      && (c.Failure? && c.error.name != OPENAI_ERROR ==> r.error.message == ANALYSIS_FAILED_PREFIX + c.error.message)
  {
    if IsBlank(diaryEntry) then Failure(OpenAIError(ENTRY_REQUIRED, None, None))
    else
      var messages := GenerateAnalysisPrompt(diaryEntry, historySummary);
      match CreateChatCompletion(messages, ANALYSIS_OPTIONS, send, decode)
      case Failure(e) =>
        if e.name == OPENAI_ERROR then Failure(e)
        else Failure(OpenAIError(ANALYSIS_FAILED_PREFIX + e.message, None, None))
      case Success(completion) =>
        if completion.choices.None? || |completion.choices.value| == 0 then Failure(OpenAIError(NO_RESPONSE, None, None))
        else if completion.choices.value[0] == "" then Failure(OpenAIError(EMPTY_RESPONSE, None, None))
        else Success(completion.choices.value[0])
  }

  /** A blank entry is refused whatever the network would have done. */
  lemma BlankEntryNeverSends(diaryEntry: string, historySummary: Option<string>,
                             send1: (ChatRequest, nat) -> FetchOutcome, send2: (ChatRequest, nat) -> FetchOutcome,
                             decode: string -> Result<Completion, string>)
    requires IsBlank(diaryEntry)
    ensures AnalyzeDiary(diaryEntry, historySummary, send1, decode) == AnalyzeDiary(diaryEntry, historySummary, send2, decode)
  {
  }

  /** The analysis request uses the default model, 1000 tokens and temperature 0.7. */
  lemma AnalysisRequestSettings(messages: seq<Message>)
    ensures BuildRequest(messages, ANALYSIS_OPTIONS) == ChatRequest(DEFAULT_MODEL, messages, 1000, 0.7)
  {
  }

  /** The client as constructed: its API key. */
  datatype Client = Client(apiKey: string)

  /** The constructor refuses an empty key. */
  function NewClient(apiKey: string): (r: Result<Client, JsError>)
    ensures r.Success? <==> apiKey != ""
    ensures r.Success? ==> r.value.apiKey == apiKey
    ensures r.Failure? ==> r.error == OpenAIError("OpenAI API key is required", None, None)
  {
    if apiKey == "" then Failure(OpenAIError("OpenAI API key is required", None, None))
    else Success(Client(apiKey))
  }
}

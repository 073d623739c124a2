/**
 * The resilience layer of `src/utils/error-handler.ts`: error classification,
 * capped exponential backoff, the bounded retry loop, the per-key circuit
 * breaker and their composition.
 *
 * The operation being protected is a parameter: `op(i)` is what its i-th
 * invocation (counting from 0) returns or throws. Clocks are parameters too;
 * sleeping is recorded as the list of waits the loop would make.
 */
module ErrorHandler {
  import opened Wrappers
  import opened Text
  import opened Errors

  // ---------------------------------------------------------------------------
  // Classification
  // ---------------------------------------------------------------------------

  datatype ErrorCategory = Temporary | Permanent | RateLimit | Network | Validation | Unknown

  /** `ErrorDetails` without the log payload and the original error. */
  datatype ErrorDetails = ErrorDetails(
    category: ErrorCategory,
    isRetryable: bool,
    statusCode: Option<int>,
    retryAfter: Option<int>,
    userMessage: string)

  /** `EnhancedError`: the original message with its classification attached. */
  datatype EnhancedError = EnhancedError(message: string, details: ErrorDetails)

  /** An `EnhancedError` seen as a plain thrown error by an outer classifier. */
  function AsThrown(e: EnhancedError): JsError {
    JsError("EnhancedError", e.message, e.details.statusCode, None, None)
  }

  const ANALYSIS_ERROR_MESSAGE: string :=
    "申し訳ございません。分析処理中にエラーが発生しました。しばらく時間をおいて再度お試しください。"
  const AI_SERVICE_TEMPORARY_ISSUE: string :=
    "AI分析サービスに一時的な問題が発生しています。しばらく時間をおいて再度お試しください。"

  const DATABASE_ERRORS: seq<string> := [
    "分析の作成に失敗しました", "エントリーの作成に失敗しました",
    "要約の作成または更新に失敗しました", "データベース接続に失敗しました",
    "データベース操作タイムアウト", "データベーストランザクションに失敗しました",
    "データベースクエリに失敗しました", "データベース制約違反"]

  const LINE_ERRORS: seq<string> := [
    "イベントにユーザーIDが見つかりません", "日記エントリーの処理に失敗しました:",
    "LINE APIリクエストに失敗しました", "LINE APIレート制限を超えました",
    "無効なLINE APIリクエスト", "LINEメッセージの送信に失敗しました",
    "無効なリプライトークン", "Webhook検証に失敗しました"]

  predicate IsOpenAIError(e: JsError) {
    e.name == OPENAI_ERROR || Contains(e.message, "OpenAI")
  }

  predicate IsDatabaseError(e: JsError) {
    Contains(e.message, "D1") || Contains(e.message, "database") || ContainsAny(e.message, DATABASE_ERRORS)
  }

  predicate IsLineError(e: JsError) {
    Contains(e.message, "LINE") || ContainsAny(e.message, LINE_ERRORS)
  }

  predicate IsNetworkError(e: JsError) {
    e.name == TIMEOUT_ERROR || e.name == ABORT_ERROR
    || Contains(e.message, "fetch") || Contains(e.message, "network")
  }

  /** The categories the retry loop treats as transient. */
  predicate RetryableCategory(c: ErrorCategory) {
    c == Temporary || c == RateLimit || c == Network
  }

  /**
   * The shape every classifier output has: retryability is decided by the
   * category alone, `VALIDATION` is never produced, and only a rate-limit
   * classification carries a reset time and it always carries status 429.
   */
  predicate Coherent(d: ErrorDetails) {
    && (d.isRetryable <==> RetryableCategory(d.category))
    && d.category != Validation
    && (d.retryAfter.Some? ==> d.category == RateLimit)
    && (d.category == RateLimit ==> d.statusCode == Some(429))
  }

  /**
   * LLM-capability errors: 429 is rate limiting (section 4 of RFC 6585), other
   * 4xx are client errors (section 15.5 of RFC 9110) and 5xx server errors
   * (section 15.6 of RFC 9110); a missing, zero or sub-400 status is treated
   * as a network failure.
   */
  function ClassifyOpenAIError(e: JsError): (d: ErrorDetails)
    ensures Coherent(d)
    ensures d.category == RateLimit <==> e.statusCode == Some(429)
    ensures d.category == RateLimit ==> d.retryAfter == e.rateLimitReset
    ensures d.category == Temporary <==> Truthy(e.statusCode) && e.statusCode.value >= 500
    ensures d.category == Permanent <==>
      Truthy(e.statusCode) && 400 <= e.statusCode.value < 500 && e.statusCode.value != 429
    ensures d.category == Network <==> !Truthy(e.statusCode) || e.statusCode.value < 400
    ensures d.category != Network ==> d.statusCode == e.statusCode
  {
    var code := e.statusCode;
    if code == Some(429) then
      ErrorDetails(RateLimit, true, code, e.rateLimitReset, AI_SERVICE_TEMPORARY_ISSUE)
    else if Truthy(code) && code.value >= 500 then
      ErrorDetails(Temporary, true, code, None, AI_SERVICE_TEMPORARY_ISSUE)
    else if Truthy(code) && code.value >= 400 && code.value < 500 then
      ErrorDetails(Permanent, false, code, None, ANALYSIS_ERROR_MESSAGE)
    else
      ErrorDetails(Network, true, None, None, AI_SERVICE_TEMPORARY_ISSUE)
  }

  /** Persistence errors are transient exactly when the message names a timeout, connection or network. */
  function ClassifyDatabaseError(e: JsError): (d: ErrorDetails)
    ensures Coherent(d)
    ensures d.isRetryable <==>
      Contains(e.message, "timeout") || Contains(e.message, "connection") || Contains(e.message, "network")
    ensures d.category == (if d.isRetryable then Temporary else Permanent)
    ensures d.statusCode.None? && d.userMessage == ANALYSIS_ERROR_MESSAGE
  {
    if Contains(e.message, "timeout") || Contains(e.message, "connection") || Contains(e.message, "network") then
      ErrorDetails(Temporary, true, None, None, ANALYSIS_ERROR_MESSAGE)
    else
      ErrorDetails(Permanent, false, None, None, ANALYSIS_ERROR_MESSAGE)
  }

  /** The status the LINE classifier reads: `statusCode || status`. */
  function LineStatus(e: JsError): Option<int> {
    if Truthy(e.statusCode) then e.statusCode else e.status
  }

  /** Messaging errors: 429 is rate limiting, 5xx transient, anything else permanent. */
  function ClassifyLineError(e: JsError): (d: ErrorDetails)
    ensures Coherent(d)
    ensures d.statusCode == LineStatus(e)
    ensures d.category == RateLimit <==> LineStatus(e) == Some(429)
    ensures d.category == Temporary <==> Truthy(LineStatus(e)) && LineStatus(e).value >= 500
    ensures d.category in {RateLimit, Temporary, Permanent}
  {
    var code := LineStatus(e);
    if code == Some(429) then
      ErrorDetails(RateLimit, true, code, None, AI_SERVICE_TEMPORARY_ISSUE)
    else if Truthy(code) && code.value >= 500 then
      ErrorDetails(Temporary, true, code, None, AI_SERVICE_TEMPORARY_ISSUE)
    else
      ErrorDetails(Permanent, false, code, None, ANALYSIS_ERROR_MESSAGE)
  }

  /**
   * `classifyError`: the first matching family wins, in the order LLM,
   * persistence, messaging, network; an error of no family is UNKNOWN and
   * not retried.
   */
  function ClassifyError(e: JsError): (d: ErrorDetails)
    ensures Coherent(d)
    ensures IsOpenAIError(e) ==> d == ClassifyOpenAIError(e)
    ensures !IsOpenAIError(e) && IsDatabaseError(e) ==> d == ClassifyDatabaseError(e)
    ensures !IsOpenAIError(e) && !IsDatabaseError(e) && IsLineError(e) ==> d == ClassifyLineError(e)
    ensures d.category == Unknown <==>
      !IsOpenAIError(e) && !IsDatabaseError(e) && !IsLineError(e) && !IsNetworkError(e)
    ensures !IsOpenAIError(e) && !IsDatabaseError(e) && !IsLineError(e) && IsNetworkError(e) ==>
      d == ErrorDetails(Network, true, None, None, AI_SERVICE_TEMPORARY_ISSUE)
    ensures d.category == Unknown ==> d.userMessage == ANALYSIS_ERROR_MESSAGE && !d.isRetryable
  {
    if IsOpenAIError(e) then ClassifyOpenAIError(e)
    else if IsDatabaseError(e) then ClassifyDatabaseError(e)
    else if IsLineError(e) then ClassifyLineError(e)
    else if IsNetworkError(e) then ErrorDetails(Network, true, None, None, AI_SERVICE_TEMPORARY_ISSUE)
    else ErrorDetails(Unknown, false, None, None, ANALYSIS_ERROR_MESSAGE)
  }

  /** `new EnhancedError(error.message, classifyError(error))`. */
  function Enhance(e: JsError): EnhancedError {
    EnhancedError(e.message, ClassifyError(e))
  }

  // ---------------------------------------------------------------------------
  // Backoff
  // ---------------------------------------------------------------------------

  datatype RetryConfig = RetryConfig(
    maxRetries: int,
    baseDelay: int,
    maxDelay: int,
    backoffMultiplier: int,
    retryCondition: Option<JsError -> bool>)

  /** The handler's defaults, from `API_CONFIG` in `src/constants/messages.ts`. */
  const DEFAULT_RETRY_CONFIG: RetryConfig := RetryConfig(3, 1000, 10000, 2, None)

  function Pow(b: int, e: nat): int {
    if e == 0 then 1 else b * Pow(b, e - 1)
  }

  /** `min(baseDelay * backoffMultiplier ** attempt, maxDelay)`. */
  function CalculateDelay(attempt: nat, cfg: RetryConfig): (d: int)
    ensures d <= cfg.maxDelay && d <= cfg.baseDelay * Pow(cfg.backoffMultiplier, attempt)
    ensures d == cfg.maxDelay || d == cfg.baseDelay * Pow(cfg.backoffMultiplier, attempt)
  {
    var raw := cfg.baseDelay * Pow(cfg.backoffMultiplier, attempt);
    if raw < cfg.maxDelay then raw else cfg.maxDelay
  }

  lemma {:induction false} PowMonotone(b: int, e: nat)
    requires b >= 1
    ensures 1 <= Pow(b, e) <= Pow(b, e + 1)
  {
    if e > 0 {
      PowMonotone(b, e - 1);
    }
  }

  /** With a non-negative base and a multiplier of at least 1 the waits never shrink. */
  lemma DelayMonotone(attempt: nat, cfg: RetryConfig)
    requires cfg.baseDelay >= 0 && cfg.backoffMultiplier >= 1
    ensures CalculateDelay(attempt, cfg) <= CalculateDelay(attempt + 1, cfg)
  {
    PowMonotone(cfg.backoffMultiplier, attempt);
    var p := Pow(cfg.backoffMultiplier, attempt);
    assert cfg.baseDelay * p <= cfg.baseDelay * Pow(cfg.backoffMultiplier, attempt + 1);
  }

  /** The default schedule doubles from one second and is capped at ten. */
  lemma DefaultDelays()
    ensures CalculateDelay(0, DEFAULT_RETRY_CONFIG) == 1000
    ensures CalculateDelay(1, DEFAULT_RETRY_CONFIG) == 2000
    ensures CalculateDelay(2, DEFAULT_RETRY_CONFIG) == 4000
    ensures CalculateDelay(3, DEFAULT_RETRY_CONFIG) == 8000
    ensures CalculateDelay(4, DEFAULT_RETRY_CONFIG) == 10000
  {
  }

  /** The wait before the next attempt: rate limiting stretches it to the reset time. */
  function RetryWait(attempt: nat, cfg: RetryConfig, d: ErrorDetails): (w: int)
    ensures w >= CalculateDelay(attempt, cfg)
    ensures d.category == RateLimit && Truthy(d.retryAfter) ==> w >= d.retryAfter.value * 1000
    ensures !(d.category == RateLimit && Truthy(d.retryAfter)) ==> w == CalculateDelay(attempt, cfg)
    ensures w == CalculateDelay(attempt, cfg) || w == d.retryAfter.value * 1000
  {
    var delay := CalculateDelay(attempt, cfg);
    if d.category == RateLimit && Truthy(d.retryAfter) then
      var rateLimitDelay := d.retryAfter.value * 1000;
      if delay < rateLimitDelay then rateLimitDelay else delay
    else delay
  }

  // ---------------------------------------------------------------------------
  // Retry loop
  // ---------------------------------------------------------------------------

  /** One run of the retry loop: the outcome, how many times the operation ran, and the waits between runs. */
  datatype RetryRun<T> = RetryRun(result: Result<T, EnhancedError>, attempts: nat, waits: seq<int>)

  /** After the failure `e`, classified as `d`, the loop tries again, provided attempts remain. */
  predicate Continues(cfg: RetryConfig, d: ErrorDetails, e: JsError) {
    d.isRetryable && (cfg.retryCondition.None? || cfg.retryCondition.value(e))
  }

  /** `Continues` under the handler's own classification. */
  predicate KeepsRetrying(cfg: RetryConfig, e: JsError) {
    Continues(cfg, ClassifyError(e), e)
  }

  /**
   * The loop from attempt number `attempt` on, with the classifier as a
   * parameter (`ExecuteWithRetry` passes `ClassifyError`).
   */
  function RetryFrom<T>(op: nat -> Result<T, JsError>, cfg: RetryConfig, classify: JsError -> ErrorDetails, attempt: nat)
    : (run: RetryRun<T>)
    requires attempt <= cfg.maxRetries
    decreases cfg.maxRetries - attempt
    ensures attempt < run.attempts <= cfg.maxRetries + 1
    ensures |run.waits| == run.attempts - 1 - attempt
    ensures forall i :: attempt <= i < run.attempts - 1 ==>
      op(i).Failure? && Continues(cfg, classify(op(i).error), op(i).error)
    ensures forall k :: 0 <= k < |run.waits| ==>
      op(attempt + k).Failure? && run.waits[k] == RetryWait(attempt + k, cfg, classify(op(attempt + k).error))
    ensures run.result.Success? <==> op(run.attempts - 1).Success?
    ensures run.result.Success? ==> run.result.value == op(run.attempts - 1).value
    ensures run.result.Failure? ==>
      var e := op(run.attempts - 1).error;
      && run.result.error == EnhancedError(e.message, classify(e))
      && (run.attempts == cfg.maxRetries + 1 || !Continues(cfg, classify(e), e))
  {
    match op(attempt)
    case Success(v) => RetryRun(Success(v), attempt + 1, [])
    case Failure(e) =>
      var details := classify(e);
      // Not retryable, the last attempt, or rejected by `retryCondition`: rethrow enhanced.
      if !Continues(cfg, details, e) || attempt >= cfg.maxRetries then
        RetryRun(Failure(EnhancedError(e.message, details)), attempt + 1, [])
      else
        var rest := RetryFrom(op, cfg, classify, attempt + 1);
        var waits := [RetryWait(attempt, cfg, details)] + rest.waits;
        assert forall k :: 1 <= k < |waits| ==> waits[k] == rest.waits[k - 1];
        RetryRun(rest.result, rest.attempts, waits)
  }

  const NO_OPERATION_ATTEMPTED: JsError := PlainError("No operation attempted")

  /**
   * `executeWithRetry`: at most `maxRetries + 1` invocations; the first success
   * is returned; the loop stops at the first failure that is not retryable,
   * that `retryCondition` rejects, or that uses up the last attempt.
   */
  function ExecuteWithRetry<T>(op: nat -> Result<T, JsError>, cfg: RetryConfig): (run: RetryRun<T>)
    ensures cfg.maxRetries < 0 ==> run.attempts == 0 && run.result == Failure(Enhance(NO_OPERATION_ATTEMPTED))
    ensures cfg.maxRetries >= 0 ==> 1 <= run.attempts <= cfg.maxRetries + 1
    ensures |run.waits| == if run.attempts == 0 then 0 else run.attempts - 1
    ensures forall i :: 0 <= i < run.attempts - 1 ==> op(i).Failure? && KeepsRetrying(cfg, op(i).error)
    ensures run.result.Success? ==> run.attempts >= 1 && op(run.attempts - 1) == Success(run.result.value)
    ensures run.result.Failure? && run.attempts >= 1 ==>
      && op(run.attempts - 1).Failure?
      && run.result.error == Enhance(op(run.attempts - 1).error)
      && (run.attempts == cfg.maxRetries + 1 || !KeepsRetrying(cfg, op(run.attempts - 1).error))
  {
    if cfg.maxRetries < 0 then RetryRun(Failure(Enhance(NO_OPERATION_ATTEMPTED)), 0, [])
    else RetryFrom(op, cfg, ClassifyError, 0)
  }

  /** An operation that fails `n` times, each time retryably, then succeeds, is run exactly `n + 1` times. */
  lemma SucceedsAfterFailures<T>(op: nat -> Result<T, JsError>, cfg: RetryConfig, n: nat)
    requires n <= cfg.maxRetries
    requires forall i :: 0 <= i < n ==> op(i).Failure? && KeepsRetrying(cfg, op(i).error)
    requires op(n).Success?
    ensures ExecuteWithRetry(op, cfg).result == Success(op(n).value)
    ensures ExecuteWithRetry(op, cfg).attempts == n + 1
  {
  }

  /** An operation that always fails retryably is run exactly `maxRetries + 1` times, then the last error surfaces. */
  lemma ExhaustsAttempts<T>(op: nat -> Result<T, JsError>, cfg: RetryConfig)
    requires cfg.maxRetries >= 0
    requires forall i :: 0 <= i <= cfg.maxRetries ==> op(i).Failure? && KeepsRetrying(cfg, op(i).error)
    ensures ExecuteWithRetry(op, cfg).attempts == cfg.maxRetries + 1
    ensures ExecuteWithRetry(op, cfg).result == Failure(Enhance(op(cfg.maxRetries).error))
  {
  }

  /** A failure that is not retryable ends the loop at once: one invocation, no wait. */
  lemma NonRetryableFailsFast<T>(op: nat -> Result<T, JsError>, cfg: RetryConfig)
    requires cfg.maxRetries >= 0
    requires op(0).Failure? && !ClassifyError(op(0).error).isRetryable
    ensures ExecuteWithRetry(op, cfg).attempts == 1
    ensures ExecuteWithRetry(op, cfg).waits == []
    ensures ExecuteWithRetry(op, cfg).result == Failure(Enhance(op(0).error))
  {
  }

  // ---------------------------------------------------------------------------
  // Circuit breaker
  // ---------------------------------------------------------------------------

  datatype CircuitState = Closed | Open | HalfOpen

  datatype CircuitBreakerConfig = CircuitBreakerConfig(failureThreshold: int, resetTimeout: int, monitoringPeriod: int)

  const DEFAULT_CIRCUIT_CONFIG: CircuitBreakerConfig := CircuitBreakerConfig(5, 60000, 60000)

  /** `CircuitBreakerState`: the gate of one resource key. */
  datatype Breaker = Breaker(state: CircuitState, failureCount: nat, lastFailureTime: int, nextAttemptTime: int)

  /** A breaker as it is created on first use of its key. */
  const FRESH_BREAKER: Breaker := Breaker(Closed, 0, 0, 0)

  /** The state `canExecute` reports and leaves behind: whether the call may go ahead, and the breaker after the check. */
  datatype Gate = Gate(allowed: bool, breaker: Breaker)

  /** `canExecute` at time `now`. */
  function CanExecute(b: Breaker, now: int): (g: Gate)
    ensures g.allowed <==> b.state != Open || now >= b.nextAttemptTime
    ensures b.state == Open && now >= b.nextAttemptTime ==> g.breaker == b.(state := HalfOpen)
    ensures !(b.state == Open && now >= b.nextAttemptTime) ==> g.breaker == b
  {
    match b.state
    case Closed => Gate(true, b)
    case Open => if now >= b.nextAttemptTime then Gate(true, b.(state := HalfOpen)) else Gate(false, b)
    case HalfOpen => Gate(true, b)
  }

  /** `onSuccess`: from any state, back to CLOSED with no failures counted. */
  function OnSuccess(b: Breaker): (b': Breaker)
    ensures b'.state == Closed && b'.failureCount == 0
    ensures b'.lastFailureTime == b.lastFailureTime && b'.nextAttemptTime == b.nextAttemptTime
  {
    b.(state := Closed, failureCount := 0)
  }

  /** `onFailure` at time `now`: count the failure; at the threshold, open until `now + resetTimeout`. */
  function OnFailure(b: Breaker, cfg: CircuitBreakerConfig, now: int): (b': Breaker)
    ensures b'.failureCount == b.failureCount + 1 && b'.lastFailureTime == now
    ensures b'.failureCount >= cfg.failureThreshold ==>
      b'.state == Open && b'.nextAttemptTime == now + cfg.resetTimeout
    ensures b'.failureCount < cfg.failureThreshold ==>
      b'.state == b.state && b'.nextAttemptTime == b.nextAttemptTime
  {
    var counted := b.(failureCount := b.failureCount + 1, lastFailureTime := now);
    if counted.failureCount >= cfg.failureThreshold then
      counted.(state := Open, nextAttemptTime := now + cfg.resetTimeout)
    else counted
  }

  /**
   * The invariant the transitions keep: a breaker that is not CLOSED has
   * reached the threshold, and a CLOSED one is below it (or untouched).
   */
  predicate BreakerInvariant(b: Breaker, cfg: CircuitBreakerConfig) {
    && (b.state != Closed ==> b.failureCount >= cfg.failureThreshold)
    && (b.state == Closed ==> b.failureCount == 0 || b.failureCount < cfg.failureThreshold)
  }

  lemma BreakerInvariantPreserved(b: Breaker, cfg: CircuitBreakerConfig, now: int)
    requires BreakerInvariant(b, cfg)
    ensures BreakerInvariant(CanExecute(b, now).breaker, cfg)
    ensures BreakerInvariant(OnSuccess(b), cfg)
    ensures BreakerInvariant(OnFailure(b, cfg, now), cfg)
    ensures BreakerInvariant(FRESH_BREAKER, cfg)
  {
  }

  /** A failure in HALF_OPEN opens the breaker again, because the count was never reset. */
  lemma HalfOpenFailureReopens(b: Breaker, cfg: CircuitBreakerConfig, now: int)
    requires BreakerInvariant(b, cfg) && b.state == HalfOpen
    ensures OnFailure(b, cfg, now).state == Open
    ensures OnFailure(b, cfg, now).failureCount == b.failureCount + 1
    ensures OnFailure(b, cfg, now).nextAttemptTime == now + cfg.resetTimeout
  {
  }

  /** The breaker after a run of failures at the given times. */
  function FailAll(b: Breaker, cfg: CircuitBreakerConfig, times: seq<int>): Breaker
    decreases |times|
  {
    if |times| == 0 then b else FailAll(OnFailure(b, cfg, times[0]), cfg, times[1..])
  }

  /** `failureThreshold` consecutive failures from a fresh breaker open it until the last failure plus `resetTimeout`. */
  lemma {:induction false} ConsecutiveFailuresOpen(b: Breaker, cfg: CircuitBreakerConfig, times: seq<int>)
    requires BreakerInvariant(b, cfg)
    requires |times| >= 1 && b.failureCount + |times| >= cfg.failureThreshold
    ensures FailAll(b, cfg, times).failureCount == b.failureCount + |times|
    ensures FailAll(b, cfg, times).state == Open
    ensures FailAll(b, cfg, times).nextAttemptTime == times[|times| - 1] + cfg.resetTimeout
    decreases |times|
  {
    var b1 := OnFailure(b, cfg, times[0]);
    BreakerInvariantPreserved(b, cfg, times[0]);
    if |times| > 1 {
      ConsecutiveFailuresOpen(b1, cfg, times[1..]);
      assert times[1..][|times[1..]| - 1] == times[|times| - 1];
    }
  }

  /** Breakers keyed by resource name. */
  type Breakers = map<string, Breaker>

  /** `getCircuitBreaker`: the key's breaker, created CLOSED with no failures on first use. */
  function GetBreaker(reg: Breakers, key: string): (b: Breaker)
    ensures key !in reg ==> b == FRESH_BREAKER
    ensures key in reg ==> b == reg[key]
  {
    if key in reg then reg[key] else FRESH_BREAKER
  }

  /** One call through `executeWithCircuitBreaker`. */
  datatype CircuitRun<T> = CircuitRun(result: Result<T, EnhancedError>, invoked: bool, breakers: Breakers)

  function CircuitOpenError(key: string): EnhancedError {
    EnhancedError("Circuit breaker is OPEN for " + key,
      ErrorDetails(Temporary, false, None, None, AI_SERVICE_TEMPORARY_ISSUE))
  }

  /**
   * `executeWithCircuitBreaker`: `outcome` is what the operation returns or
   * throws if it is invoked, `now` the time of the gate check and `failedAt`
   * the time a failure is counted.
   */
  function ExecuteWithCircuitBreaker<T>(
    reg: Breakers, key: string, cfg: CircuitBreakerConfig, now: int,
    outcome: Result<T, JsError>, failedAt: int): (run: CircuitRun<T>)
    ensures key in run.breakers && run.breakers.Keys == reg.Keys + {key}
    ensures forall k :: k in reg && k != key ==> run.breakers[k] == reg[k]
    ensures run.invoked <==> CanExecute(GetBreaker(reg, key), now).allowed
    ensures !run.invoked ==>
      && run.result == Failure(CircuitOpenError(key))
      && !run.result.error.details.isRetryable
      && run.result.error.details.category == Temporary
      && run.breakers[key] == GetBreaker(reg, key)
    ensures run.invoked && outcome.Success? ==>
      run.result == Success(outcome.value) && run.breakers[key] == OnSuccess(CanExecute(GetBreaker(reg, key), now).breaker)
    ensures run.invoked && outcome.Failure? ==>
      && run.result == Failure(Enhance(outcome.error))
      && run.breakers[key] == OnFailure(CanExecute(GetBreaker(reg, key), now).breaker, cfg, failedAt)
  {
    var gate := CanExecute(GetBreaker(reg, key), now);
    if !gate.allowed then
      CircuitRun(Failure(CircuitOpenError(key)), false, reg[key := gate.breaker])
    else
      match outcome
      case Success(v) => CircuitRun(Success(v), true, reg[key := OnSuccess(gate.breaker)])
      case Failure(e) => CircuitRun(Failure(Enhance(e)), true, reg[key := OnFailure(gate.breaker, cfg, failedAt)])
  }

  /** A retry run's outcome as the circuit breaker around it sees it. */
  function ThrownBy<T>(r: Result<T, EnhancedError>): Result<T, JsError> {
    match r
    case Success(v) => Success(v)
    case Failure(e) => Failure(AsThrown(e))
  }

  datatype ProtectedRun<T> = ProtectedRun(result: Result<T, EnhancedError>, attempts: nat, breakers: Breakers)

  /**
   * `executeWithProtection`: the retry loop inside the circuit breaker. The
   * breaker sees the whole retry run as one outcome, however many attempts it
   * took, and a denied call runs the operation zero times.
   */
  function ExecuteWithProtection<T>(
    reg: Breakers, key: string, cfg: CircuitBreakerConfig, now: int, failedAt: int,
    op: nat -> Result<T, JsError>, retry: RetryConfig): (run: ProtectedRun<T>)
    ensures key in run.breakers && run.breakers.Keys == reg.Keys + {key}
    ensures !CanExecute(GetBreaker(reg, key), now).allowed ==>
      && run.attempts == 0 && run.result == Failure(CircuitOpenError(key))
      && run.breakers[key] == GetBreaker(reg, key)
    ensures CanExecute(GetBreaker(reg, key), now).allowed ==>
      && run.attempts == ExecuteWithRetry(op, retry).attempts
      && var gated := CanExecute(GetBreaker(reg, key), now).breaker;
         run.breakers[key] == (if run.result.Success? then OnSuccess(gated) else OnFailure(gated, cfg, failedAt))
    ensures run.result.Success? ==> run.result == ExecuteWithRetry(op, retry).result
    ensures CanExecute(GetBreaker(reg, key), now).allowed && ExecuteWithRetry(op, retry).result.Success? ==>
      run.result == ExecuteWithRetry(op, retry).result
    ensures CanExecute(GetBreaker(reg, key), now).allowed && ExecuteWithRetry(op, retry).result.Failure? ==>
      run.result == Failure(Enhance(AsThrown(ExecuteWithRetry(op, retry).result.error)))
    ensures forall k :: k in reg && k != key ==> run.breakers[k] == reg[k]
  {
    var inner := ExecuteWithRetry(op, retry);
    var cb := ExecuteWithCircuitBreaker(reg, key, cfg, now, ThrownBy(inner.result), failedAt);
    ProtectedRun(cb.result, if cb.invoked then inner.attempts else 0, cb.breakers)
  }

  /** `withErrorHandling`: protection when a breaker key is given and wanted, the bare retry loop otherwise. */
  function WithErrorHandling<T>(
    reg: Breakers, useCircuitBreaker: bool, circuitKey: Option<string>, now: int, failedAt: int,
    op: nat -> Result<T, JsError>, retry: RetryConfig): (run: ProtectedRun<T>)
    ensures useCircuitBreaker && TruthyText(circuitKey) ==>
      run == ExecuteWithProtection(reg, circuitKey.value, DEFAULT_CIRCUIT_CONFIG, now, failedAt, op, retry)
    ensures !(useCircuitBreaker && TruthyText(circuitKey)) ==>
      && run.breakers == reg
      && run.result == ExecuteWithRetry(op, retry).result
      && run.attempts == ExecuteWithRetry(op, retry).attempts
    ensures run.attempts <= ExecuteWithRetry(op, retry).attempts
  {
    if useCircuitBreaker && TruthyText(circuitKey) then
      ExecuteWithProtection(reg, circuitKey.value, DEFAULT_CIRCUIT_CONFIG, now, failedAt, op, retry)
    else
      var inner := ExecuteWithRetry(op, retry);
      ProtectedRun(inner.result, inner.attempts, reg)
  }

  /** `resetCircuitBreaker`: close an existing breaker; an unknown key is left absent. */
  function ResetCircuitBreaker(reg: Breakers, key: string): (reg': Breakers)
    ensures reg'.Keys == reg.Keys
    ensures key in reg ==> reg'[key].state == Closed && reg'[key].failureCount == 0
    ensures forall k :: k in reg && k != key ==> reg'[k] == reg[k]
  {
    if key in reg then reg[key := OnSuccess(reg[key])] else reg
  }

  /**
   * Wrapping the retry loop in the breaker classifies the loop's error a
   * second time, as an `EnhancedError` whose name is no longer `OpenAIError`:
   * a rate-limited LLM call whose message does not mention OpenAI reaches the
   * caller as UNKNOWN rather than RATE_LIMIT.
   */
  lemma ProtectionReclassifies()
    ensures var e := OpenAIError("Rate limit hit", Some(429), None);
      && ClassifyError(e).category == RateLimit
      && ClassifyError(AsThrown(Enhance(e))).category == Unknown
  {
    var e := OpenAIError("Rate limit hit", Some(429), None);
    assert IsOpenAIError(e);
    var t := AsThrown(Enhance(e));
    assert t.name == "EnhancedError" && t.message == "Rate limit hit";
    OutsideEveryFamily(t);
  }

  /** An error named `EnhancedError` whose message is "Rate limit hit" belongs to no family. */
  lemma OutsideEveryFamily(t: JsError)
    requires t.name == "EnhancedError" && t.message == "Rate limit hit"
    ensures ClassifyError(t).category == Unknown
  {
    NotOpenAINorNetwork(t.message);
    NotDatabase(t.message);
    NotLine(t.message);
  }

  lemma NotOpenAINorNetwork(m: string)
    requires m == "Rate limit hit"
    ensures !Contains(m, "OpenAI") && !Contains(m, "fetch") && !Contains(m, "network")
  {
    NoOccurrence(m, "OpenAI");
    NoOccurrence(m, "fetch");
    NoOccurrence(m, "network");
  }

  lemma NotDatabase(m: string)
    requires m == "Rate limit hit"
    ensures !Contains(m, "D1") && !Contains(m, "database") && !ContainsAny(m, DATABASE_ERRORS)
  {
    NoOccurrence(m, "D1");
    NoOccurrence(m, "database");
    NoneOfLongerOccur(m, DATABASE_ERRORS);
  }

  lemma NotLine(m: string)
    requires m == "Rate limit hit"
    ensures !Contains(m, "LINE") && !ContainsAny(m, LINE_ERRORS)
  {
    NoOccurrence(m, "LINE");
    NoneOfLongerOccur(m, LINE_ERRORS);
  }

  /** A pattern whose first character is absent from the text does not occur in it. */
  lemma NoOccurrence(text: string, pat: string)
    requires |pat| > 0 && pat[0] !in text
    ensures !Contains(text, pat)
  {
    forall i
      ensures !OccursAt(text, pat, i)
    {
      if 0 <= i < |text| {
        assert text[i] in text;
        assert i + |pat| <= |text| ==> text[i..i + |pat|][0] == text[i];
      }
    }
  }

  /** Patterns whose first characters are all absent from the text do not occur in it. */
  lemma NoneOfLongerOccur(text: string, pats: seq<string>)
    requires forall k :: 0 <= k < |pats| ==> |pats[k]| > 0 && pats[k][0] !in text
    ensures !ContainsAny(text, pats)
  {
    forall k | 0 <= k < |pats|
      ensures !Contains(text, pats[k])
    {
      NoOccurrence(text, pats[k]);
    }
  }
}

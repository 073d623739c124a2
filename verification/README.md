# Diary analysis back end of a LINE bot, modelled in Dafny

A user posts a diary entry to a LINE bot. The back end stores the entry and
answers with an analysis. That analysis covers the mood, the themes, the
writing patterns and a positive point. This project models the server-side
core of that flow as pure Dafny functions and proves properties of it.

One Dafny module stands for each part of the core:

- `ErrorHandler`: the error handler of `src/utils/error-handler.ts`.
  - It classifies errors into the categories rate-limit, temporary,
    permanent, network and unknown.
  - It retries with capped exponential back-off.
  - It keeps one circuit breaker per key.
  - It composes these into "protection" and `withErrorHandling`.
- `OpenAIClient`: the chat-completion client of `src/services/openai.ts`.
  - It builds the request and its defaults.
  - Each attempt can time out, fail at the transport or fail with HTTP.
  - It retries up to three times.
  - It writes the diary prompt and runs the analysis call.
- `DiaryPrompts`: the prompt text of `src/prompts/diary-analysis.ts`.
  - It writes the diary-analysis prompt.
  - It finds the JSON candidate inside a fenced reply.
  - It clamps the parsed fields to their lengths.
  - It formats the reply for the user.
- `LightAnalysis`: the keyword-based analyser of
  `src/services/light-analysis.ts`.
  - It reads mood from positive and negative keyword counts.
  - It detects themes and writing patterns.
  - It picks a positive point from templates.
  - It computes a confidence score.
  - It formats a report.
- `PerformanceMonitor`: the metrics window of
  `src/services/performance-monitor.ts`.
  - The window is bounded.
  - It computes statistics, including percentiles over a sorted copy.
  - It reports a trend over recent minutes and a health verdict.
- `SummaryCache`: the seven-day summary cache of `src/services/summary.ts`.
  - It builds the date-range key and applies the 24-hour expiry.
  - It asks the model for a summary.
  - It upserts the summary row.
- `HybridAnalysis`: the three-level pipeline of
  `src/services/hybrid-analysis.ts`.
  - Level 1 is the model plus the light analysis.
  - Level 2 is the light analysis only.
  - Level 3 is an emergency reply.
  - Time budgets decide which level runs, and each answer records a metric.
- `DiaryAnalysis`: the plain analysis flow of `src/services/analysis.ts`.
  - It validates the input and stores the entry.
  - It reads the history summary and asks the model.
  - It stores the analysis row and wraps every error as a
    `DiaryAnalysisError`.

Shared modules:

- `Wrappers`: `Option` and `Result`.
- `Errors`: the JavaScript `Error` record and JavaScript truthiness.
- `Text`: trim, `includes`/`indexOf`, split and join, truncation, decimal
  rendering.
- `Sorting`: ascending insertion sort on `real`.
- `Database`: the analysis row, where `|| null` turns an empty field into
  `NULL`.

How the outside world appears in the model:

- Everything the services await becomes a parameter of the function that
  models the service:
  - the model's reply;
  - a database failure;
  - the clock reading;
  - `performance.now()` differences.
- Sleeps are not performed. Each retry loop returns the list of waits it
  would have slept.
- Mutable service state is passed in and returned as an immutable value:
  - the circuit-breaker map;
  - the metrics history;
  - the summary, entry and analysis tables.

## Model

| member | source | states |
|---|---|---|
| ErrorHandler.ClassifyOpenAIError | src/utils/error-handler.ts:220-266 | Status 429 is rate-limit and carries the reset time. A truthy status of 500 or more is temporary. 400 to 499 is permanent. A missing, zero or sub-400 status is network. The result is retryable exactly for the transient categories. |
| ErrorHandler.ClassifyDatabaseError | src/utils/error-handler.ts:271-295 | Retryable, and then temporary, exactly when the message mentions timeout, connection or network; otherwise permanent. No status code; always the analysis-error user message. |
| ErrorHandler.ClassifyLineError | src/utils/error-handler.ts:300-335 | Uses `statusCode` or else `status`. 429 is rate-limit. A truthy value of 500 or more is temporary. Everything else is permanent. The category is never network or unknown. |
| ErrorHandler.ClassifyError | src/utils/error-handler.ts:165-215 | The error families are tried in the order OpenAI, database, LINE, network. The first that matches decides. An error that is only a network error (a timeout or abort, or a message mentioning fetch or network) is in the network category and retryable, with the temporary-issue message. The category is unknown exactly when no family matches, and then the error is not retryable. |
| ErrorHandler.CalculateDelay | src/utils/error-handler.ts:340-343 | The delay never exceeds the cap or the exponential value, and equals one of the two. |
| ErrorHandler.DelayMonotone | src/utils/error-handler.ts:340-343 | With a non-negative base and a multiplier of at least 1, the delay never shrinks from one attempt to the next. |
| ErrorHandler.DefaultDelays | src/utils/error-handler.ts:150-155 | The default configuration waits 1, 2, 4, 8 and then 10 seconds, the cap. |
| ErrorHandler.RetryWait | src/utils/error-handler.ts:408-420 | The wait is at least the back-off delay. A rate-limit error with a reset time waits at least that many seconds. Every other error waits exactly the back-off delay. |
| ErrorHandler.RetryFrom | src/utils/error-handler.ts:380-420 | Stops after at most the configured attempts. Each retried attempt failed with an error that allows a retry, and is followed by exactly its back-off wait. Success is the last attempt's value. Failure wraps the last error with its classification, and happens only when the attempts are used up or the error forbids a retry. |
| ErrorHandler.ExecuteWithRetry | src/utils/error-handler.ts:372-438 | A negative retry count makes no attempt and fails with "No operation attempted". Otherwise it makes between 1 and maxRetries+1 attempts. Only retryable failures lead to another attempt. A success returns the operation's value. |
| ErrorHandler.SucceedsAfterFailures | src/utils/error-handler.ts:380-420 | If n retryable failures are followed by a success within the budget, the result is that success after n+1 attempts. |
| ErrorHandler.ExhaustsAttempts | src/utils/error-handler.ts:380-420 | If every attempt fails retryably, all maxRetries+1 attempts run and the last error surfaces, enhanced. |
| ErrorHandler.NonRetryableFailsFast | src/utils/error-handler.ts:380-420 | A first failure that is not retryable ends the loop after one attempt, without waiting. |
| ErrorHandler.CanExecute | src/utils/error-handler.ts:79-96 | Allowed exactly when the breaker is not open or its next-attempt time has come. An open breaker whose time has come moves to half-open; otherwise the state is unchanged. |
| ErrorHandler.OnSuccess | src/utils/error-handler.ts:98-101 | Closes the breaker and clears the failure count. Leaves both timestamps as they were. |
| ErrorHandler.OnFailure | src/utils/error-handler.ts:103-111 | Counts the failure and stamps its time. Opens the breaker for one reset timeout when the count reaches the threshold; otherwise the state is unchanged. |
| ErrorHandler.BreakerInvariantPreserved | src/utils/error-handler.ts:72-111 | A fresh breaker satisfies the invariant, and every transition keeps it. The invariant: an open or half-open breaker has reached the failure threshold; a closed one has a zero count or one below the threshold. |
| ErrorHandler.HalfOpenFailureReopens | src/utils/error-handler.ts:103-111 | A failure while half-open reopens the breaker for another reset timeout. |
| ErrorHandler.ConsecutiveFailuresOpen | src/utils/error-handler.ts:103-111 | Enough consecutive failures to reach the threshold leave the breaker open until one reset timeout after the last failure. |
| ErrorHandler.GetBreaker | src/utils/error-handler.ts:355-369 | An unknown key gets a fresh closed breaker; a known key gets its stored breaker. |
| ErrorHandler.ExecuteWithCircuitBreaker | src/utils/error-handler.ts:443-477 | The operation runs exactly when the breaker allows it. A refusal fails with the non-retryable temporary "Circuit breaker is OPEN" error. Success and failure update the breaker and no other breaker in the map. |
| ErrorHandler.ExecuteWithProtection | src/utils/error-handler.ts:482-493 | The retry loop runs inside the breaker, and a refusal skips it with no attempt. When the breaker allows the call, a successful retry run is returned as is. A failed run comes back as its error enhanced once more by the breaker. The breaker for the key records that one outcome. Other keys' breakers are untouched. |
| ErrorHandler.WithErrorHandling | src/utils/error-handler.ts:567-587 | With a usable circuit key, the run is exactly protection under the default breaker settings. Without one, it is exactly the retry loop: the same result and attempts, with the breakers unchanged. |
| ErrorHandler.ResetCircuitBreaker | src/utils/error-handler.ts:537-542 | A known key's breaker is closed with a cleared count. Unknown keys add nothing, and other breakers are unchanged. |
| ErrorHandler.ProtectionReclassifies | src/utils/error-handler.ts:462-476 | The breaker re-classifies the enhanced error that the retry loop throws. An OpenAI 429 "Rate limit hit" is rate-limit when classified directly, but unknown once it has been enhanced. |
| OpenAIClient.RetryableAgainstHandler | src/services/openai.ts:106-112 | The client retries exactly those OpenAI errors that the shared handler retries and whose status is between 400 and 599, which means 429 and the 5xx statuses. The handler also retries missing, zero, sub-400 and 600+ statuses; the client does not. |
| OpenAIClient.IsRetryable | src/services/openai.ts:106-112 | A retryable error has a present, non-zero status, and the shared handler would retry it too. |
| OpenAIClient.Delay | src/services/openai.ts:90-94 | The back-off delay stays between the base delay and the cap. |
| OpenAIClient.SameBackoffAsHandler | src/services/openai.ts:90-94 | The client's back-off equals the shared handler's delay under the default retry configuration, at every attempt. |
| OpenAIClient.FirstDelays | src/services/openai.ts:73-78 | The three retries wait 1, 2 and 4 seconds. |
| OpenAIClient.BuildRequest | src/services/openai.ts:220-225 | The messages are sent unchanged. A non-empty model and a non-zero token limit are sent as given. An empty or missing model, and a zero or missing token limit, fall back to the defaults. A temperature falls back only when missing. |
| OpenAIClient.ZeroTokensReplacedZeroTemperatureKept | src/services/openai.ts:223-224 | A token limit of 0 is replaced by the default, but a temperature of 0 is kept. |
| OpenAIClient.AttemptError | src/services/openai.ts:135-205 | Every failed attempt becomes an OpenAIError. A timeout carries 408, a transport failure 0, and an HTTP failure its status and rate-limit reset header. |
| OpenAIClient.Wait | src/services/openai.ts:161-170 | A 429 with a reset header waits at least that many seconds. Every other retry waits exactly the back-off delay. |
| OpenAIClient.WillRetry | src/services/openai.ts:159-202 | A failed attempt is retried only while attempts remain. An HTTP failure is retried exactly when its error is retryable. A timeout or transport failure always is. |
| OpenAIClient.MakeRequest | src/services/openai.ts:117-207 | At most MAX_RETRIES+1 attempts, with one wait between consecutive attempts. |
| OpenAIClient.MakeRequestRetries | src/services/openai.ts:159-202 | Every attempt before the last one failed in a way that is retried at that attempt number. |
| OpenAIClient.MakeRequestOutcome | src/services/openai.ts:159-205 | A response is the result of the last attempt. A failure is that attempt's error, and it was not retried. |
| OpenAIClient.NonRetryableHttpFailsOnce | src/services/openai.ts:159-176 | A non-retryable HTTP status fails at once with one attempt and no wait. |
| OpenAIClient.PersistentTimeoutSurfaces408 | src/services/openai.ts:179-190 | When every attempt times out, four attempts run with waits of 1, 2 and 4 seconds, and the error is the timeout message with status 408. |
| OpenAIClient.TransportFailureSurfacesStatus0 | src/services/openai.ts:192-205 | A transport failure on the last attempt surfaces as an OpenAIError with status 0 and the failure's message. |
| OpenAIClient.CreateChatCompletion | src/services/openai.ts:212-229 | A failure of the retried request passes through unchanged. A body that decodes is returned as the completion. A body that does not decode fails with a SyntaxError carrying the decoder's message. |
| OpenAIClient.GenerateAnalysisPrompt | src/services/openai.ts:234-265 | The system prompt comes first. A history message comes only for a non-empty summary. The entry message ends the list. |
| OpenAIClient.PromptDeterminesEntry | src/services/openai.ts:259-262 | Equal prompts come from equal diary entries. |
| OpenAIClient.AnalyzeDiary | src/services/openai.ts:270-303 | A blank entry fails with "entry required" before any request. Otherwise the call succeeds exactly when the completion for the analysis prompt has a non-empty first choice, and returns that choice. An OpenAIError from the completion passes through. Any other failure is wrapped as an OpenAIError prefixed "Analysis failed: ". |
| OpenAIClient.BlankEntryNeverSends | src/services/openai.ts:274-276 | For a blank entry the outcome does not depend on the network at all. |
| OpenAIClient.AnalysisRequestSettings | src/services/openai.ts:281-285 | The analysis call uses the default model, 1000 tokens and temperature 0.7. |
| OpenAIClient.NewClient | src/services/openai.ts:80-85 | Construction succeeds exactly for a non-empty API key, and keeps that key. An empty key fails with "OpenAI API key is required". |
| DiaryPrompts.HistoryBlock | src/prompts/diary-analysis.ts:46-48 | The block is empty exactly when there is no non-empty summary. Otherwise it is the history heading, one line break, the summary and a blank line, and its length is exactly those parts' lengths added up. |
| DiaryPrompts.GenerateDiaryAnalysisPrompt | src/prompts/diary-analysis.ts:40-53 | The prompt ends with the diary heading and the entry. It starts with the history heading exactly when a non-empty summary is given. In that case a line break follows the heading, then the summary, then a blank line, and the length is exact. |
| DiaryPrompts.PromptIsHistoryThenDiary | src/prompts/diary-analysis.ts:40-53 | The prompt with a history summary is the history block followed by the prompt without one. |
| DiaryPrompts.FenceCapture | src/prompts/diary-analysis.ts:61-62 | There is a capture exactly when the opening marker occurs and a closing fence follows it. The capture is then the trimmed text between the first opening marker and the next fence. `JsonFenceCaptured` is the partner: it states the capture for a reply built around a fenced body. |
| DiaryPrompts.SelectedCapture | src/prompts/diary-analysis.ts:61-63 | The chosen capture, a `json` fence before a plain one, is trimmed and no longer than the response. |
| DiaryPrompts.ExtractJsonCandidate | src/prompts/diary-analysis.ts:61-66 | The text handed to the JSON parser is trimmed and no longer than the response. It is the non-empty fenced block when there is one, taking a ```json block before a plain ``` block. Otherwise it is the whole response, trimmed. |
| DiaryPrompts.NoFenceUsesWholeResponse | src/prompts/diary-analysis.ts:61-66 | A reply without a back-tick is parsed whole, trimmed. |
| DiaryPrompts.JsonFenceCaptured | src/prompts/diary-analysis.ts:61 | For a reply made of backquote-free text, a `json` fence, a backquote-free body, a closing fence and anything after it, the `json` capture is the trimmed body. |
| DiaryPrompts.JsonFenceRoundTrip | src/prompts/diary-analysis.ts:61-66 | A body wrapped in a `json` fence, with any text around it, is recovered (trimmed) as the parser's input. |
| DiaryPrompts.ParseAnalysisResult | src/prompts/diary-analysis.ts:58-90 | When all four fields parse, each is cut to its first 100, 100, 100 and 150 characters, and a shorter field is kept whole. A failed parse or a missing field yields the fixed fallback analysis. |
| DiaryPrompts.ParsedWithinLimits | src/prompts/diary-analysis.ts:73-78 | Every parsed result respects the four length limits. |
| DiaryPrompts.ParseKeepsShortFields | src/prompts/diary-analysis.ts:73-78 | Fields already within their limits come back unchanged. Cutting loses nothing that fits. |
| DiaryPrompts.FormatAnalysisForUser | src/prompts/diary-analysis.ts:95-111 | The message is fully determined: the heading, the emotion, the themes heading, the themes, the patterns heading, the patterns, the positive-points heading, the positive points and the closing line, each at its offset, and the length is the sum of those parts. |
| DiaryPrompts.FormatInjective | src/prompts/diary-analysis.ts:95-111 | Two analyses with equal field lengths and equal messages are the same analysis. |
| LightAnalysis.CountMatches | src/services/light-analysis.ts:117-124 | The count is the number of keyword positions whose keyword occurs in the text, at most the number of keywords. |
| LightAnalysis.CountMatchesAppend | src/services/light-analysis.ts:237-243 | Counting over joined keyword lists is the sum of the counts over each list. |
| LightAnalysis.AnalyzeEmotion | src/services/light-analysis.ts:112-134 | Positive exactly when positive hits outnumber negative ones. Negative in the converse case. Calm exactly on a tie. |
| LightAnalysis.OnlyPositiveWordsReadPositive | src/services/light-analysis.ts:112-134 | A text with some positive keyword and no negative one reads positive. |
| LightAnalysis.NoKeywordsReadCalm | src/services/light-analysis.ts:112-134 | A text with no mood keyword reads calm. |
| LightAnalysis.DuplicateKeywordCountsTwice | src/services/light-analysis.ts:32-37 | "むかつく" is listed twice among the negative keywords, so one occurrence already scores 2. |
| LightAnalysis.ThemeHits | src/services/light-analysis.ts:139-167 | The hits are exactly the theme indices, in increasing order, whose keyword list has a word in the text. |
| LightAnalysis.DetectedThemes | src/services/light-analysis.ts:139-167 | One label for each theme that has a matching keyword, in the order of the theme table. |
| LightAnalysis.AnalyzeThemes | src/services/light-analysis.ts:139-167 | Falls back to the everyday-themes sentence when nothing matched. Otherwise the sentence is the fixed lead, the labels and the fixed tail, with every detected label in it. Splitting the middle at "、" gives back exactly the detected labels, in table order. |
| LightAnalysis.DetectedPatterns | src/services/light-analysis.ts:172-196 | Each pattern is detected exactly under its condition. Detailed means over 300 characters, concise under 50, structured over 5 lines; questioning needs a question mark, expressive an exclamation mark. No more than four apply at once. |
| LightAnalysis.AnalyzePatterns | src/services/light-analysis.ts:172-202 | Falls back when nothing is detected. Otherwise it is the patterns followed by the fixed tail, with every detected pattern in it. Splitting what precedes the tail at "、" gives back exactly the detected patterns, in order. |
| LightAnalysis.TemplatesFor | src/services/light-analysis.ts:208-219 | Six templates apply above 200 characters; five otherwise. |
| LightAnalysis.GeneratePositivePoints | src/services/light-analysis.ts:207-224 | The point is one of the applicable templates. Up to 200 characters it is the template at the count mod 5. Beyond that it is the template at the count mod 6, and the bonus template appears exactly when that index is 5. |
| LightAnalysis.PositivePointsPeriodic | src/services/light-analysis.ts:207-224 | The choice repeats every 5 characters up to 200, and every 6 characters beyond. |
| LightAnalysis.ConfidenceScore | src/services/light-analysis.ts:229-246 | The score is at most 4. A score of 3 or more needs both over 100 characters and over 2 keyword matches. |
| LightAnalysis.CalculateConfidence | src/services/light-analysis.ts:229-250 | High from score 3, medium at 2, low below. |
| LightAnalysis.AllKeywordsCount | src/services/light-analysis.ts:237-243 | Matches over all keywords are the positive, negative and per-theme matches added up. |
| LightAnalysis.ConfidenceBounds | src/services/light-analysis.ts:229-250 | An entry of at most 100 characters is never high. Over 200 characters with over 5 matches is always high. A short entry with few matches is low. |
| LightAnalysis.LineCount | src/services/light-analysis.ts:75 | The line count is the number of line breaks plus one. |
| LightAnalysis.Analyze | src/services/light-analysis.ts:64-107 | The fallback result comes back exactly for a blank entry. Otherwise the fields are the mood, themes and patterns of the lower-cased text; the patterns see the untrimmed length and line count. The positive point and the confidence also come from the untrimmed length. The mood is one of the three moods. Five line breaks or more mark the entry as structured. The elapsed time is reported as given. |
| LightAnalysis.FieldsNonEmpty | src/services/light-analysis.ts:64-107 | Whatever the entry, the four text fields of the result are non-empty. |
| LightAnalysis.FallbackResult | src/services/light-analysis.ts:255-264 | The fallback has low confidence, the given time and non-empty texts. Its emotion is none of the three mood labels, so it cannot be mistaken for a scored result. |
| LightAnalysis.FormatForUser | src/services/light-analysis.ts:269-289 | When no field holds a line break, splitting the report at line breaks gives back its lines, so each field sits on its own line. |
| PerformanceMonitor.RecordMetrics | src/services/performance-monitor.ts:45-54 | The new sample, time-stamped now, becomes the last one, and the history never exceeds 1000 samples. Below 1000 it is appended. At 1000 only the newest 500 old samples are kept before it. |
| PerformanceMonitor.RecordKeepsRecentSamples | src/services/performance-monitor.ts:45-54 | The window is always a suffix of everything ever recorded. |
| PerformanceMonitor.LevelCountsPartition | src/services/performance-monitor.ts:95-98 | The level-1, level-2 and level-3 counts add up to the number of samples. |
| PerformanceMonitor.GetStats | src/services/performance-monitor.ts:77-110 | An empty history gives all-zero statistics, and only an empty one. Otherwise the average is the total time over the count, and the level counts partition the total. The success rate is the share of successes in percent, between 0 and 100. Both percentiles are sampled times, ordered p95 ≤ p99. Each one is the element of the sorted times at index ⌊n·95/100⌋, or ⌊n·99/100⌋ for p99. |
| PerformanceMonitor.Percentiles | src/services/performance-monitor.ts:91-108 | p95 and p99 are read at floor(0.95 n) and floor(0.99 n) of the ascending copy, are both input values, and p95 ≤ p99. |
| PerformanceMonitor.PercentilesBelowMaximum | src/services/performance-monitor.ts:91-108 | p95 ≤ p99 ≤ the slowest sample. |
| PerformanceMonitor.After | src/services/performance-monitor.ts:120-123 | The recent samples are exactly those stamped after the cutoff, and there are no more of them than samples. |
| PerformanceMonitor.AfterCounts | src/services/performance-monitor.ts:120-123 | Each sample after the cutoff is kept as many times as the buffer holds it. No other sample is kept. |
| PerformanceMonitor.AfterAppend | src/services/performance-monitor.ts:120-123 | Filtering a concatenation gives the concatenation of the filtered parts, so kept samples stay in buffer order. |
| PerformanceMonitor.TrendLabel | src/services/performance-monitor.ts:148-155 | For a positive first-half average, the trend is improving when the second half is over 10% faster, degrading when over 10% slower, and stable otherwise. When the first half averages 0, a slower second half is degrading and equal halves are stable. A negative first-half average, which non-negative times never produce, flips both comparisons, as the source's division does. |
| PerformanceMonitor.GetRecentTrend | src/services/performance-monitor.ts:115-162 | No recent samples give a zero average, a zero rate and stable. Otherwise the average and level-3 rate are over the recent samples. One sample is stable, and two or more get the label that compares the averages of the two halves. |
| PerformanceMonitor.Verdict | src/services/performance-monitor.ts:167-212 | Critical when p95 > 10 ms, success < 80% or recent level 3 > 50%. Otherwise warning when p95 > 8 ms, success < 95% or level 3 > 20%. Otherwise healthy. Critical carries the fixed advice. Warning gives the CPU hint exactly when p95 > 8 ms and the emergency hint exactly when level 3 > 20%. Healthy gives none. |
| PerformanceMonitor.EmptyMonitorIsCritical | src/services/performance-monitor.ts:172-189 | With no samples the success rate reads 0, so the verdict is critical. |
| PerformanceMonitor.GetHealthStatus | src/services/performance-monitor.ts:167-213 | The verdict is critical exactly when the statistics and the 10-minute trend meet a critical condition. It is a warning exactly when they meet no critical condition but a warning one, and healthy exactly when they meet neither. An empty buffer is critical. A verdict other than critical needs a success rate of at least 80%, a p95 time of at most 10 and a recent level-3 rate of at most 50%. A healthy verdict needs 95%, 8 and 20%, and carries no recommendations. |
| PerformanceMonitor.ClearHistory | src/services/performance-monitor.ts:218-220 | No sample is left, and the statistics read zero. |
| PerformanceMonitor.ClearHistoryForgetsSamples | src/services/performance-monitor.ts:218-220 | After clearing, the statistics are zero, the trend is flat and the verdict is critical. |
| PerformanceMonitor.FastSuccessfulMonitorIsHealthy | src/services/performance-monitor.ts:167-212 | Samples that all succeed within 8 ms without level 3 give a healthy verdict with no advice. |
| PerformanceMonitor.FastSuccessStats | src/services/performance-monitor.ts:95-108 | If every sample succeeded within 8 ms, the success rate is 100 and p95 is within 8 ms. |
| PerformanceMonitor.NoRecentLevel3 | src/services/performance-monitor.ts:134 | Without level-3 samples the recent level-3 rate is 0. |
| PerformanceMonitor.AfterNoLevel3 | src/services/performance-monitor.ts:121-134 | Filtering to recent samples introduces no level-3 sample. |
| Sorting.Sort | src/services/performance-monitor.ts:91-93 | The copy is ascending and a permutation of the processing times. |
| Sorting.Insert | src/services/performance-monitor.ts:91-93 | Inserting into an ascending list keeps it ascending and adds exactly one element. |
| Sorting.SumSort | src/services/performance-monitor.ts:102 | Sorting does not change the total of the times. |
| Sorting.SortedElementsFromInput | src/services/performance-monitor.ts:107-108 | Every element read from the sorted copy is an input time, and the last one is the maximum. |
| Text.Trim | src/services/hybrid-analysis.ts:115 | The result is a substring of the input, and only white space lies before and after it. It neither starts nor ends with white space, and it is empty exactly when the input is blank. |
| Text.TrimIdempotent | src/services/hybrid-analysis.ts:115 | Trimming twice is trimming once. |
| Text.IndexOfFrom | src/utils/error-handler.ts:167-170 | The result is the first occurrence at or after the start, or none when there is no occurrence. |
| Text.Truncate | src/prompts/diary-analysis.ts:73-78 | A prefix of at most n characters that is the whole string when it fits and exactly n characters otherwise. |
| Text.ToLower | src/services/light-analysis.ts:73 | Same length. Each letter A to Z becomes its lower-case form, 32 code points up, and every other character is kept. |
| Text.SplitShape | src/services/light-analysis.ts:75 | Splitting gives one more part than there are separators, and no part contains a separator. |
| Text.SplitJoin | src/services/light-analysis.ts:270-288 | Joining the parts of a split with the separator gives the original text. |
| Text.JoinSplit | src/services/light-analysis.ts:270-288 | Splitting a join of separator-free parts gives the parts back. |
| Text.NatToString | src/services/analysis.ts:164 | The decimal rendering is a non-empty digit string without a leading zero. |
| Text.NatToStringRoundTrip | src/services/analysis.ts:164 | Reading the digits back gives the number. |
| Text.NatToStringInjective | src/services/summary.ts:148 | Different numbers render differently. |
| SummaryCache.Upsert | src/services/database/summaries.ts:13-24 | The key holds the new content, stamped now. Every other row is unchanged, and only this key can be added. |
| SummaryCache.DateRange | src/services/summary.ts:73-79 | The key's end date is the current UTC day. The start date is seven days earlier. |
| SummaryCache.ExpiredAfterADay | src/services/summary.ts:100-103 | A row is expired exactly when it is more than 24 hours old. |
| SummaryCache.NumberedEntries | src/services/summary.ts:147-149 | Entry i is shown as "i+1. content", in order, one shown entry per entry. |
| SummaryCache.EntriesText | src/services/summary.ts:147-149 | No entries give an empty text and one entry gives its numbered line. Each further entry follows a blank line ("\n\n") under its own number. |
| SummaryCache.NumberedEntryInjective | src/services/summary.ts:147-149 | The numbered line determines both the number and the content. |
| SummaryCache.SummaryRequestDeterminesEntries | src/services/summary.ts:147-149 | Equal numbered listings come from equal entry lists. |
| SummaryCache.SummaryMessages | src/services/summary.ts:147-167 | The summary system prompt comes first. Then comes one user message: the request heading followed by the entries text, which contains every numbered entry. |
| SummaryCache.GptSummary | src/services/summary.ts:143-194 | A summary exists exactly when the reply has a non-empty first choice, and it is that choice trimmed. Failures become history-summary errors. An OpenAI error keeps its message under the API prefix, and a reply without choices gets the no-response message. |
| SummaryCache.RequestSummary | src/services/summary.ts:145-172 | Without an API key there is no request. Otherwise it is the retried chat completion of the summary messages. |
| SummaryCache.MissingKeyYieldsNoSummary | src/services/summary.ts:143-194 | A missing API key always ends without a summary. |
| SummaryCache.Expire | src/services/summary.ts:199-211 | A failed clean-up changes nothing. Otherwise the row is overwritten with blank content (as written) or deleted, and other rows are unchanged. |
| SummaryCache.GenerateNewSummary | src/services/summary.ts:115-138 | A summary is produced and stored only when there are at least 2 entries, the model answered with non-blank text and the write succeeded. Otherwise nothing is stored. |
| SummaryCache.GenerationSucceedsIff | src/services/summary.ts:121-137 | Generation succeeds exactly when all of its steps do. |
| SummaryCache.GetOrCreate | src/services/summary.ts:52-110 | A lookup failure serves nothing and changes nothing. A fresh cached row is served as is. On a miss, the result and store are those of generating a new summary. For an expired row, the same holds after its clean-up. Any served summary is the stored, unexpired row for today's range. Other users' and ranges' rows are unchanged. |
| SummaryCache.GetOrCreateSummaryAsWritten | src/services/summary.ts:199-211 | When an expired row is found and regeneration fails, a blank row stamped now is left behind. |
| SummaryCache.GetOrCreateSummary | src/services/summary.ts:103-106 | When an expired row is found and regeneration fails, no row is left for that range. |
| SummaryCache.FewEntriesNoSummary | src/services/summary.ts:121-125 | Fewer than two entries never yield a new summary. |
| SummaryCache.GeneratedSummaryIsServed | src/services/summary.ts:57-60 | A newly generated summary is served unchanged by any later call within 24 hours on the same day. |
| SummaryCache.CorrectedNeverServesBlank | src/services/summary.ts:103-106 | With expired rows deleted, the cache never holds or serves a blank summary. |
| SummaryCache.BlankRowServedAfterExpiry | src/services/summary.ts:206 | As written, a failed regeneration after expiry makes the next call that day serve "". |
| SummaryCache.BlankRowExample | src/services/summary.ts:206 | A concrete run in which the as-written service leaves a blank row. |
| SummaryCache.DeletedRowExample | src/services/summary.ts:206 | The same run with deletion leaves no row for that range. |
| Database.NullIfEmpty | src/services/database/analyses.ts:26-29 | An empty field is stored as NULL and any other field as itself. |
| Database.StoreAnalysis | src/services/database/analyses.ts:7-31 | The row belongs to the entry and user. Each text column is NULL exactly when its field was empty. |
| Database.StoredFieldsRoundTrip | src/services/database/analyses.ts:7-31 | Reading NULL back as empty recovers the four fields that were stored. |
| HybridAnalysis.ParseAIResult | src/services/hybrid-analysis.ts:384-391 | A short reply is the emotion as is. A longer one is cut to 100 characters plus an ellipsis. The other three fields come from the light analysis. |
| HybridAnalysis.ShortRepliesKeptApart | src/services/hybrid-analysis.ts:386 | Distinct replies within the limit give distinct emotions. |
| HybridAnalysis.EmotionIsBoundedPrefix | src/services/hybrid-analysis.ts:386 | The stored emotion starts with the reply's first 100 characters, or the whole reply if shorter. It is never longer than 100 characters plus the ellipsis. |
| HybridAnalysis.AiMessages | src/services/hybrid-analysis.ts:350-361 | The system prompt comes first. The user message is the entry under its heading, preceded by the past-trend section only for a non-empty summary. |
| HybridAnalysis.AiMessageEndsWithEntry | src/services/hybrid-analysis.ts:355-360 | The user message always ends with the entry. |
| HybridAnalysis.ExecuteAIAnalysis | src/services/hybrid-analysis.ts:344-379 | An empty key fails with the client's key error, and unresolved settings always fail. With a key and resolved settings, the call succeeds exactly when the model's reply has a non-empty first choice, and returns it. A failed reply passes its error through. |
| HybridAnalysis.TryLevel1 | src/services/hybrid-analysis.ts:208-264 | Giving up past 50% or 80% of the level-1 budget stores no analysis, although the summary cache may already have been written. Success stores exactly one row built from the model's reply and the light fields. The entries and the monitor are untouched. |
| HybridAnalysis.Level1NeverSucceedsAsWritten | src/services/hybrid-analysis.ts:363-367 | With the settings import unresolved, level 1 never answers. |
| HybridAnalysis.Level1SucceedsWhenEverythingWorks | src/services/hybrid-analysis.ts:214-258 | With resolved settings, in time, and with the model and write succeeding, level 1 answers. |
| HybridAnalysis.ExecuteLevel2 | src/services/hybrid-analysis.ts:269-302 | Fails only if the write fails. Otherwise it stores the light fields and replies with the light report at level 2. |
| HybridAnalysis.EmergencyMessageLines | src/services/hybrid-analysis.ts:312-321 | The emergency message consists of exactly its eight lines. |
| HybridAnalysis.ExecuteLevel3 | src/services/hybrid-analysis.ts:307-332 | Level 3 stores no analysis, has no AI time and replies with the emergency message. |
| HybridAnalysis.Fail | src/services/hybrid-analysis.ts:178-202 | A HybridAnalysisError passes through. Anything else is wrapped with the processing-failure prefix. |
| HybridAnalysis.Process | src/services/hybrid-analysis.ts:97-202 | A missing user or a blank entry fails with the input-required error. A failure stores no entry and no analysis. A success has a valid input, returns the trimmed entry and stores exactly that entry. |
| HybridAnalysis.ProcessDiaryEntryAsWritten | src/services/hybrid-analysis.ts:12 | With the settings import as written, no call is answered at level 1. |
| HybridAnalysis.ProcessDiaryEntry | src/services/hybrid-analysis.ts:125-139 | With the settings from the configuration module, a call that level 1 can serve is answered at level 1 with the model's text. |
| HybridAnalysis.AsWrittenNeverAnswersAtLevel1 | src/services/hybrid-analysis.ts:12 | As written, no diary entry is ever answered at level 1. |
| HybridAnalysis.CorrectedAnswersAtLevel1 | src/services/hybrid-analysis.ts:125-139 | With the settings imported from the right module, a call that is in time and whose model call succeeds is answered at level 1. |
| HybridAnalysis.InvalidInputRejected | src/services/hybrid-analysis.ts:110-111 | A missing user or a blank entry fails with the input-required error before anything is stored. Exactly one failed level-3 sample is recorded. |
| HybridAnalysis.EntryFailureWrapped | src/services/hybrid-analysis.ts:178-202 | A failure to store the entry is reported with the hybrid-failure prefix. No entry or analysis is stored, and the last recorded sample is a failed one at level 3. |
| HybridAnalysis.StoredEntryIsTrimmed | src/services/hybrid-analysis.ts:115 | A successful call stores the entry trimmed, exactly once. |
| HybridAnalysis.SlowEntryCutsToLevel3 | src/services/hybrid-analysis.ts:118-123 | An entry write slower than the level-3 budget goes straight to the emergency reply. Only the entry is stored, and no metric is recorded. |
| HybridAnalysis.LevelsTriedInOrder | src/services/hybrid-analysis.ts:125-176 | Level 1 answers when it can. Level 2 answers when level 1 cannot and its write succeeds. Level 3 answers otherwise. Exactly one metric is recorded per answer. |
| HybridAnalysis.Level2StoresLightFields | src/services/hybrid-analysis.ts:144-158 | A level-2 answer stores the light analysis' four fields and replies with its report. |
| HybridAnalysis.Level1RowFilled | src/services/hybrid-analysis.ts:241-245 | A level-1 row has every column filled when the light fields are non-empty. |
| HybridAnalysis.Level2RowFilled | src/services/hybrid-analysis.ts:280-289 | A level-2 row has every column filled when the light fields are non-empty. |
| HybridAnalysis.StoredRowsHaveNoNulls | src/services/hybrid-analysis.ts:241-289 | Whatever level answers, a stored row has no NULL column. |
| HybridAnalysis.WiredAnalyserFillsFields | src/services/hybrid-analysis.ts:337-339 | The light analyser the pipeline uses always fills all four fields. |
| DiaryAnalysis.GenerateSimpleSummary | src/services/analysis.ts:157-165 | The summary is empty exactly when there are no entries. |
| DiaryAnalysis.RoundedAverage | src/services/analysis.ts:162 | Math.round of total/count, stated as the integer within half of the exact mean. |
| DiaryAnalysis.TotalLengthUniform | src/services/analysis.ts:161 | Entries of equal length total that length times their number. |
| DiaryAnalysis.SimpleSummaryRoundTrip | src/services/analysis.ts:157-165 | The entry count and the rounded average can be read back from the summary sentence. |
| DiaryAnalysis.UniformEntriesAverage | src/services/analysis.ts:160-162 | Entries of equal length report that length as their average. |
| DiaryAnalysis.GetHistory | src/services/analysis.ts:115-151 | A failing or missing lookup yields no history and no write. A cached row is served. No entries give no history. A new summary is cached under today's range only when non-empty. |
| DiaryAnalysis.GetHistorySummaryAsWritten | src/services/analysis.ts:122 | As written, the history is always absent and the cache is never written. |
| DiaryAnalysis.GetHistorySummary | src/services/analysis.ts:117-137 | With the lookup that exists, a cached summary for today's range is served. |
| DiaryAnalysis.NewHistoryIsCached | src/services/analysis.ts:133-147 | Recent entries without a cached row yield the simple summary, stored under today's range. |
| DiaryAnalysis.HistoryServedAllDay | src/services/analysis.ts:117-130 | Once a history exists, later calls the same day serve it unchanged. |
| DiaryAnalysis.AnalysisMessages | src/services/analysis.ts:177-186 | The system prompt comes first. The user prompt ends with the entry and carries the history exactly when there is one. |
| DiaryAnalysis.GptFailure | src/services/analysis.ts:204-213 | Every failure becomes a DiaryAnalysisError. OpenAI errors get the API prefix and others the GPT prefix. |
| DiaryAnalysis.AnalyzeWithGPT | src/services/analysis.ts:170-213 | Succeeds exactly when there is an API key and a non-empty first choice, and then parses it. A missing choice or empty text fails with the matching message. |
| DiaryAnalysis.Rethrow | src/services/analysis.ts:100-109 | A DiaryAnalysisError passes through unchanged. Anything else is wrapped with the processing-failure prefix. |
| DiaryAnalysis.RethrowIdempotent | src/services/analysis.ts:100-109 | Wrapping twice is wrapping once. |
| DiaryAnalysis.Process | src/services/analysis.ts:66-110 | A failure never writes an analysis row. A rejected input or a failed entry write changes no table. |
| DiaryAnalysis.FailuresAreDiaryAnalysisErrors | src/services/analysis.ts:100-109 | Every failure surfaces as a DiaryAnalysisError. |
| DiaryAnalysis.InvalidInputRejected | src/services/analysis.ts:72-74 | A missing user or a blank entry fails with "User ID and diary content are required" and changes nothing. |
| DiaryAnalysis.EntryFailureWrapped | src/services/analysis.ts:100-109 | A failed entry write is reported with the processing-failure prefix. |
| DiaryAnalysis.StoredEntryIsTrimmed | src/services/analysis.ts:76-90 | A success stores the trimmed entry and one analysis row for it, and nothing else. |
| DiaryAnalysis.ReplyShowsStoredRow | src/services/analysis.ts:86-98 | The reply is the formatted analysis whose fields were stored. |
| DiaryAnalysis.EntryKeptOnLaterFailure | src/services/analysis.ts:76-109 | A failure after the entry write keeps the entry and writes no analysis row. |
| DiaryAnalysis.ModelFailureNotRewrapped | src/services/analysis.ts:103-105 | A model failure surfaces as the model step reported it. |
| DiaryAnalysis.HistoryReachesModel | src/services/analysis.ts:80-83 | The model sees the history the history step produced, and the summaries table is what that step left. |
| DiaryAnalysis.AsWrittenAnalysesWithoutHistory | src/services/analysis.ts:122 | As written, every analysis is requested without a history and the summaries table never changes. |
| DiaryAnalysis.CorrectedAnalysesWithCachedHistory | src/services/analysis.ts:117-130 | With the existing lookup, a cached summary for today's range reaches the model. |

## Left out

- Strings are sequences of Unicode scalar values. JavaScript lengths count UTF-16 units, so the two differ only for characters outside the Basic Multilingual Plane, such as emoji. That affects `.length` limits and truncation.
- `toLowerCase` is modelled for the ASCII letters A to Z only. Every keyword in the tables is lower-case kana, kanji or katakana, which are unaffected.
- Floating point: processing times are exact reals. The percentile index `Math.floor(n * 0.95)` is taken as `(95 n) / 100`. `Math.round` is stated in integers. `toFixed` is an abstract rendering parameter.
- `JSON.parse` is an abstract parameter of `DiaryPrompts.ParseAnalysisResult`. Its grammar is not modelled, only what happens with its result.
- The clocks (`Date.now`, `new Date()`, `performance.now()`), `setTimeout` sleeps and the `fetch` call are parameters. The sleeps are returned as lists of waits.
- Promises run one after another. Nothing concurrent is modelled.
- Logging (`console.*`, `logError`) has no observable effect here and is left out.
- Database ids and SQLite's `CURRENT_TIMESTAMP` are parameters. The SQL filter of `getRecentEntries` is not modelled; the recent entries are a parameter.
- The neutral keyword list is never read by the code and is left out.
- `exportMetricsAsCSV`, `getUserMessageFromError`, `getAllCircuitBreakerStatus`, `getCircuitBreakerStatus` and `getSummaryStats` are reporting helpers and are left out.
- `testConnection`, `getRecentAnalyses` and `getAnalysisByEntryId` are pass-through queries and are left out.
- The factory functions `create…Service` and `getPerformanceMonitor` only construct objects and are left out.
- The `cpuUsage` and `memoryUsage` fields of a metric are optional, and the code never sets them.
- The circuit breaker's `monitoringPeriod` is configured but never read.
- The texts of `src/constants/messages.ts` are modelled as named constants. Only their distinctness and single-line shape matter to the proofs.
- `LightAnalysis.Analyze`: the `catch` block is not modelled, because nothing in the `try` throws for a string argument.
- `LightAnalysis.GeneratePositivePoints` has no `emotion` parameter: the source's is unused.
- Throws of values that are not `Error` objects are modelled as `Error`s.
- The webhook handlers, LINE messaging, the signature check, the scheduled jobs and the asynchronous analysis path are not part of this model.
- `ErrorHandler.RetryFrom` merges the three checks that stop the loop: not retryable, attempts exhausted, `retryCondition` refuses. The outcome is the same, because each check throws the same enhanced error.
- The summary upsert always sets `updated_at = CURRENT_TIMESTAMP`, whether or not the content changed, and `SummaryCache.Upsert` always stamps the row.
- The code has no de-duplication of analyses in flight and no repair of malformed JSON, so neither is modelled.
- `OpenAIClient.Completion` holds each choice as its message text, so a decoded choice without a `message` object cannot be represented. In the source, `response.choices[0].message.content` then throws a `TypeError`, and `analyzeDiary` wraps it as an "Analysis failed: …" error (src/services/openai.ts:291).

## Findings

| source | as written | input that shows it | evidently intended | confidence | as-written member | corrected member |
|---|---|---|---|---|---|---|
| src/services/analysis.ts:122 | `getHistorySummary` calls `summaryService.getSummary`, which `SummaryService` does not define. The call throws a TypeError, the catch returns `undefined`, and the history is never used or cached. | Any valid entry while a summary for today's range is cached. | Look the range up with `getByDateRange`, the lookup the service provides. | not executed | DiaryAnalysis.AsWrittenAnalysesWithoutHistory | DiaryAnalysis.CorrectedAnalysesWithCachedHistory |
| src/services/hybrid-analysis.ts:12 | `OPTIMIZED_AI_CONFIG` is imported from `@/constants/messages`, which does not export it; it lives in `src/constants/config.ts`. Reading `.MAX_TOKENS` from `undefined` throws, so level 1 always falls through to level 2. | Any entry stored in time with a working model. | Import the settings from the configuration module, so that level 1 can answer. | not executed | HybridAnalysis.AsWrittenNeverAnswersAtLevel1 | HybridAnalysis.CorrectedAnswersAtLevel1 |
| src/services/summary.ts:206 | Expiry "deletes" the row by overwriting it with `''`. The blank row is fresh and truthy at line 58, so the same day's next call serves `''` and generation is blocked for 24 hours. | An expired row, then a failed regeneration (for example fewer than two entries), then another call that day. | Delete the expired row, so that no blank summary is ever cached or served. | not executed | SummaryCache.BlankRowServedAfterExpiry | SummaryCache.CorrectedNeverServesBlank |

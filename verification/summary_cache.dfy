/**
 * The seven-day history summary and its cache (`HistorySummaryService`).
 *
 * The `summaries` table is an abstract map keyed by (user, start date, end
 * date); writing a key replaces its content and stamps the write time, as the
 * `INSERT … ON CONFLICT … DO UPDATE` statement of `SummaryService.create`
 * does. The clock, the database faults, the recent entries and the language
 * model are parameters.
 */
module SummaryCache {
  import opened Wrappers
  import opened Text
  import opened Errors
  import OpenAIClient

  // ---------------------------------------------------------------------------
  // The store
  // ---------------------------------------------------------------------------

  const MS_PER_HOUR: int := 3600000
  const MS_PER_DAY: int := 86400000
  const CACHE_DURATION_HOURS: int := 24
  const MIN_ENTRIES_FOR_SUMMARY: nat := 2
  const WINDOW_DAYS: int := 7

  /** The table's unique key; dates are UTC day numbers (days since 1970-01-01). */
  datatype Key = Key(userId: string, startDate: int, endDate: int)

  /** A stored summary: its content and `updated_at` in milliseconds. */
  datatype Row = Row(content: string, updatedAt: int)

  type Store = map<Key, Row>

  /** `SummaryService.create`: insert, or on a key conflict replace the content and bump `updated_at`. */
  function Upsert(store: Store, key: Key, content: string, now: int): (r: Store)
    ensures key in r && r[key] == Row(content, now)
    ensures r.Keys == store.Keys + {key}
    ensures forall k :: k in store && k != key ==> r[k] == store[k]
  {
    store[key := Row(content, now)]
  }

  /** The UTC calendar day of a millisecond timestamp (`toISOString().split('T')[0]`). */
  function Day(t: int): int {
    t / MS_PER_DAY
  }

  /** `getDateRange`: from the day seven days ago to today. */
  function DateRange(userId: string, now: int): (k: Key)
    ensures k.userId == userId
    ensures k.endDate - k.startDate == WINDOW_DAYS
    ensures k.endDate * MS_PER_DAY <= now < (k.endDate + 1) * MS_PER_DAY
  {
    Key(userId, Day(now - WINDOW_DAYS * MS_PER_DAY), Day(now))
  }

  /** `getValidCachedSummary`'s age test: the age in hours exceeds 24. */
  predicate Expired(row: Row, now: int) {
    (now - row.updatedAt) as real / (MS_PER_HOUR as real) > CACHE_DURATION_HOURS as real
  }

  /** A row expires exactly when it was written more than a day before `now`. */
  lemma ExpiredAfterADay(row: Row, now: int)
    ensures Expired(row, now) <==> now - row.updatedAt > MS_PER_DAY
  {
    var age := (now - row.updatedAt) as real;
    assert age / 3600000.0 > 24.0 <==> age > 86400000.0;
  }

  // ---------------------------------------------------------------------------
  // The summary request
  // ---------------------------------------------------------------------------

  const SUMMARY_SYSTEM_PROMPT: string :=
    "あなたは日記要約の専門家です。過去7日間の日記投稿を分析し、感情傾向・主要テーマ・思考パターン・成長ポイントを150文字程度で簡潔に要約してください。\n\n"
    + "要約には以下の要素を含めてください：\n"
    + "- 主な感情傾向（ポジティブ/ネガティブ/変化）\n"
    + "- 繰り返し言及されるテーマや関心事\n"
    + "- 行動パターンや思考の特徴\n"
    + "- 成長や変化の兆し\n\n"
    + "簡潔で具体的な要約を作成してください。"

  const SUMMARY_REQUEST_HEAD: string := "以下の過去7日間の日記投稿を要約してください：\n\n"
  const ENTRY_SEPARATOR: string := "\n\n"
  const NUMBER_MARK: string := ". "

  /** The options of the summary request: the default model, 200 tokens, temperature 0.7. */
  const SUMMARY_OPTIONS: OpenAIClient.ChatOptions :=
    OpenAIClient.ChatOptions(Some(OpenAIClient.DEFAULT_MODEL), Some(200), Some(0.7))

  /** One entry as listed in the request: its 1-based position, a dot, a space and the content. */
  function NumberedEntry(position: nat, content: string): string {
    NatToString(position) + NUMBER_MARK + content
  }

  /** The listed entries, numbered from 1 in the order the query returned them. */
  function NumberedEntries(entries: seq<string>): (r: seq<string>)
    ensures |r| == |entries|
    ensures forall i :: 0 <= i < |r| ==> r[i] == NumberedEntry(i + 1, entries[i])
  {
    seq(|entries|, i requires 0 <= i < |entries| => NumberedEntry(i + 1, entries[i]))
  }

  /** A listed line determines both its number and its entry. */
  lemma NumberedEntryInjective(m: nat, a: string, n: nat, b: string)
    requires NumberedEntry(m, a) == NumberedEntry(n, b)
    ensures m == n && a == b
  {
    var sm, sn := NatToString(m), NatToString(n);
    var line := NumberedEntry(m, a);
    DigitRunEndsAt(sm, NUMBER_MARK + a);
    DigitRunEndsAt(sn, NUMBER_MARK + b);
    assert line == sm + (NUMBER_MARK + a) == sn + (NUMBER_MARK + b);
    assert sm == line[..|sm|] == sn;
    NatToStringInjective(m, n);
    assert a == line[|sm| + 2..] == b;
  }

  /**
   * `entriesText`: the numbered entries separated by blank lines; nothing for
   * no entries, the first line alone for one, and each further entry after a
   * blank line under its own number.
   */
  function EntriesText(entries: seq<string>): (t: string)
    ensures |entries| == 0 ==> t == ""
    ensures |entries| == 1 ==> t == NumberedEntry(1, entries[0])
    ensures |entries| > 1 ==>
      t == EntriesText(entries[..|entries| - 1]) + ENTRY_SEPARATOR + NumberedEntry(|entries|, entries[|entries| - 1])
  {
    if |entries| <= 1 then JoinWith(NumberedEntries(entries), ENTRY_SEPARATOR)
    else
      var n := |entries|;
      assert NumberedEntries(entries) == NumberedEntries(entries[..n - 1]) + [NumberedEntry(n, entries[n - 1])];
      JoinSnoc(NumberedEntries(entries[..n - 1]), NumberedEntry(n, entries[n - 1]), ENTRY_SEPARATOR);
      JoinWith(NumberedEntries(entries), ENTRY_SEPARATOR)
  }

  /** The two messages of the summary request. */
  function SummaryMessages(entries: seq<string>): (r: seq<OpenAIClient.Message>)
    ensures |r| == 2
    ensures r[0] == OpenAIClient.Message(OpenAIClient.System, SUMMARY_SYSTEM_PROMPT)
    ensures r[1] == OpenAIClient.Message(OpenAIClient.User, SUMMARY_REQUEST_HEAD + EntriesText(entries))
    ensures forall i :: 0 <= i < |entries| ==> Contains(r[1].content, NumberedEntry(i + 1, entries[i]))
  {
    var user := SUMMARY_REQUEST_HEAD + EntriesText(entries);
    forall i | 0 <= i < |entries|
      ensures Contains(user, NumberedEntry(i + 1, entries[i]))
    {
      JoinedPartInContext(SUMMARY_REQUEST_HEAD, NumberedEntries(entries), ENTRY_SEPARATOR, "", i);
      assert SUMMARY_REQUEST_HEAD + EntriesText(entries) + "" == user;
    }
    [OpenAIClient.Message(OpenAIClient.System, SUMMARY_SYSTEM_PROMPT), OpenAIClient.Message(OpenAIClient.User, user)]
  }

  /** Two lists of entries with the same request are the same list. */
  lemma SummaryRequestDeterminesEntries(a: seq<string>, b: seq<string>)
    requires NumberedEntries(a) == NumberedEntries(b)
    ensures a == b
  {
    forall i | 0 <= i < |a|
      ensures a[i] == b[i]
    {
      NumberedEntryInjective(i + 1, a[i], i + 1, b[i]);
    }
  }

  // ---------------------------------------------------------------------------
  // generateGPTSummary
  // ---------------------------------------------------------------------------

  const NO_RESPONSE: string := "OpenAI APIからのレスポンスがありません"
  const EMPTY_RESPONSE: string := "OpenAI APIからの空のレスポンス"
  const OPENAI_FAILURE_PREFIX: string := "OpenAI API error: "
  const GENERATION_FAILURE_PREFIX: string := "GPT summary generation failed: "

  /** `new HistorySummaryError(message)`: it carries the name `DiaryAnalysisError`. */
  function HistorySummaryError(message: string): JsError {
    JsError(DIARY_ANALYSIS_ERROR, message, None, None, None)
  }

  /**
   * `generateGPTSummary` from the outcome of the completion call: the first
   * choice trimmed. Its own "no response" and "empty response" errors are
   * thrown inside the `try` and so are wrapped a second time by its `catch`.
   */
  function GptSummary(reply: Result<OpenAIClient.Completion, JsError>): (r: Result<string, JsError>)
    ensures r.Success? <==> reply.Success? && reply.value.choices.Some?
                            && |reply.value.choices.value| > 0 && reply.value.choices.value[0] != ""
    ensures r.Success? ==> r.value == Trim(reply.value.choices.value[0])
    ensures r.Failure? ==> r.error.name == DIARY_ANALYSIS_ERROR
    ensures reply.Failure? && reply.error.name == OPENAI_ERROR ==>
              r == Failure(HistorySummaryError(OPENAI_FAILURE_PREFIX + reply.error.message))
    ensures reply.Success? && (reply.value.choices.None? || |reply.value.choices.value| == 0) ==>
              r == Failure(HistorySummaryError(GENERATION_FAILURE_PREFIX + NO_RESPONSE))
  {
    match reply
    case Failure(e) =>
      if e.name == OPENAI_ERROR then Failure(HistorySummaryError(OPENAI_FAILURE_PREFIX + e.message))
      else Failure(HistorySummaryError(GENERATION_FAILURE_PREFIX + e.message))
    case Success(completion) =>
      if completion.choices.None? || |completion.choices.value| == 0 then
        Failure(HistorySummaryError(GENERATION_FAILURE_PREFIX + NO_RESPONSE))
      else if completion.choices.value[0] == "" then
        Failure(HistorySummaryError(GENERATION_FAILURE_PREFIX + EMPTY_RESPONSE))
      else Success(Trim(completion.choices.value[0]))
  }

  /**
   * The summary call as `generateGPTSummary` makes it: create the client
   * (which refuses an empty key) and request a completion.
   */
  function RequestSummary(entries: seq<string>, apiKey: string,
                          send: (OpenAIClient.ChatRequest, nat) -> OpenAIClient.FetchOutcome,
                          decode: string -> Result<OpenAIClient.Completion, string>): (r: Result<OpenAIClient.Completion, JsError>)
    ensures apiKey == "" ==> r.Failure? && r.error.name == OPENAI_ERROR
    ensures apiKey != "" ==> r == OpenAIClient.CreateChatCompletion(SummaryMessages(entries), SUMMARY_OPTIONS, send, decode)
  {
    match OpenAIClient.NewClient(apiKey)
    case Failure(e) => Failure(e)
    case Success(_) => OpenAIClient.CreateChatCompletion(SummaryMessages(entries), SUMMARY_OPTIONS, send, decode)
  }

  /** A missing API key surfaces as a wrapped OpenAI error, so no summary is made. */
  lemma MissingKeyYieldsNoSummary(entries: seq<string>,
                                  send: (OpenAIClient.ChatRequest, nat) -> OpenAIClient.FetchOutcome,
                                  decode: string -> Result<OpenAIClient.Completion, string>)
    ensures GptSummary(RequestSummary(entries, "", send, decode))
            == Failure(HistorySummaryError(OPENAI_FAILURE_PREFIX + "OpenAI API key is required"))
  {
  }

  // ---------------------------------------------------------------------------
  // getOrCreateSummary
  // ---------------------------------------------------------------------------

  /**
   * What the database and the model do during one call: whether the cache
   * lookup, the expiry write or the final write throw, what the recent-entries
   * query returns (`None` when it throws), and the completion outcome for
   * given request messages.
   */
  datatype Backend = Backend(
    lookupFails: bool,
    cleanupFails: bool,
    recentEntries: Option<seq<string>>,
    complete: seq<OpenAIClient.Message> -> Result<OpenAIClient.Completion, JsError>,
    saveFails: bool)

  /** What happens to an expired row: overwritten with `''` as the code does, or removed. */
  datatype ExpiryPolicy = OverwriteBlank | Delete

  /** The value returned (`undefined` as `None`) and the store afterwards. */
  datatype SummaryRun = SummaryRun(result: Option<string>, store: Store)

  /** `cleanupExpiredCache`: a failed write is swallowed and leaves the store as it was. */
  function Expire(store: Store, key: Key, now: int, policy: ExpiryPolicy, fails: bool): (r: Store)
    ensures fails ==> r == store
    ensures !fails && policy == OverwriteBlank ==> r == Upsert(store, key, "", now)
    ensures !fails && policy == Delete ==> key !in r && r.Keys == store.Keys - {key}
    ensures forall k :: k in store && k != key ==> k in r && r[k] == store[k]
    ensures forall k :: k in r && k != key ==> k in store
  {
    if fails then store
    else match policy
      case OverwriteBlank => Upsert(store, key, "", now)
      case Delete => store - {key}
  }

  /** `generateNewSummary`: at least two recent entries, a non-empty trimmed reply, then save it. */
  function GenerateNewSummary(store: Store, key: Key, now: int, b: Backend): (r: SummaryRun)
    ensures r.result.None? ==> r.store == store
    ensures r.result.Some? ==>
              && b.recentEntries.Some? && |b.recentEntries.value| >= MIN_ENTRIES_FOR_SUMMARY
              && !b.saveFails
              && GptSummary(b.complete(SummaryMessages(b.recentEntries.value))) == Success(r.result.value)
              && r.result.value != ""
              && r.store == Upsert(store, key, r.result.value, now)
  {
    match b.recentEntries
    case None => SummaryRun(None, store)
    case Some(entries) =>
      if |entries| < MIN_ENTRIES_FOR_SUMMARY then SummaryRun(None, store)
      else match GptSummary(b.complete(SummaryMessages(entries)))
        case Failure(_) => SummaryRun(None, store)
        case Success(s) =>
          if s == "" || b.saveFails then SummaryRun(None, store)
          else SummaryRun(Some(s), Upsert(store, key, s, now))
  }

  /** The generation step succeeds exactly when every part of it does. */
  lemma GenerationSucceedsIff(store: Store, key: Key, now: int, b: Backend)
    ensures GenerateNewSummary(store, key, now, b).result.Some? <==>
              && b.recentEntries.Some? && |b.recentEntries.value| >= MIN_ENTRIES_FOR_SUMMARY
              && !b.saveFails
              && var g := GptSummary(b.complete(SummaryMessages(b.recentEntries.value)));
                 g.Success? && !IsBlank(b.complete(SummaryMessages(b.recentEntries.value)).value.choices.value[0])
  {
    if b.recentEntries.Some? && |b.recentEntries.value| >= MIN_ENTRIES_FOR_SUMMARY {
      var g := GptSummary(b.complete(SummaryMessages(b.recentEntries.value)));
      if g.Success? {
        var reply := b.complete(SummaryMessages(b.recentEntries.value)).value.choices.value[0];
        assert g.value == Trim(reply);
      }
    }
  }

  /**
   * `getOrCreateSummary` under an expiry policy. Nothing escapes: every
   * thrown error becomes `None`.
   */
  function GetOrCreate(store: Store, userId: string, now: int, b: Backend, policy: ExpiryPolicy): (r: SummaryRun)
    ensures var key := DateRange(userId, now);
      && (forall k :: k != key ==> (k in r.store <==> k in store))
      && (forall k :: k != key && k in store ==> r.store[k] == store[k])
      && (b.lookupFails ==> r == SummaryRun(None, store))
      && (!b.lookupFails && key in store && !Expired(store[key], now) ==> r == SummaryRun(Some(store[key].content), store))
      && (r.result.Some? ==> key in r.store && r.store[key].content == r.result.value && !Expired(r.store[key], now))
      && (!b.lookupFails && key !in store ==> r == GenerateNewSummary(store, key, now, b))
      && (!b.lookupFails && key in store && Expired(store[key], now) ==>
            r == GenerateNewSummary(Expire(store, key, now, policy, b.cleanupFails), key, now, b))
  {
    var key := DateRange(userId, now);
    if b.lookupFails then SummaryRun(None, store)
    else if key in store && !Expired(store[key], now) then SummaryRun(Some(store[key].content), store)
    else
      var cleaned := if key in store then Expire(store, key, now, policy, b.cleanupFails) else store;
      GenerateNewSummary(cleaned, key, now, b)
  }

  /** The service as written: an expired row is overwritten with `''`. */
  function GetOrCreateSummaryAsWritten(store: Store, userId: string, now: int, b: Backend): (r: SummaryRun)
    ensures var key := DateRange(userId, now);
      && (!b.lookupFails && key in store && Expired(store[key], now) && !b.cleanupFails && r.result.None? ==>
            key in r.store && r.store[key] == Row("", now))
  {
    GetOrCreate(store, userId, now, b, OverwriteBlank)
  }

  /** The service with expiry as its comment describes it: the expired row is deleted. */
  function GetOrCreateSummary(store: Store, userId: string, now: int, b: Backend): (r: SummaryRun)
    ensures var key := DateRange(userId, now);
      && (!b.lookupFails && key in store && Expired(store[key], now) && !b.cleanupFails && r.result.None? ==>
            key !in r.store)
  {
    GetOrCreate(store, userId, now, b, Delete)
  }

  /** On a miss, fewer than two recent entries give no summary and no write besides the expiry. */
  lemma FewEntriesNoSummary(store: Store, userId: string, now: int, b: Backend, policy: ExpiryPolicy)
    requires b.recentEntries.Some? && |b.recentEntries.value| < MIN_ENTRIES_FOR_SUMMARY
    ensures var key := DateRange(userId, now);
      var r := GetOrCreate(store, userId, now, b, policy);
      && (key !in store ==> r == SummaryRun(None, store))
      && (key in store && Expired(store[key], now) && !b.lookupFails ==>
            r == SummaryRun(None, Expire(store, key, now, policy, b.cleanupFails)))
  {
  }

  /**
   * A summary made at `now` is served unchanged by any later call within
   * 24 hours on the same day range, whatever the entries and the model do then.
   */
  lemma {:induction false} GeneratedSummaryIsServed(store: Store, userId: string, now: int, b1: Backend,
                                                    later: int, b2: Backend, policy: ExpiryPolicy)
    requires var key := DateRange(userId, now); key !in store || Expired(store[key], now)
    requires GetOrCreate(store, userId, now, b1, policy).result.Some?
    requires now <= later <= now + MS_PER_DAY && DateRange(userId, later) == DateRange(userId, now)
    requires !b2.lookupFails
    ensures var r1 := GetOrCreate(store, userId, now, b1, policy);
      GetOrCreate(r1.store, userId, later, b2, policy) == r1
  {
    var key := DateRange(userId, now);
    var r1 := GetOrCreate(store, userId, now, b1, policy);
    var cleaned := if key in store then Expire(store, key, now, policy, b1.cleanupFails) else store;
    assert r1 == GenerateNewSummary(cleaned, key, now, b1);
    assert r1.store[key] == Row(r1.result.value, now);
    ExpiredAfterADay(r1.store[key], later);
  }

  /** No stored row has empty content. */
  predicate NoBlankRows(store: Store) {
    forall k :: k in store ==> store[k].content != ""
  }

  /**
   * With deletion on expiry the cache never holds an empty summary, so the
   * service never returns one.
   */
  lemma CorrectedNeverServesBlank(store: Store, userId: string, now: int, b: Backend)
    requires NoBlankRows(store)
    ensures var r := GetOrCreateSummary(store, userId, now, b);
      NoBlankRows(r.store) && (r.result.Some? ==> r.result.value != "")
  {
    var r := GetOrCreateSummary(store, userId, now, b);
    var key := DateRange(userId, now);
    forall k | k in r.store
      ensures r.store[k].content != ""
    {
      if k != key {
        assert k in store;
      }
    }
  }

  /**
   * As written, a call whose generation fails after an expiry leaves an
   * empty row, and every call within the next 24 hours on the same day range
   * returns `''` instead of summarising, whatever the entries and the model do.
   */
  lemma {:induction false} BlankRowServedAfterExpiry(store: Store, userId: string, now: int, b1: Backend,
                                                     later: int, b2: Backend)
    requires var key := DateRange(userId, now); key in store && Expired(store[key], now)
    requires !b1.lookupFails && !b1.cleanupFails
    requires GetOrCreateSummaryAsWritten(store, userId, now, b1).result.None?
    requires now <= later <= now + MS_PER_DAY && DateRange(userId, later) == DateRange(userId, now)
    requires !b2.lookupFails
    ensures GetOrCreateSummaryAsWritten(GetOrCreateSummaryAsWritten(store, userId, now, b1).store, userId, later, b2).result == Some("")
  {
    var key := DateRange(userId, now);
    var r1 := GetOrCreateSummaryAsWritten(store, userId, now, b1);
    assert r1.store[key] == Row("", now);
    ExpiredAfterADay(r1.store[key], later);
  }

  /** The expired row of the concrete runs below: written at time 0, looked up two days later. */
  const EXAMPLE_NOW: int := 2 * MS_PER_DAY + 1000
  const EXAMPLE_KEY: Key := Key("u", -5, 2)
  const EXAMPLE_STORE: Store := map[EXAMPLE_KEY := Row("old", 0)]

  /** One recent entry: too few to summarise. */
  const FEW_ENTRIES: Backend := Backend(false, false, Some(["a"]), _ => Failure(PlainError("unused")), false)

  /** Two recent entries and a model that answers "summary". */
  const ENOUGH_ENTRIES: Backend :=
    Backend(false, false, Some(["a", "b"]), _ => Success(OpenAIClient.Completion(Some(["summary"]))), false)

  /** As written: after the expiry, a minute later the empty row is served instead of a new summary. */
  lemma BlankRowExample()
    ensures GetOrCreateSummaryAsWritten(
              GetOrCreateSummaryAsWritten(EXAMPLE_STORE, "u", EXAMPLE_NOW, FEW_ENTRIES).store,
              "u", EXAMPLE_NOW + 60000, ENOUGH_ENTRIES).result == Some("")
  {
    assert DateRange("u", EXAMPLE_NOW) == EXAMPLE_KEY;
    assert DateRange("u", EXAMPLE_NOW + 60000) == EXAMPLE_KEY;
    ExpiredAfterADay(EXAMPLE_STORE[EXAMPLE_KEY], EXAMPLE_NOW);
    BlankRowServedAfterExpiry(EXAMPLE_STORE, "u", EXAMPLE_NOW, FEW_ENTRIES, EXAMPLE_NOW + 60000, ENOUGH_ENTRIES);
  }

  /** With deletion, the same two calls produce the new summary. */
  lemma DeletedRowExample()
    ensures GetOrCreateSummary(
              GetOrCreateSummary(EXAMPLE_STORE, "u", EXAMPLE_NOW, FEW_ENTRIES).store,
              "u", EXAMPLE_NOW + 60000, ENOUGH_ENTRIES).result == Some("summary")
  {
    assert DateRange("u", EXAMPLE_NOW) == EXAMPLE_KEY;
    assert DateRange("u", EXAMPLE_NOW + 60000) == EXAMPLE_KEY;
    ExpiredAfterADay(EXAMPLE_STORE[EXAMPLE_KEY], EXAMPLE_NOW);
    assert GetOrCreateSummary(EXAMPLE_STORE, "u", EXAMPLE_NOW, FEW_ENTRIES).store == map[];
    assert Trim("summary") == "summary" by {
      assert !IsSpace('s') && !IsSpace('y');
    }
  }
}

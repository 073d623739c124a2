/**
 * The in-memory metrics buffer of `src/services/performance-monitor.ts`:
 * a bounded list of request samples, statistics over a sorted copy of the
 * processing times, a recent-trend label and a three-way health verdict.
 *
 * Timestamps are milliseconds since the epoch; the current time is a
 * parameter. Processing times are exact reals.
 */
module PerformanceMonitor {
  import opened Wrappers
  import Sorting

  /** `analysisLevel: 1 | 2 | 3`. */
  type AnalysisLevel = l: int | 1 <= l <= 3 witness 1

  /** `PerformanceMetrics`, without the optional CPU and memory fields nothing reads. */
  datatype Sample = Sample(
    timestamp: int,
    userId: string,
    totalProcessingTimeMs: real,
    analysisLevel: AnalysisLevel,
    entryLength: nat,
    success: bool,
    errorType: Option<string>)

  const MAX_METRICS_HISTORY: nat := 1000
  const KEPT_ON_OVERFLOW: nat := 500

  /** The service's state: the samples, oldest first. */
  datatype Monitor = Monitor(metrics: seq<Sample>)

  const EMPTY_MONITOR: Monitor := Monitor([])

  // ---------------------------------------------------------------------------
  // Recording
  // ---------------------------------------------------------------------------

  /**
   * `recordMetrics`: a full buffer first drops all but its last 500 samples;
   * the new sample is appended with its timestamp replaced by `now`.
   */
  function RecordMetrics(m: Monitor, sample: Sample, now: int): (r: Monitor)
    ensures |r.metrics| <= MAX_METRICS_HISTORY
    ensures |r.metrics| > 0 && r.metrics[|r.metrics| - 1] == sample.(timestamp := now)
    ensures |m.metrics| < MAX_METRICS_HISTORY ==> r.metrics == m.metrics + [sample.(timestamp := now)]
    ensures |m.metrics| >= MAX_METRICS_HISTORY ==>
      |r.metrics| == KEPT_ON_OVERFLOW + 1
      && r.metrics[..KEPT_ON_OVERFLOW] == m.metrics[|m.metrics| - KEPT_ON_OVERFLOW..]
  {
    var kept := if |m.metrics| >= MAX_METRICS_HISTORY then m.metrics[|m.metrics| - KEPT_ON_OVERFLOW..] else m.metrics;
    Monitor(kept + [sample.(timestamp := now)])
  }

  /**
   * Recording keeps the buffer a run of the most recent samples: if it held
   * the last samples of everything recorded so far, it then holds the last
   * samples of that history with the new stamped sample appended.
   */
  lemma RecordKeepsRecentSamples(m: Monitor, history: seq<Sample>, k: nat, sample: Sample, now: int)
    requires k <= |history| && m.metrics == history[k..]
    ensures var h := history + [sample.(timestamp := now)];
      var r := RecordMetrics(m, sample, now).metrics;
      |r| <= |h| && r == h[|h| - |r|..]
  {
    var x := sample.(timestamp := now);
    var n := |m.metrics|;
    var j := if n >= MAX_METRICS_HISTORY then n - KEPT_ON_OVERFLOW else 0;
    var r := RecordMetrics(m, sample, now).metrics;
    assert r == m.metrics[j..] + [x];
    TailOfTail(history, k, j, x);
  }

  lemma TailOfTail<T>(s: seq<T>, k: nat, j: nat, x: T)
    requires k <= |s| && j <= |s| - k
    ensures s[k..][j..] + [x] == (s + [x])[k + j..]
  {
  }

  /** `clearHistory`: no sample is kept, so the statistics start again from zero. */
  function ClearHistory(m: Monitor): (r: Monitor)
    ensures r.metrics == []
    ensures GetStats(r) == ZERO_STATS
  {
    EMPTY_MONITOR
  }

  // ---------------------------------------------------------------------------
  // Statistics
  // ---------------------------------------------------------------------------

  /** `PerformanceStats`. */
  datatype Stats = Stats(
    totalRequests: nat,
    averageProcessingTime: real,
    level1Count: nat,
    level2Count: nat,
    level3Count: nat,
    successRate: real,
    p95ProcessingTime: real,
    p99ProcessingTime: real)

  const ZERO_STATS: Stats := Stats(0, 0.0, 0, 0, 0, 0.0, 0.0, 0.0)

  /** The processing times, in buffer order. */
  function Times(s: seq<Sample>): (t: seq<real>)
    ensures |t| == |s| && forall i :: 0 <= i < |s| ==> t[i] == s[i].totalProcessingTimeMs
  {
    seq(|s|, i requires 0 <= i < |s| => s[i].totalProcessingTimeMs)
  }

  function CountLevel(s: seq<Sample>, level: AnalysisLevel): (n: nat)
    ensures n <= |s|
  {
    if |s| == 0 then 0
    else (if s[0].analysisLevel == level then 1 else 0) + CountLevel(s[1..], level)
  }

  function CountSuccess(s: seq<Sample>): (n: nat)
    ensures n <= |s|
  {
    if |s| == 0 then 0
    else (if s[0].success then 1 else 0) + CountSuccess(s[1..])
  }

  /** Every sample has exactly one of the three levels. */
  lemma {:induction false} LevelCountsPartition(s: seq<Sample>)
    ensures CountLevel(s, 1) + CountLevel(s, 2) + CountLevel(s, 3) == |s|
  {
    if |s| > 0 {
      LevelCountsPartition(s[1..]);
    }
  }

  /** `Math.floor(n * 0.95)` and `Math.floor(n * 0.99)`, in exact arithmetic. */
  function PercentileIndex(n: nat, percent: nat): (i: nat)
    requires percent < 100
    ensures n > 0 ==> i < n
  {
    n * percent / 100
  }

  /**
   * `getStats`: zeros for an empty buffer; otherwise the mean time, the
   * level counts, the success percentage and two percentiles of the
   * ascending times.
   */
  function GetStats(m: Monitor): (r: Stats)
    ensures |m.metrics| == 0 <==> r == ZERO_STATS
    ensures r.totalRequests == |m.metrics|
    ensures r.level1Count + r.level2Count + r.level3Count == r.totalRequests
    ensures r.level1Count == CountLevel(m.metrics, 1) && r.level2Count == CountLevel(m.metrics, 2)
    ensures r.level3Count == CountLevel(m.metrics, 3)
    ensures |m.metrics| > 0 ==>
      && r.averageProcessingTime == Sorting.Sum(Times(m.metrics)) / (|m.metrics| as real)
      && r.successRate == (CountSuccess(m.metrics) as real / |m.metrics| as real) * 100.0
      && 0.0 <= r.successRate <= 100.0
      && r.p95ProcessingTime in Times(m.metrics)
      && r.p99ProcessingTime in Times(m.metrics)
      && r.p95ProcessingTime <= r.p99ProcessingTime
    ensures |m.metrics| > 0 ==>
      && r.p95ProcessingTime == Sorting.Sort(Times(m.metrics))[PercentileIndex(|m.metrics|, 95)]
      && r.p99ProcessingTime == Sorting.Sort(Times(m.metrics))[PercentileIndex(|m.metrics|, 99)]
  {
    var samples := m.metrics;
    var n := |samples|;
    LevelCountsPartition(samples);
    if n == 0 then ZERO_STATS
    else
      var times := Times(samples);
      var sorted := Sorting.Sort(times);
      Sorting.SumSort(times);
      var percentiles := Percentiles(times);
      var successRate := (CountSuccess(samples) as real / n as real) * 100.0;
      assert 0.0 <= successRate <= 100.0 by { RateBounds(CountSuccess(samples), n); }
      Stats(
        n,
        Sorting.Sum(sorted) / (n as real),
        CountLevel(samples, 1), CountLevel(samples, 2), CountLevel(samples, 3),
        successRate,
        percentiles.0,
        percentiles.1)
  }

  /** The 95th and 99th percentiles of the ascending order of `times`. */
  function Percentiles(times: seq<real>): (p: (real, real))
    requires |times| > 0
    ensures p.0 == Sorting.Sort(times)[PercentileIndex(|times|, 95)]
    ensures p.1 == Sorting.Sort(times)[PercentileIndex(|times|, 99)]
    ensures p.0 in times && p.1 in times && p.0 <= p.1
  {
    var sorted := Sorting.Sort(times);
    var i95 := PercentileIndex(|times|, 95);
    var i99 := PercentileIndex(|times|, 99);
    Sorting.SortedElementsFromInput(times, i95);
    Sorting.SortedElementsFromInput(times, i99);
    assert i95 <= i99;
    (sorted[i95], sorted[i99])
  }

  /** A share expressed as a percentage lies between 0 and 100. */
  lemma RateBounds(k: nat, n: nat)
    requires 0 < n && k <= n
    ensures 0.0 <= (k as real / n as real) * 100.0 <= 100.0
  {
    assert k as real / n as real <= 1.0;
  }

  /** The largest processing time in a non-empty buffer. */
  function MaxTime(s: seq<Sample>): (t: real)
    requires |s| > 0
    ensures t in Times(s)
    ensures forall i :: 0 <= i < |s| ==> s[i].totalProcessingTimeMs <= t
  {
    if |s| == 1 then s[0].totalProcessingTimeMs
    else
      var rest := MaxTime(s[1..]);
      assert forall i :: 1 <= i < |s| ==> s[i] == s[1..][i - 1];
      assert Times(s[1..]) == Times(s)[1..];
      if s[0].totalProcessingTimeMs >= rest then s[0].totalProcessingTimeMs else rest
  }

  /** The 99th percentile is at most the largest time. */
  lemma PercentilesBelowMaximum(m: Monitor)
    requires |m.metrics| > 0
    ensures GetStats(m).p95ProcessingTime <= GetStats(m).p99ProcessingTime <= MaxTime(m.metrics)
  {
    var times := Times(m.metrics);
    var p99 := GetStats(m).p99ProcessingTime;
    var i :| 0 <= i < |times| && times[i] == p99;
  }

  // ---------------------------------------------------------------------------
  // Recent trend
  // ---------------------------------------------------------------------------

  datatype Trending = Improving | Stable | Degrading

  datatype Trend = Trend(recentAverage: real, recentLevel3Rate: real, trending: Trending)

  const DEFAULT_TREND_MINUTES: int := 10
  const MS_PER_MINUTE: int := 60000

  /**
   * The samples stamped strictly after `cutoff`, in buffer order. How often
   * each is kept is stated by `AfterCounts`, and that the order is kept by
   * `AfterAppend`.
   */
  function After(s: seq<Sample>, cutoff: int): (r: seq<Sample>)
    ensures |r| <= |s|
    ensures forall x :: x in r <==> x in s && x.timestamp > cutoff
  {
    if |s| == 0 then []
    else if s[0].timestamp > cutoff then [s[0]] + After(s[1..], cutoff)
    else After(s[1..], cutoff)
  }

  /** Each sample after the cutoff is kept as often as the buffer holds it; no other is kept. */
  lemma {:induction false} AfterCounts(s: seq<Sample>, cutoff: int)
    ensures forall x :: multiset(After(s, cutoff))[x] == if x.timestamp > cutoff then multiset(s)[x] else 0
  {
    if |s| > 0 {
      AfterCounts(s[1..], cutoff);
      assert s == [s[0]] + s[1..];
      assert multiset(s) == multiset{s[0]} + multiset(s[1..]);
    }
  }

  /** Filtering distributes over concatenation, so the relative order of kept samples is the buffer's. */
  lemma {:induction false} AfterAppend(a: seq<Sample>, b: seq<Sample>, cutoff: int)
    ensures After(a + b, cutoff) == After(a, cutoff) + After(b, cutoff)
    decreases |a|
  {
    if |a| == 0 {
      assert a + b == b;
    } else {
      var ab := a + b;
      var head := if a[0].timestamp > cutoff then [a[0]] else [];
      calc {
        After(ab, cutoff);
      == { AfterUnfold(ab, cutoff); assert ab[0] == a[0]; }
        head + After(ab[1..], cutoff);
      == { assert ab[1..] == a[1..] + b; }
        head + After(a[1..] + b, cutoff);
      == { AfterAppend(a[1..], b, cutoff); }
        head + (After(a[1..], cutoff) + After(b, cutoff));
      ==
        (head + After(a[1..], cutoff)) + After(b, cutoff);
      == { AfterUnfold(a, cutoff); }
        After(a, cutoff) + After(b, cutoff);
      }
    }
  }

  lemma AfterUnfold(s: seq<Sample>, cutoff: int)
    requires |s| > 0
    ensures After(s, cutoff) == (if s[0].timestamp > cutoff then [s[0]] else []) + After(s[1..], cutoff)
  {
  }

  function Average(s: seq<Sample>): real
    requires |s| > 0
  {
    Sorting.Sum(Times(s)) / (|s| as real)
  }

  /**
   * The label for the two half averages, with JavaScript's division by
   * zero: a zero first half gives an infinite ratio of the sign of
   * `-second`, or not-a-number (which is neither above nor below the
   * thresholds) when both are zero.
   */
  function TrendLabel(first: real, second: real): (t: Trending)
    ensures first > 0.0 ==>
      && (t == Improving <==> second < first * 0.9)
      && (t == Degrading <==> second > first * 1.1)
    ensures first == 0.0 ==>
      && (t == Improving <==> second < 0.0)
      && (t == Degrading <==> second > 0.0)
    ensures first < 0.0 ==>
      && (t == Improving <==> second > first * 0.9)
      && (t == Degrading <==> second < first * 1.1)
  {
    if first == 0.0 then
      if second > 0.0 then Degrading else if second < 0.0 then Improving else Stable
    else
      var improvement := (first - second) / first;
      RatioThresholds(first, second);
      if improvement > 0.1 then Improving
      else if improvement < -0.1 then Degrading
      else Stable
  }

  /** For a positive base, the relative change compared with plus or minus ten per cent. */
  lemma RatioThresholds(first: real, second: real)
    requires first != 0.0
    ensures first > 0.0 ==> ((first - second) / first > 0.1 <==> second < first * 0.9)
    ensures first > 0.0 ==> ((first - second) / first < -0.1 <==> second > first * 1.1)
    ensures first < 0.0 ==> ((first - second) / first > 0.1 <==> second > first * 0.9)
    ensures first < 0.0 ==> ((first - second) / first < -0.1 <==> second < first * 1.1)
  {
    if first > 0.0 {
      DivComparedWith(first - second, first, 0.1);
      DivComparedWith(first - second, first, -0.1);
    } else {
      assert (first - second) / first == (second - first) / (-first);
      DivComparedWith(second - first, -first, 0.1);
      DivComparedWith(second - first, -first, -0.1);
    }
  }

  /** Comparing a quotient with a threshold, for a positive divisor. */
  lemma DivComparedWith(d: real, f: real, t: real)
    requires f > 0.0
    ensures d / f > t <==> d > t * f
    ensures d / f < t <==> d < t * f
  {
    var q := d / f;
    assert q * f == d;
    ScaleByPositive(q, t, f);
    ScaleByPositive(t, q, f);
  }

  lemma ScaleByPositive(a: real, b: real, c: real)
    requires c > 0.0
    ensures a > b <==> a * c > b * c
  {
    if a > b {
      assert (a - b) * c > 0.0;
    } else {
      assert (b - a) * c >= 0.0;
    }
  }

  /**
   * `getRecentTrend(minutes)`: the samples of the last `minutes` minutes,
   * their mean time and level-3 percentage, and a label comparing the mean
   * of the older half with that of the newer half.
   */
  function GetRecentTrend(m: Monitor, now: int, minutes: int): (r: Trend)
    ensures var recent := After(m.metrics, now - minutes * MS_PER_MINUTE);
      && (|recent| == 0 ==> r == Trend(0.0, 0.0, Stable))
      && (|recent| <= 1 ==> r.trending == Stable)
      && (|recent| > 0 ==>
           && r.recentAverage == Average(recent)
           && r.recentLevel3Rate == (CountLevel(recent, 3) as real / |recent| as real) * 100.0
           && 0.0 <= r.recentLevel3Rate <= 100.0)
      && (|recent| > 1 ==>
           r.trending == TrendLabel(Average(recent[..|recent| / 2]), Average(recent[|recent| / 2..])))
  {
    var recent := After(m.metrics, now - minutes * MS_PER_MINUTE);
    var n := |recent|;
    if n == 0 then Trend(0.0, 0.0, Stable)
    else
      var recentAverage := Average(recent);
      var level3Rate := (CountLevel(recent, 3) as real / n as real) * 100.0;
      RateBounds(CountLevel(recent, 3), n);
      var firstHalf := recent[..n / 2];
      var secondHalf := recent[n / 2..];
      if |firstHalf| == 0 || |secondHalf| == 0 then Trend(recentAverage, level3Rate, Stable)
      else Trend(recentAverage, level3Rate, TrendLabel(Average(firstHalf), Average(secondHalf)))
  }

  // ---------------------------------------------------------------------------
  // Health
  // ---------------------------------------------------------------------------

  datatype HealthLevel = Healthy | Warning | Critical

  datatype Health = Health(status: HealthLevel, message: string, recommendations: seq<string>)

  const CRITICAL_MESSAGE: string := "システムが高負荷状態です。緊急対応が必要です。"
  const WARNING_MESSAGE: string := "パフォーマンスに注意が必要です。"
  const HEALTHY_MESSAGE: string := "システムは正常に動作しています。"
  const CRITICAL_RECOMMENDATIONS: seq<string> := [
    "OpenAI APIタイムアウトをさらに短縮",
    "より積極的な軽量分析フォールバック",
    "データベースクエリの最適化",
    "リクエスト頻度の制限検討"]
  const CPU_RECOMMENDATION: string := "CPU使用量が制限に近づいています"
  const EMERGENCY_RECOMMENDATION: string := "緊急モードの使用頻度が高くなっています"

  predicate IsCritical(s: Stats, t: Trend) {
    s.p95ProcessingTime > 10.0 || s.successRate < 80.0 || t.recentLevel3Rate > 50.0
  }

  predicate IsWarning(s: Stats, t: Trend) {
    s.p95ProcessingTime > 8.0 || s.successRate < 95.0 || t.recentLevel3Rate > 20.0
  }

  /** The verdict for given statistics and trend. */
  function Verdict(s: Stats, t: Trend): (h: Health)
    ensures h.status == Critical <==> IsCritical(s, t)
    ensures h.status == Warning <==> !IsCritical(s, t) && IsWarning(s, t)
    ensures h.status == Healthy <==> !IsCritical(s, t) && !IsWarning(s, t)
    ensures h.status == Critical ==> h.recommendations == CRITICAL_RECOMMENDATIONS
    ensures h.status == Warning ==>
      && (CPU_RECOMMENDATION in h.recommendations <==> s.p95ProcessingTime > 8.0)
      && (EMERGENCY_RECOMMENDATION in h.recommendations <==> t.recentLevel3Rate > 20.0)
      && |h.recommendations| <= 2
    ensures h.status == Healthy ==> h.recommendations == []
  {
    if IsCritical(s, t) then Health(Critical, CRITICAL_MESSAGE, CRITICAL_RECOMMENDATIONS)
    else if IsWarning(s, t) then
      assert CPU_RECOMMENDATION != EMERGENCY_RECOMMENDATION by {
        assert CPU_RECOMMENDATION[0] == 'C' && EMERGENCY_RECOMMENDATION[0] == '緊';
      }
      var cpu := if s.p95ProcessingTime > 8.0 then [CPU_RECOMMENDATION] else [];
      var emergency := if t.recentLevel3Rate > 20.0 then [EMERGENCY_RECOMMENDATION] else [];
      Health(Warning, WARNING_MESSAGE, cpu + emergency)
    else Health(Healthy, HEALTHY_MESSAGE, [])
  }

  /** `getHealthStatus`: the verdict on the whole buffer and the default ten-minute trend. */
  function GetHealthStatus(m: Monitor, now: int): (h: Health)
    ensures var s, t := GetStats(m), GetRecentTrend(m, now, DEFAULT_TREND_MINUTES);
      && (h.status == Critical <==> IsCritical(s, t))
      && (h.status == Warning <==> !IsCritical(s, t) && IsWarning(s, t))
      && (h.status == Healthy <==> !IsCritical(s, t) && !IsWarning(s, t))
    ensures |m.metrics| == 0 ==> h.status == Critical
    ensures h.status != Critical ==>
      && |m.metrics| > 0
      && GetStats(m).successRate >= 80.0 && GetStats(m).p95ProcessingTime <= 10.0
      && GetRecentTrend(m, now, DEFAULT_TREND_MINUTES).recentLevel3Rate <= 50.0
    ensures h.status == Healthy ==>
      && GetStats(m).successRate >= 95.0 && GetStats(m).p95ProcessingTime <= 8.0
      && GetRecentTrend(m, now, DEFAULT_TREND_MINUTES).recentLevel3Rate <= 20.0
    ensures h.status == Healthy ==> h.recommendations == []
  {
    Verdict(GetStats(m), GetRecentTrend(m, now, DEFAULT_TREND_MINUTES))
  }

  /** An empty buffer reports a zero success rate, so it is judged critical. */
  lemma EmptyMonitorIsCritical(now: int)
    ensures GetHealthStatus(EMPTY_MONITOR, now).status == Critical
  {
    assert GetStats(EMPTY_MONITOR) == ZERO_STATS;
  }

  /** Clearing forgets every sample: the statistics are zero and the verdict critical. */
  lemma ClearHistoryForgetsSamples(m: Monitor, now: int)
    ensures GetStats(ClearHistory(m)) == ZERO_STATS
    ensures GetRecentTrend(ClearHistory(m), now, DEFAULT_TREND_MINUTES) == Trend(0.0, 0.0, Stable)
    ensures GetHealthStatus(ClearHistory(m), now).status == Critical
  {
    EmptyMonitorIsCritical(now);
  }

  /** An all-successful buffer with fast requests and no level-3 runs is healthy. */
  lemma FastSuccessfulMonitorIsHealthy(m: Monitor, now: int)
    requires |m.metrics| > 0
    requires forall i :: 0 <= i < |m.metrics| ==> m.metrics[i].success
    requires forall i :: 0 <= i < |m.metrics| ==> m.metrics[i].totalProcessingTimeMs <= 8.0
    requires forall i :: 0 <= i < |m.metrics| ==> m.metrics[i].analysisLevel != 3
    ensures GetHealthStatus(m, now) == Health(Healthy, HEALTHY_MESSAGE, [])
  {
    FastSuccessStats(m);
    NoRecentLevel3(m, now);
  }

  lemma FastSuccessStats(m: Monitor)
    requires |m.metrics| > 0
    requires forall i :: 0 <= i < |m.metrics| ==> m.metrics[i].success
    requires forall i :: 0 <= i < |m.metrics| ==> m.metrics[i].totalProcessingTimeMs <= 8.0
    ensures GetStats(m).successRate == 100.0 && GetStats(m).p95ProcessingTime <= 8.0
  {
    var s := GetStats(m);
    var n := |m.metrics|;
    AllSucceed(m.metrics);
    SelfRatio(n as real);
    var times := Times(m.metrics);
    assert s.p95ProcessingTime in times;
    var i :| 0 <= i < |times| && times[i] == s.p95ProcessingTime;
    assert times[i] == m.metrics[i].totalProcessingTimeMs;
  }

  lemma NoRecentLevel3(m: Monitor, now: int)
    requires forall i :: 0 <= i < |m.metrics| ==> m.metrics[i].analysisLevel != 3
    ensures GetRecentTrend(m, now, DEFAULT_TREND_MINUTES).recentLevel3Rate == 0.0
  {
    var cutoff := now - DEFAULT_TREND_MINUTES * MS_PER_MINUTE;
    AfterNoLevel3(m.metrics, cutoff);
    var n := |After(m.metrics, cutoff)|;
    if n > 0 {
      ZeroRate(n as real);
    }
  }

  lemma ZeroRate(n: real)
    requires n > 0.0
    ensures (0 as real / n) * 100.0 == 0.0
  {
  }

  lemma SelfRatio(x: real)
    requires x > 0.0
    ensures x / x == 1.0
  {
  }

  lemma {:induction false} AllSucceed(s: seq<Sample>)
    requires forall i :: 0 <= i < |s| ==> s[i].success
    ensures CountSuccess(s) == |s|
  {
    if |s| > 0 {
      AllSucceed(s[1..]);
    }
  }

  lemma {:induction false} AfterNoLevel3(s: seq<Sample>, cutoff: int)
    requires forall i :: 0 <= i < |s| ==> s[i].analysisLevel != 3
    ensures CountLevel(After(s, cutoff), 3) == 0
  {
    if |s| > 0 {
      AfterNoLevel3(s[1..], cutoff);
      var rest := After(s[1..], cutoff);
      if s[0].timestamp > cutoff {
        assert ([s[0]] + rest)[1..] == rest;
      }
    }
  }
}

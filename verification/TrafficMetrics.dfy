/** Latency and error statistics over a bounded window. Latencies are whole hundredths of a millisecond. */
module TrafficMetrics {
  import opened Basics
  import Risk = RiskEngine

  // ---------------------------------------------------------------- order statistics

  predicate Ascending(s: seq<int>) { forall i | 0 < i < |s| :: s[i - 1] <= s[i] }

  function Insert(x: int, sorted: seq<int>): (r: seq<int>)
    requires Ascending(sorted)
    ensures Ascending(r) && |r| == |sorted| + 1
    ensures r[0] == x || (sorted != [] && r[0] == sorted[0])
  {
    if sorted == [] || x <= sorted[0] then [x] + sorted else [sorted[0]] + Insert(x, sorted[1..])
  }

  lemma {:induction false} InsertKeepsAll(x: int, sorted: seq<int>)
    requires Ascending(sorted)
    ensures multiset(Insert(x, sorted)) == multiset(sorted) + multiset{x}
  {
    if sorted == [] || x <= sorted[0] {
    } else {
      InsertKeepsAll(x, sorted[1..]);
      assert sorted == [sorted[0]] + sorted[1..];
    }
  }

  /** `sorted(s)`. */
  function Sorted(s: seq<int>): (r: seq<int>)
    ensures Ascending(r) && multiset(r) == multiset(s) && |r| == |s|
  {
    if s == [] then []
    else
      var rest := Sorted(s[1..]);
      InsertKeepsAll(s[0], rest);
      assert s == [s[0]] + s[1..];
      Insert(s[0], rest)
  }

  /** How many samples are at most `limit`. */
  function CountLe(s: seq<int>, limit: int): nat {
    if s == [] then 0 else (if s[0] <= limit then 1 else 0) + CountLe(s[1..], limit)
  }

  lemma {:induction false} CountLeBound(s: seq<int>, limit: int)
    ensures CountLe(s, limit) <= |s|
  {
    if s == [] {
    } else {
      CountLeBound(s[1..], limit);
    }
  }

  lemma {:induction false} CountLeInsert(x: int, s: seq<int>, limit: int)
    requires Ascending(s)
    ensures CountLe(Insert(x, s), limit) == CountLe(s, limit) + if x <= limit then 1 else 0
  {
    if s == [] || x <= s[0] {
      assert ([x] + s)[1..] == s;
    } else {
      CountLeInsert(x, s[1..], limit);
      var rest := Insert(x, s[1..]);
      assert ([s[0]] + rest)[1..] == rest;
    }
  }

  lemma {:induction false} CountLeSorted(s: seq<int>, limit: int)
    ensures CountLe(Sorted(s), limit) == CountLe(s, limit)
  {
    if s == [] {
    } else {
      CountLeSorted(s[1..], limit);
      CountLeInsert(s[0], Sorted(s[1..]), limit);
    }
  }

  lemma {:induction false} NoneLe(s: seq<int>, k: nat, limit: int)
    requires Ascending(s) && k < |s| && s[0] > limit
    ensures s[k] > limit && CountLe(s, limit) == 0
  {
    if |s| > 1 {
      assert s[0] <= s[1];
      NoneLe(s[1..], if k == 0 then 0 else k - 1, limit);
    }
  }

  /** In an ascending list, position `k` exceeds a limit exactly when at most `k` entries respect it. */
  lemma {:induction false} RankOf(s: seq<int>, k: nat, limit: int)
    requires Ascending(s) && k < |s|
    ensures s[k] > limit <==> CountLe(s, limit) <= k
  {
    if s[0] > limit {
      NoneLe(s, k, limit);
    } else if k > 0 {
      RankOf(s[1..], k - 1, limit);
    }
  }

  /** `int(percent / 100 * (n - 1))`. */
  function RankIndex(percent: nat, n: nat): nat
    requires percent <= 100 && 0 < n
    ensures RankIndex(percent, n) < n
  {
    assert percent * (n - 1) <= 100 * (n - 1);
    percent * (n - 1) / 100
  }

  function Percentile(s: seq<int>, percent: nat): int
    requires percent <= 100 && s != []
  {
    Sorted(s)[RankIndex(percent, |s|)]
  }

  /** A percentile exceeds a limit exactly when at most its index many samples respect the limit. */
  lemma {:induction false} PercentileExceeds(s: seq<int>, percent: nat, limit: int)
    requires percent <= 100 && s != []
    ensures Percentile(s, percent) > limit <==> CountLe(s, limit) <= RankIndex(percent, |s|)
  {
    RankOf(Sorted(s), RankIndex(percent, |s|), limit);
    CountLeSorted(s, limit);
  }

  /** When the 95th percentile exceeds a limit, more than one sample in twenty does. */
  lemma {:induction false} P95MeansMoreThanFivePercent(s: seq<int>, limit: int)
    requires s != [] && Percentile(s, 95) > limit
    ensures 20 * (|s| - CountLe(s, limit)) > |s|
  {
    PercentileExceeds(s, 95, limit);
  }

  // ---------------------------------------------------------------- the window

  /** The last `n` entries, or all of them. */
  function LastN(s: seq<int>, n: nat): seq<int> { if |s| <= n then s else s[|s| - n..] }

  /** `append` on a deque of length at most `size`. */
  function Push(window: seq<int>, x: int, size: nat): seq<int> {
    if size == 0 then [] else if |window| < size then window + [x] else window[1..] + [x]
  }

  /** A bounded deque holds the last entries of everything pushed. */
  lemma {:induction false} PushKeepsLast(history: seq<int>, x: int, size: nat)
    ensures Push(LastN(history, size), x, size) == LastN(history + [x], size)
  {
  }

  datatype Metrics = Metrics(window: seq<int>, total: nat, errors: nat)

  const NO_METRICS := Metrics([], 0, 0)

  function Observe(m: Metrics, size: nat, latency: int, isError: bool): Metrics {
    Metrics(Push(m.window, latency, size), m.total + 1, m.errors + if isError then 1 else 0)
  }

  /** `round(errors / total, 4)`, zero when there is no request. */
  function ErrorRate(m: Metrics): real {
    if m.total == 0 then 0.0
    else Risk.RoundEven(m.errors as real / m.total as real * 10000.0) as real / 10000.0
  }

  lemma ErrorRateIsClose(m: Metrics)
    requires 0 < m.total
    ensures -0.00005 <= ErrorRate(m) - m.errors as real / m.total as real <= 0.00005
  {
  }

  // ---------------------------------------------------------------- the metrics of a history

  /** One recorded request. */
  datatype Sample = Sample(latency: int, isError: bool)

  function Latencies(history: seq<Sample>): seq<int> {
    seq(|history|, i requires 0 <= i < |history| => history[i].latency)
  }

  /** How many of the requests were errors. */
  function Errors(history: seq<Sample>): nat {
    if history == [] then 0
    else Errors(history[..|history| - 1]) + if history[|history| - 1].isError then 1 else 0
  }

  /** The last latencies, every request counted, every error counted. */
  function MetricsOf(history: seq<Sample>, size: nat): Metrics {
    Metrics(LastN(Latencies(history), size), |history|, Errors(history))
  }

  lemma {:induction false} ErrorsAtMostAll(history: seq<Sample>)
    ensures Errors(history) <= |history|
  {
    if history == [] {
    } else {
      ErrorsAtMostAll(history[..|history| - 1]);
    }
  }

  /** Recording one request keeps the metrics those of the history. */
  lemma {:induction false} ObserveIsExact(history: seq<Sample>, size: nat, latency: int, isError: bool)
    ensures Observe(MetricsOf(history, size), size, latency, isError)
            == MetricsOf(history + [Sample(latency, isError)], size)
  {
    var more := history + [Sample(latency, isError)];
    assert more[..|history|] == history;
    assert Latencies(more) == Latencies(history) + [latency];
    PushKeepsLast(Latencies(history), latency, size);
  }

  datatype Stats = Stats(samples: nat, errorRate: real, p50: int, p95: int, p99: int)

  function StatsOf(m: Metrics): Stats {
    if m.window == [] then Stats(0, 0.0, 0, 0, 0)
    else Stats(|m.window|, ErrorRate(m), Percentile(m.window, 50), Percentile(m.window, 95), Percentile(m.window, 99))
  }

  /** What the statistics say of a history, by counting: the median, the 95th and the 99th percentile exceed a limit
      exactly when at most that share of the window respects it. */
  lemma {:induction false} StatsTell(history: seq<Sample>, size: nat, limit: int)
    requires history != [] && 0 < size
    ensures var stats, w := StatsOf(MetricsOf(history, size)), LastN(Latencies(history), size);
            && stats.samples == |w| == Min(|history|, size)
            && (stats.p50 > limit <==> CountLe(w, limit) <= 50 * (|w| - 1) / 100)
            && (stats.p95 > limit <==> CountLe(w, limit) <= 95 * (|w| - 1) / 100)
            && (stats.p99 > limit <==> CountLe(w, limit) <= 99 * (|w| - 1) / 100)
            && stats.errorRate
                 == Risk.RoundEven(Errors(history) as real / |history| as real * 10000.0) as real / 10000.0
  {
    var w := LastN(Latencies(history), size);
    Ranks(|w|);
    RateOf(history, size);
    hide Percentile, RankIndex, ErrorRate, CountLe, Errors;
    PercentileExceeds(w, 50, limit);
    PercentileExceeds(w, 95, limit);
    PercentileExceeds(w, 99, limit);
  }

  lemma Ranks(n: nat)
    requires 0 < n
    ensures RankIndex(50, n) == 50 * (n - 1) / 100 && RankIndex(95, n) == 95 * (n - 1) / 100
    ensures RankIndex(99, n) == 99 * (n - 1) / 100
  {
  }

  lemma {:induction false} RateOf(history: seq<Sample>, size: nat)
    requires history != []
    ensures ErrorRate(MetricsOf(history, size))
            == Risk.RoundEven(Errors(history) as real / |history| as real * 10000.0) as real / 10000.0
  {
    hide Errors, Risk.RoundEven;
  }

  class TrafficMetrics {
    const windowSize: nat
    var latencies: seq<int>
    var totalRequests: nat
    var errorCount: nat
    ghost var history: seq<Sample>

    constructor (windowSize: nat)
      ensures this.windowSize == windowSize && Valid() && View() == NO_METRICS && history == []
    {
      this.windowSize := windowSize;
      latencies, totalRequests, errorCount, history := [], 0, 0, [];
    }

    /** The window is the last `windowSize` latencies since the last reset, and every request and error was counted. */
    ghost predicate Valid()
      reads this
    {
      View() == MetricsOf(history, windowSize)
    }

    function View(): Metrics
      reads this
    {
      Metrics(latencies, totalRequests, errorCount)
    }

    method Record(latency: int, isError: bool)
      requires Valid()
      modifies this
      ensures Valid() && history == old(history) + [Sample(latency, isError)]
      ensures View() == Observe(old(View()), windowSize, latency, isError)
    {
      hide Errors, Latencies, ErrorRate;
      ObserveIsExact(history, windowSize, latency, isError);
      if windowSize == 0 {
        latencies := [];
      } else {
        if |latencies| == windowSize {
          latencies := latencies[1..];
        }
        latencies := latencies + [latency];
      }
      totalRequests := totalRequests + 1;
      if isError {
        errorCount := errorCount + 1;
      }
      history := history + [Sample(latency, isError)];
    }

    method GetStats() returns (stats: Stats)
      ensures stats == StatsOf(View())
    {
      if |latencies| == 0 {
        return Stats(0, 0.0, 0, 0, 0);
      }
      var sorted := Sorted(latencies);
      var n := |latencies|;
      stats := Stats(n, ErrorRate(View()), sorted[RankIndex(50, n)], sorted[RankIndex(95, n)],
                     sorted[RankIndex(99, n)]);
    }

    method Reset()
      modifies this
      ensures Valid() && View() == NO_METRICS && history == []
    {
      latencies, totalRequests, errorCount, history := [], 0, 0, [];
    }
  }
}

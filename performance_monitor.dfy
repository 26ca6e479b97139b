/**
 * `PerformanceMonitor`: the object that owns the metric store, the
 * translators that turn platform timing entries into `recordMetric` calls,
 * the threshold diagnostics, and the report built from the store.
 * Platform entries arrive as parameters; the clock is the `now` parameter.
 */
module PerformanceMonitoring {
  import opened Wrappers
  import opened MetricStore

  // ---------------------------------------------------------------------
  // Threshold diagnostics (logSignificantMetrics)
  // ---------------------------------------------------------------------

  /** The warning threshold of each watched metric. */
  const Thresholds: map<string, real> :=
    map["FCP" := 1800.0, "LCP" := 2500.0, "CLS" := 0.1, "FID" := 100.0,
        "LONG_TASK" := 50.0, "JS_HEAP_USED_PCT" := 80.0]

  /** Whether `logSignificantMetrics(name, value)` emits its warning. */
  predicate LogSignificantMetrics(name: string, value: real)
  {
    name in Thresholds && value > Thresholds[name]
  }

  /**
   * The warning fires only for the six watched names, only strictly above
   * the threshold, and once it fires for a value it fires for every larger one.
   */
  lemma ThresholdWarnings(name: string, v: real, w: real)
    ensures LogSignificantMetrics(name, v) ==>
      name in {"FCP", "LCP", "CLS", "FID", "LONG_TASK", "JS_HEAP_USED_PCT"}
    ensures name in Thresholds ==> !LogSignificantMetrics(name, Thresholds[name])
    ensures LogSignificantMetrics(name, v) && v <= w ==> LogSignificantMetrics(name, w)
  {
  }

  /** `processLongTaskEntry` warns separately above this many milliseconds. */
  const LongTaskWarningMs: real := 100.0

  /** A long task that draws the long-task warning also exceeds the LONG_TASK threshold. */
  lemma LongTaskWarningImpliesThreshold(duration: real)
    ensures duration > LongTaskWarningMs ==> LogSignificantMetrics("LONG_TASK", duration)
  {
  }

  // ---------------------------------------------------------------------
  // Translators from platform entries to named readings
  // ---------------------------------------------------------------------

  /** A value to be recorded under a metric name. */
  datatype Reading = Reading(name: string, value: real)

  /** The `recordMetric` calls for `readings`, all made at time `now`. */
  function Stamp(readings: seq<Reading>, now: int): (log: seq<Entry>)
    ensures |log| == |readings|
  {
    seq(|readings|, i requires 0 <= i < |readings| =>
      Entry(readings[i].name, Sample(readings[i].value, now)))
  }

  /** The readings that record each of `values` under one name. */
  function Tag(name: string, values: seq<real>): (rs: seq<Reading>)
    ensures |rs| == |values|
  {
    seq(|values|, i requires 0 <= i < |values| => Reading(name, values[i]))
  }

  /** Stamping one more reading appends one more call. */
  lemma StampSnoc(readings: seq<Reading>, r: Reading, now: int)
    ensures Stamp(readings + [r], now) == Stamp(readings, now) + [Entry(r.name, Sample(r.value, now))]
  {
  }

  /** A log that held a prefix's calls and then took the next reading's call holds the longer prefix's. */
  lemma StampAppend(log0: seq<Entry>, before: seq<Entry>, after: seq<Entry>,
                    readings: seq<Reading>, i: nat, now: int)
    requires i < |readings|
    requires before == log0 + Stamp(readings[..i], now)
    requires after == before + [Entry(readings[i].name, Sample(readings[i].value, now))]
    ensures after == log0 + Stamp(readings[..i + 1], now)
  {
    assert readings[..i + 1] == readings[..i] + [readings[i]];
    StampSnoc(readings[..i], readings[i], now);
  }

  /** Tagging and stamping one more value appends one more call. */
  lemma StampTagSnoc(name: string, vs: seq<real>, x: real, now: int)
    ensures Stamp(Tag(name, vs + [x]), now) == Stamp(Tag(name, vs), now) + [Entry(name, Sample(x, now))]
  {
  }

  /** The timestamps of a navigation-timing entry that `processNavigationEntry` reads. */
  datatype NavigationEntry = NavigationEntry(
    navigationStart: real,
    domainLookupStart: real, domainLookupEnd: real,
    connectStart: real, secureConnectionStart: real, connectEnd: real,
    requestStart: real, responseStart: real, responseEnd: real,
    domLoading: real, domComplete: real,
    loadEventEnd: real)

  /** The order the Navigation Timing processing model gives these timestamps. */
  ghost predicate OrderedTimings(e: NavigationEntry)
  {
    && e.navigationStart <= e.domainLookupStart <= e.domainLookupEnd <= e.connectStart
    && e.connectStart <= e.connectEnd <= e.requestStart <= e.responseStart <= e.responseEnd
    && (e.secureConnectionStart == 0.0 ||
        e.connectStart <= e.secureConnectionStart <= e.connectEnd)
    && e.domLoading <= e.domComplete
    && e.navigationStart <= e.loadEventEnd
  }

  /**
   * The seven phase durations `processNavigationEntry` records, in the order
   * of its object literal; the TLS handshake counts only when a secure
   * connection was started (a `secureConnectionStart` of 0 means none).
   * None of these names is watched, so no navigation reading draws a
   * threshold warning; for an entry whose timestamps are in processing order
   * every duration is non-negative and the TLS handshake is part of the TCP
   * connect.
   */
  function NavigationMetrics(e: NavigationEntry): (rs: seq<Reading>)
    ensures forall i :: 0 <= i < |rs| ==> !LogSignificantMetrics(rs[i].name, rs[i].value)
    ensures OrderedTimings(e) ==> forall i :: 0 <= i < |rs| ==> rs[i].value >= 0.0
    ensures |rs| == 7
    ensures OrderedTimings(e) ==> rs[2].value <= rs[1].value
    ensures rs[0] == Reading("DNS_LOOKUP", e.domainLookupEnd - e.domainLookupStart)
    ensures rs[1] == Reading("TCP_CONNECT", e.connectEnd - e.connectStart)
    ensures e.secureConnectionStart > 0.0 ==>
      rs[2] == Reading("TLS_HANDSHAKE", e.connectEnd - e.secureConnectionStart)
    ensures e.secureConnectionStart <= 0.0 ==> rs[2] == Reading("TLS_HANDSHAKE", 0.0)
    ensures rs[3] == Reading("TTFB", e.responseStart - e.requestStart)
    ensures rs[4] == Reading("DOWNLOAD", e.responseEnd - e.responseStart)
    ensures rs[5] == Reading("DOM_PROCESSING", e.domComplete - e.domLoading)
    ensures rs[6] == Reading("LOAD_COMPLETE", e.loadEventEnd - e.navigationStart)
  {
    [ Reading("DNS_LOOKUP", e.domainLookupEnd - e.domainLookupStart),
      Reading("TCP_CONNECT", e.connectEnd - e.connectStart),
      Reading("TLS_HANDSHAKE",
        if e.secureConnectionStart > 0.0 then e.connectEnd - e.secureConnectionStart else 0.0),
      Reading("TTFB", e.responseStart - e.requestStart),
      Reading("DOWNLOAD", e.responseEnd - e.responseStart),
      Reading("DOM_PROCESSING", e.domComplete - e.domLoading),
      Reading("LOAD_COMPLETE", e.loadEventEnd - e.navigationStart) ]
  }

  /** An ASCII letter in upper case; every other character unchanged. */
  function UpperChar(c: char): char
  {
    if 'a' <= c <= 'z' then (c as int - 32) as char else c
  }

  /** `toUpperCase` over ASCII. */
  function UpperCase(s: string): (r: string)
    ensures |r| == |s|
    ensures forall i :: 0 <= i < |s| ==> r[i] == UpperChar(s[i])
    ensures forall i :: 0 <= i < |r| ==> !('a' <= r[i] <= 'z')
  {
    seq(|s|, i requires 0 <= i < |s| => UpperChar(s[i]))
  }

  /**
   * The series a measure entry is recorded under (`MEASURE_` and the
   * upper-cased name); no such series is watched, so a measure never draws a
   * threshold warning.
   */
  function MeasureMetricName(name: string): (r: string)
    ensures forall v :: !LogSignificantMetrics(r, v)
    ensures |r| == |"MEASURE_"| + |name|
    ensures r[..|"MEASURE_"|] == "MEASURE_"
    ensures forall i :: 0 <= i < |name| ==> r[|"MEASURE_"| + i] == UpperChar(name[i])
  {
    var r := "MEASURE_" + UpperCase(name);
    // every watched name starts with another letter
    assert r[0] == 'M';
    r
  }

  /** Measures whose names differ only in letter case share one series. */
  lemma {:induction false} MeasureNamesIgnoreCase(name: string)
    ensures MeasureMetricName(UpperCase(name)) == MeasureMetricName(name)
  {
    assert UpperCase(UpperCase(name)) == UpperCase(name);
  }

  /** Two measures share a series exactly when their names agree up to letter case. */
  lemma SameMeasureSeries(a: string, b: string)
    ensures MeasureMetricName(a) == MeasureMetricName(b) <==> UpperCase(a) == UpperCase(b)
  {
  }

  /** A layout-shift entry: its score and whether user input came just before it. */
  datatype LayoutShift = LayoutShift(value: real, hadRecentInput: bool)

  /** The sum of the scores of the shifts not caused by recent input. */
  function QualifyingSum(es: seq<LayoutShift>): real
  {
    if es == [] then 0.0
    else
      var e := es[|es| - 1];
      QualifyingSum(es[..|es| - 1]) + (if e.hadRecentInput then 0.0 else e.value)
  }

  /**
   * The CLS values `measureCLS` records for a batch, starting from the running
   * total `cls0`: one per shift without recent input, each the running total
   * after adding that shift; the last one is the new total.
   */
  function ShiftTotals(cls0: real, es: seq<LayoutShift>): (r: seq<real>)
    ensures |r| <= |es|
    ensures r != [] ==> r[|r| - 1] == cls0 + QualifyingSum(es)
    ensures (forall i :: 0 <= i < |es| ==> es[i].hadRecentInput) ==> r == []
  {
    if es == [] then []
    else
      var e := es[|es| - 1];
      ShiftTotals(cls0, es[..|es| - 1]) +
        (if e.hadRecentInput then [] else [cls0 + QualifyingSum(es)])
  }

  /** Taking one more entry of a batch into account. */
  lemma ShiftStep(cls0: real, es: seq<LayoutShift>, i: nat)
    requires i < |es|
    ensures QualifyingSum(es[..i + 1]) ==
      QualifyingSum(es[..i]) + (if es[i].hadRecentInput then 0.0 else es[i].value)
    ensures es[i].hadRecentInput ==> ShiftTotals(cls0, es[..i + 1]) == ShiftTotals(cls0, es[..i])
    ensures !es[i].hadRecentInput ==>
      ShiftTotals(cls0, es[..i + 1]) == ShiftTotals(cls0, es[..i]) + [cls0 + QualifyingSum(es[..i + 1])]
  {
    assert es[..i + 1][..i] == es[..i];
  }

  /** The call one shift makes: the new running total under CLS, unless it followed input. */
  function ShiftCall(e: LayoutShift, total: real, now: int): seq<Entry>
  {
    if e.hadRecentInput then [] else [Entry("CLS", Sample(total, now))]
  }

  /** The `recordMetric` calls one layout-shift callback makes. */
  function ShiftLog(cls0: real, es: seq<LayoutShift>, now: int): seq<Entry>
  {
    Stamp(Tag("CLS", ShiftTotals(cls0, es)), now)
  }

  /** One more entry of a batch adds its call, if it makes one, to the end. */
  lemma ShiftLogStep(cls0: real, es: seq<LayoutShift>, i: nat, now: int)
    requires i < |es|
    ensures QualifyingSum(es[..i + 1]) ==
      QualifyingSum(es[..i]) + (if es[i].hadRecentInput then 0.0 else es[i].value)
    ensures ShiftLog(cls0, es[..i + 1], now) ==
      ShiftLog(cls0, es[..i], now) + ShiftCall(es[i], cls0 + QualifyingSum(es[..i + 1]), now)
  {
    ShiftStep(cls0, es, i);
    if !es[i].hadRecentInput {
      StampTagSnoc("CLS", ShiftTotals(cls0, es[..i]), cls0 + QualifyingSum(es[..i + 1]), now);
    }
  }

  /**
   * A running total and a log that matched a prefix of the batch, advanced
   * by the next entry, match the prefix one longer.
   */
  lemma ShiftAdvance(log0: seq<Entry>, before: seq<Entry>, after: seq<Entry>,
                     cls0: real, clsBefore: real, clsAfter: real,
                     es: seq<LayoutShift>, i: nat, now: int)
    requires i < |es|
    requires clsBefore == cls0 + QualifyingSum(es[..i])
    requires before == log0 + ShiftLog(cls0, es[..i], now)
    requires clsAfter == clsBefore + (if es[i].hadRecentInput then 0.0 else es[i].value)
    requires after == before + ShiftCall(es[i], clsAfter, now)
    ensures clsAfter == cls0 + QualifyingSum(es[..i + 1])
    ensures after == log0 + ShiftLog(cls0, es[..i + 1], now)
  {
    ShiftLogStep(cls0, es, i, now);
  }

  /** `warnings` tells, total by total, whether recording it drew the CLS warning. */
  predicate CLSWarnings(warnings: seq<bool>, totals: seq<real>)
  {
    && |warnings| == |totals|
    && forall k :: 0 <= k < |warnings| ==> warnings[k] == LogSignificantMetrics("CLS", totals[k])
  }

  /** The warnings for a prefix of the batch, advanced by the next entry's, match the prefix one longer. */
  lemma WarningsAdvance(cls0: real, es: seq<LayoutShift>, i: nat,
                        before: seq<bool>, after: seq<bool>, clsAfter: real)
    requires i < |es|
    requires CLSWarnings(before, ShiftTotals(cls0, es[..i]))
    requires clsAfter == cls0 + QualifyingSum(es[..i + 1])
    requires after == before +
      (if es[i].hadRecentInput then [] else [LogSignificantMetrics("CLS", clsAfter)])
    ensures CLSWarnings(after, ShiftTotals(cls0, es[..i + 1]))
  {
    ShiftStep(cls0, es, i);
  }

  /** With non-negative shift scores, the running total only grows. */
  lemma {:induction false} QualifyingSumNonNegative(es: seq<LayoutShift>)
    requires forall i :: 0 <= i < |es| ==> es[i].value >= 0.0
    ensures QualifyingSum(es) >= 0.0
  {
    if es != [] {
      QualifyingSumNonNegative(es[..|es| - 1]);
    }
  }

  /**
   * With non-negative shift scores, the CLS values recorded for a batch never
   * decrease and stay between the starting total and the final total.
   */
  lemma {:induction false} ShiftTotalsNonDecreasing(cls0: real, es: seq<LayoutShift>)
    requires forall i :: 0 <= i < |es| ==> es[i].value >= 0.0
    ensures forall i, j :: 0 <= i <= j < |ShiftTotals(cls0, es)| ==>
      cls0 <= ShiftTotals(cls0, es)[i] <= ShiftTotals(cls0, es)[j] <= cls0 + QualifyingSum(es)
  {
    if es != [] {
      var init, e := es[..|es| - 1], es[|es| - 1];
      ShiftTotalsNonDecreasing(cls0, init);
      QualifyingSumNonNegative(es);
      var t0, t := ShiftTotals(cls0, init), ShiftTotals(cls0, es);
      var total := cls0 + QualifyingSum(es);
      assert cls0 + QualifyingSum(init) <= total;
      if e.hadRecentInput {
        assert t == t0;
      } else {
        assert t == t0 + [total];
        forall i, j | 0 <= i <= j < |t|
          ensures cls0 <= t[i] <= t[j] <= total
        {
          if j < |t0| {
            assert t[i] == t0[i] && t[j] == t0[j];
          }
        }
      }
    }
  }

  // ---------------------------------------------------------------------
  // The report (generateReport)
  // ---------------------------------------------------------------------

  /** The Core Web Vitals group: each entry the statistics of its series, or absent. */
  datatype CoreWebVitals = CoreWebVitals(fcp: Option<Summary>, lcp: Option<Summary>,
                                         cls: Option<Summary>, fid: Option<Summary>)

  /** The load group; `longTasks` is a count, not statistics. */
  datatype LoadPerformance = LoadPerformance(loadTime: Option<Summary>,
                                             domProcessing: Option<Summary>,
                                             longTasks: nat)

  /** The memory group. */
  datatype MemoryUsage = MemoryUsage(heapUsed: Option<Summary>, heapUsedPercent: Option<Summary>)

  /** One report; the time stamp, agent and page address come from the environment. */
  datatype Report = Report(timestamp: string, coreWebVitals: CoreWebVitals,
                           performance: LoadPerformance, memory: MemoryUsage,
                           userAgent: string, url: string)

  /** A property read on the summary object: present or `undefined`. */
  function Lookup(summary: map<string, Summary>, name: string): Option<Summary>
  {
    if name in summary then Some(summary[name]) else None
  }

  /** The statistics of the series `name`, or absent when it was never recorded. */
  function SummaryOf(m: Metrics, name: string): Option<Summary>
    requires WellFormed(m)
  {
    if name in m then Some(Summarize(m[name])) else None
  }

  /** The report's projection of the summary: `longTasks` is LONG_TASK's count or 0. */
  function BuildReport(summary: map<string, Summary>, timestamp: string,
                       userAgent: string, url: string): Report
  {
    Report(timestamp,
      CoreWebVitals(Lookup(summary, "FCP"), Lookup(summary, "LCP"),
                    Lookup(summary, "CLS"), Lookup(summary, "FID")),
      LoadPerformance(Lookup(summary, "LOAD_COMPLETE"), Lookup(summary, "DOM_PROCESSING"),
                      if "LONG_TASK" in summary then summary["LONG_TASK"].count else 0),
      MemoryUsage(Lookup(summary, "JS_HEAP_SIZE"), Lookup(summary, "JS_HEAP_USED_PCT")),
      userAgent, url)
  }

  // ---------------------------------------------------------------------
  // The monitor
  // ---------------------------------------------------------------------

  class PerformanceMonitor {
    /** Metric name to its retained samples, oldest first. */
    var metrics: Metrics
    /** The running layout-shift total that `measureCLS` keeps between callbacks. */
    var clsValue: real
    /** Every `recordMetric` call since construction or the last `destroy`. */
    ghost var log: seq<Entry>

    /** The store is exactly what replaying the calls since the last reset gives. */
    ghost predicate Valid()
      reads this
    {
      metrics == Replay(log) && WellFormed(metrics)
    }

    constructor ()
      ensures Valid()
      ensures metrics == map[] && log == [] && clsValue == 0.0
    {
      metrics := map[];
      clsValue := 0.0;
      log := [];
    }

    /**
     * Appends a sample for `name` stamped `now`, creating the series when
     * absent and dropping the oldest samples beyond the retention limit;
     * `warned` tells whether the threshold warning was logged.
     */
    method RecordMetric(name: string, value: real, now: int) returns (warned: bool)
      requires Valid()
      modifies this
      ensures Valid()
      ensures log == old(log) + [Entry(name, Sample(value, now))]
      ensures metrics == Record(old(metrics), name, Sample(value, now))
      ensures clsValue == old(clsValue)
      ensures warned == LogSignificantMetrics(name, value)
    {
      var sample := Sample(value, now);
      // a name seen for the first time starts from an empty series
      var entries := if name in metrics then metrics[name] else [];
      entries := entries + [sample];
      if |entries| > RetentionLimit {
        entries := entries[|entries| - RetentionLimit..];
      }
      metrics := metrics[name := entries];
      ReplaySnoc(log, Entry(name, sample));
      log := log + [Entry(name, sample)];
      ReplayWellFormed(log);
      warned := LogSignificantMetrics(name, value);
    }

    /**
     * The statistics of every series: one entry per recorded name, each the
     * summary of that name's retained samples.
     */
    method GetMetrics() returns (summary: map<string, Summary>)
      requires Valid()
      ensures summary.Keys == metrics.Keys
      ensures forall n :: n in summary ==> summary[n] == Summarize(metrics[n])
      ensures summary.Keys == set e | e in log :: e.name
    {
      RecordedNames(log);
      summary := map[];
      var todo := metrics.Keys;
      while todo != {}
        invariant todo <= metrics.Keys
        invariant summary.Keys == metrics.Keys - todo
        invariant forall n :: n in summary ==> summary[n] == Summarize(metrics[n])
        decreases todo
      {
        var n :| n in todo;
        summary := summary[n := Summarize(metrics[n])];
        todo := todo - {n};
      }
    }

    /**
     * The report: each group holds the statistics of its series or absent,
     * `longTasks` is the number of retained LONG_TASK samples (0 when none),
     * which is the number recorded since the last reset capped at the
     * retention limit. The store is left as it was.
     */
    method GenerateReport(timestamp: string, userAgent: string, url: string) returns (r: Report)
      requires Valid()
      ensures r.timestamp == timestamp && r.userAgent == userAgent && r.url == url
      ensures r.coreWebVitals == CoreWebVitals(SummaryOf(metrics, "FCP"), SummaryOf(metrics, "LCP"),
                                               SummaryOf(metrics, "CLS"), SummaryOf(metrics, "FID"))
      ensures r.performance.loadTime == SummaryOf(metrics, "LOAD_COMPLETE")
      ensures r.performance.domProcessing == SummaryOf(metrics, "DOM_PROCESSING")
      ensures r.memory == MemoryUsage(SummaryOf(metrics, "JS_HEAP_SIZE"),
                                      SummaryOf(metrics, "JS_HEAP_USED_PCT"))
      ensures r.performance.longTasks == |Series(metrics, "LONG_TASK")|
      ensures var n := |SamplesFor(log, "LONG_TASK")|;
        r.performance.longTasks == if n <= RetentionLimit then n else RetentionLimit
    {
      var summary := GetMetrics();
      r := BuildReport(summary, timestamp, userAgent, url);
      ReplaySeries(log, "LONG_TASK");
    }

    /** Clears the store; the layout-shift total lives on in its observer. */
    method Destroy()
      modifies this
      ensures Valid()
      ensures metrics == map[] && log == [] && clsValue == old(clsValue)
    {
      metrics := map[];
      log := [];
    }

    /** Records the seven navigation phase durations of `e`, in order. */
    method ProcessNavigationEntry(e: NavigationEntry, now: int)
      requires Valid()
      modifies this
      ensures Valid()
      ensures log == old(log) + Stamp(NavigationMetrics(e), now)
      ensures clsValue == old(clsValue)
    {
      var readings := NavigationMetrics(e);
      for i := 0 to |readings|
        invariant Valid()
        invariant log == old(log) + Stamp(readings[..i], now)
        invariant clsValue == old(clsValue)
      {
        ghost var before := log;
        var _ := RecordMetric(readings[i].name, readings[i].value, now);
        StampAppend(old(log), before, log, readings, i, now);
      }
      assert readings[..|readings|] == readings;
    }

    /** Records a measure's duration under `MEASURE_` and its upper-cased name. */
    method ProcessMeasureEntry(name: string, duration: real, now: int) returns (warned: bool)
      requires Valid()
      modifies this
      ensures Valid()
      ensures log == old(log) + [Entry(MeasureMetricName(name), Sample(duration, now))]
      ensures metrics == Record(old(metrics), MeasureMetricName(name), Sample(duration, now))
      ensures clsValue == old(clsValue)
      ensures warned == LogSignificantMetrics(MeasureMetricName(name), duration)
      ensures !warned
    {
      warned := RecordMetric(MeasureMetricName(name), duration, now);
    }

    /**
     * Records a long task's duration under LONG_TASK; `thresholdWarned` is the
     * threshold diagnostic, `longTaskWarned` the separate one above 100 ms.
     */
    method ProcessLongTaskEntry(duration: real, now: int)
      returns (thresholdWarned: bool, longTaskWarned: bool)
      requires Valid()
      modifies this
      ensures Valid()
      ensures log == old(log) + [Entry("LONG_TASK", Sample(duration, now))]
      ensures metrics == Record(old(metrics), "LONG_TASK", Sample(duration, now))
      ensures clsValue == old(clsValue)
      ensures thresholdWarned == LogSignificantMetrics("LONG_TASK", duration)
      ensures longTaskWarned == (duration > LongTaskWarningMs)
    {
      thresholdWarned := RecordMetric("LONG_TASK", duration, now);
      longTaskWarned := duration > LongTaskWarningMs;
    }

    /**
     * One shift of a callback: counted and recorded unless it followed recent
     * input; `warned` tells whether recording the new total drew the CLS warning.
     */
    method ProcessLayoutShift(e: LayoutShift, now: int) returns (warned: bool)
      requires Valid()
      modifies this
      ensures Valid()
      ensures clsValue == old(clsValue) + (if e.hadRecentInput then 0.0 else e.value)
      ensures log == old(log) + ShiftCall(e, clsValue, now)
      ensures warned == (!e.hadRecentInput && LogSignificantMetrics("CLS", clsValue))
    {
      warned := false;
      if !e.hadRecentInput {
        clsValue := clsValue + e.value;
        warned := RecordMetric("CLS", clsValue, now);
      }
    }

    /**
     * One layout-shift callback: every shift without recent input is added to
     * the running total, and the new total is recorded under CLS;
     * `warnings` holds, for each total recorded, whether it drew the CLS warning.
     */
    method ProcessLayoutShifts(entries: seq<LayoutShift>, now: int) returns (warnings: seq<bool>)
      requires Valid()
      modifies this
      ensures Valid()
      ensures clsValue == old(clsValue) + QualifyingSum(entries)
      ensures log == old(log) + ShiftLog(old(clsValue), entries, now)
      ensures |warnings| == |ShiftTotals(old(clsValue), entries)|
      ensures forall k :: 0 <= k < |warnings| ==>
        warnings[k] == LogSignificantMetrics("CLS", ShiftTotals(old(clsValue), entries)[k])
    {
      ghost var cls0 := clsValue;
      warnings := [];
      for i := 0 to |entries|
        invariant Valid()
        invariant clsValue == cls0 + QualifyingSum(entries[..i])
        invariant log == old(log) + ShiftLog(cls0, entries[..i], now)
        invariant CLSWarnings(warnings, ShiftTotals(cls0, entries[..i]))
      {
        ghost var before, clsBefore, warningsBefore := log, clsValue, warnings;
        var warned := ProcessLayoutShift(entries[i], now);
        if !entries[i].hadRecentInput {
          warnings := warnings + [warned];
        }
        ShiftAdvance(old(log), before, log, cls0, clsBefore, clsValue, entries, i, now);
        WarningsAdvance(cls0, entries, i, warningsBefore, warnings, clsValue);
      }
      assert entries[..|entries|] == entries;
    }
  }
}

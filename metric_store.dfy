/**
 * The bounded-retention metric store behind `PerformanceMonitor`, as values:
 * a map from metric name to the samples kept for it, the effect of one
 * `recordMetric` call on that map, and the summary statistics `getMetrics`
 * derives from one series.
 */
module MetricStore {

  /** One stored observation: the recorded value and the time (ms) it was recorded at. */
  datatype Sample = Sample(value: real, timestamp: int)

  /** One `recordMetric` call: the series it wrote to and the sample it appended. */
  datatype Entry = Entry(name: string, sample: Sample)

  /** The `metrics` map: metric name to its samples, oldest first. */
  type Metrics = map<string, seq<Sample>>

  /** The number of samples kept per series. */
  const RetentionLimit: nat := 100

  /** The samples held for `name`, or none when the series does not exist yet. */
  function Series(m: Metrics, name: string): seq<Sample>
  {
    if name in m then m[name] else []
  }

  /** Drops samples from the front until at most RetentionLimit remain. */
  function Trim(s: seq<Sample>): (r: seq<Sample>)
    ensures |r| == if |s| <= RetentionLimit then |s| else RetentionLimit
  {
    if |s| > RetentionLimit then s[|s| - RetentionLimit..] else s
  }

  /** Cutting the front never loses the most recent sample. */
  lemma TrimKeepsLast(s: seq<Sample>)
    requires |s| > 0
    ensures |Trim(s)| > 0 && Trim(s)[|Trim(s)| - 1] == s[|s| - 1]
  {
    if |s| > RetentionLimit {
      var t := s[|s| - RetentionLimit..];
      assert t[RetentionLimit - 1] == s[|s| - 1];
    }
  }

  /**
   * One `recordMetric(name, value)`: the series is created when absent, the
   * sample is appended, and the front is cut so that RetentionLimit remain.
   */
  function Record(m: Metrics, name: string, sample: Sample): Metrics
  {
    m[name := Trim(Series(m, name) + [sample])]
  }

  /**
   * The effect of one call: the named series exists afterwards and ends with
   * the new sample; it grew by one, or stayed at the limit with its oldest
   * sample dropped; no other series changed.
   */
  lemma RecordEffect(m: Metrics, name: string, sample: Sample)
    ensures var r := Record(m, name, sample);
      && r.Keys == m.Keys + {name}
      && (forall k :: k in m && k != name ==> k in r && r[k] == m[k])
      && var before := Series(m, name);
      && |r[name]| == (if |before| < RetentionLimit then |before| + 1 else RetentionLimit)
      && r[name] == (before + [sample])[|before| + 1 - |r[name]|..]
      && r[name][|r[name]| - 1] == sample
  {
    var before := Series(m, name);
    var kept := Trim(before + [sample]);
    assert kept[|kept| - 1] == sample;
  }

  /** Every series exists only with at least one and at most RetentionLimit samples. */
  ghost predicate WellFormed(m: Metrics)
  {
    forall k :: k in m ==> 0 < |m[k]| <= RetentionLimit
  }

  /** The store after the calls in `log`, starting from the empty store. */
  function Replay(log: seq<Entry>): Metrics
  {
    if log == [] then map[]
    else
      var e := log[|log| - 1];
      Record(Replay(log[..|log| - 1]), e.name, e.sample)
  }

  /** Replaying one more call applies it to the store the earlier calls built. */
  lemma ReplaySnoc(log: seq<Entry>, e: Entry)
    ensures Replay(log + [e]) == Record(Replay(log), e.name, e.sample)
  {
    assert (log + [e])[..|log|] == log;
  }

  /** The samples recorded under `name` in `log`, in call order. */
  function SamplesFor(log: seq<Entry>, name: string): seq<Sample>
  {
    if log == [] then []
    else
      var e := log[|log| - 1];
      SamplesFor(log[..|log| - 1], name) + (if e.name == name then [e.sample] else [])
  }

  /** Cutting before or after one more append leaves the same suffix. */
  lemma TrimSnoc(s: seq<Sample>, x: Sample)
    ensures Trim(Trim(s) + [x]) == Trim(s + [x])
  {
    if |s| >= RetentionLimit {
      assert Trim(s) + [x] == (s + [x])[|s| - RetentionLimit..];
    }
  }

  /** The growth of a series from one call: one more sample, or the oldest one replaced. */
  lemma RecordGrowth(m: Metrics, name: string, sample: Sample)
    requires WellFormed(m)
    ensures name in m && |m[name]| < RetentionLimit ==> Record(m, name, sample)[name] == m[name] + [sample]
    ensures name in m && |m[name]| == RetentionLimit ==> Record(m, name, sample)[name] == m[name][1..] + [sample]
    ensures name !in m ==> Record(m, name, sample)[name] == [sample]
  {
  }

  /** Recording keeps every series non-empty and within the retention limit. */
  lemma {:induction false} ReplayWellFormed(log: seq<Entry>)
    ensures WellFormed(Replay(log))
  {
    if log != [] {
      var init, e := log[..|log| - 1], log[|log| - 1];
      ReplayWellFormed(init);
      var before, after := Replay(init), Replay(log);
      assert after == Record(before, e.name, e.sample);
      forall k | k in after
        ensures 0 < |after[k]| <= RetentionLimit
      {
        if k != e.name {
          assert k in before;
        }
      }
    }
  }

  /** After any sequence of calls, a series exists exactly for the names that were recorded. */
  lemma {:induction false} RecordedNames(log: seq<Entry>)
    ensures Replay(log).Keys == set e | e in log :: e.name
  {
    if log != [] {
      var init, last := log[..|log| - 1], log[|log| - 1];
      RecordedNames(init);
      assert Replay(log) == Record(Replay(init), last.name, last.sample);

      assert forall e :: e in log <==> e in init || e == last;
    }
  }

  /**
   * After any sequence of calls, the series of a name holds the last
   * min(n, RetentionLimit) samples recorded under it, in call order, and
   * exists exactly when at least one sample was.
   */
  lemma {:induction false} ReplaySeries(log: seq<Entry>, name: string)
    ensures name in Replay(log) <==> SamplesFor(log, name) != []
    ensures Series(Replay(log), name) == Trim(SamplesFor(log, name))
  {
    if log != [] {
      var init, e := log[..|log| - 1], log[|log| - 1];
      ReplaySeries(init, name);
      var before, after := Replay(init), Replay(log);
      assert after == Record(before, e.name, e.sample);
      var earlier := SamplesFor(init, name);
      assert SamplesFor(log, name) == earlier + (if e.name == name then [e.sample] else []);
      if e.name == name {
        TrimSnoc(earlier, e.sample);
      }
    }
  }

  /** The statistics `getMetrics` reports for one series. */
  datatype Summary = Summary(current: real, average: real, min: real, max: real, count: nat)

  /** The values of a series (`entries.map(e => e.value)`). */
  function Values(s: seq<Sample>): (vs: seq<real>)
    ensures |vs| == |s| && forall i :: 0 <= i < |s| ==> vs[i] == s[i].value
  {
    seq(|s|, i requires 0 <= i < |s| => s[i].value)
  }

  /** The sum of a list (`values.reduce((a, b) => a + b, 0)`). */
  function Sum(vs: seq<real>): real
  {
    if vs == [] then 0.0 else vs[0] + Sum(vs[1..])
  }

  /** The least value (`Math.min(...values)`). */
  function Min(vs: seq<real>): (r: real)
    requires |vs| > 0
    ensures r in vs
    ensures forall i :: 0 <= i < |vs| ==> r <= vs[i]
  {
    if |vs| == 1 then vs[0]
    else
      var m := Min(vs[1..]);
      if vs[0] <= m then vs[0] else m
  }

  /** The greatest value (`Math.max(...values)`). */
  function Max(vs: seq<real>): (r: real)
    requires |vs| > 0
    ensures r in vs
    ensures forall i :: 0 <= i < |vs| ==> vs[i] <= r
  {
    if |vs| == 1 then vs[0]
    else
      var m := Max(vs[1..]);
      if m <= vs[0] then vs[0] else m
  }

  /** A lower bound of every value bounds the sum by count times that bound. */
  lemma {:induction false} SumAtLeast(vs: seq<real>, lo: real)
    requires forall i :: 0 <= i < |vs| ==> lo <= vs[i]
    ensures (|vs| as real) * lo <= Sum(vs)
  {
    if vs != [] {
      SumAtLeast(vs[1..], lo);
      assert (|vs| as real) * lo == lo + (|vs[1..]| as real) * lo;
    }
  }

  /** An upper bound of every value bounds the sum by count times that bound. */
  lemma {:induction false} SumAtMost(vs: seq<real>, hi: real)
    requires forall i :: 0 <= i < |vs| ==> vs[i] <= hi
    ensures Sum(vs) <= (|vs| as real) * hi
  {
    if vs != [] {
      SumAtMost(vs[1..], hi);
      assert (|vs| as real) * hi == hi + (|vs[1..]| as real) * hi;
    }
  }

  /** The mean of a non-empty list lies between any bounds of its values. */
  lemma AverageWithin(vs: seq<real>, lo: real, hi: real)
    requires |vs| > 0
    requires forall i :: 0 <= i < |vs| ==> lo <= vs[i] <= hi
    ensures lo <= Sum(vs) / (|vs| as real) <= hi
  {
    SumAtLeast(vs, lo);
    SumAtMost(vs, hi);
    DivideBounds(Sum(vs), |vs| as real, lo, hi);
  }

  /** Dividing `n * lo <= s <= n * hi` by a positive `n`. */
  lemma DivideBounds(s: real, n: real, lo: real, hi: real)
    requires n > 0.0 && n * lo <= s <= n * hi
    ensures lo <= s / n <= hi
  {
    var q := s / n;
    assert s == n * q;
  }

  /**
   * The statistics of one non-empty series: `count` its length, `current`
   * its last value, `min` and `max` attained bounds of every value, and
   * `average` the mean, which lies between them like `current` does.
   */
  function Summarize(s: seq<Sample>): (r: Summary)
    requires |s| > 0
    ensures r.count == |s|
    ensures r.current == s[|s| - 1].value
    ensures forall i :: 0 <= i < |s| ==> r.min <= s[i].value <= r.max
    ensures exists i :: 0 <= i < |s| && s[i].value == r.min
    ensures exists i :: 0 <= i < |s| && s[i].value == r.max
    ensures r.average == Sum(Values(s)) / (|s| as real)
    ensures r.min <= r.current <= r.max
    ensures r.min <= r.average <= r.max
  {
    var vs := Values(s);
    var lo, hi := Min(vs), Max(vs);
    AverageWithin(vs, lo, hi);
    assert vs[|s| - 1] == s[|s| - 1].value;
    ghost var iLo :| 0 <= iLo < |vs| && vs[iLo] == lo;
    ghost var iHi :| 0 <= iHi < |vs| && vs[iHi] == hi;
    assert s[iLo].value == lo && s[iHi].value == hi;
    Summary(vs[|vs| - 1], Sum(vs) / (|vs| as real), lo, hi, |vs|)
  }

  /**
   * After any sequence of calls that recorded `name` at least once, its
   * statistics count min(n, RetentionLimit) samples and report as `current`
   * the value of the most recent call for it.
   */
  lemma SummaryAfterCalls(log: seq<Entry>, name: string)
    requires SamplesFor(log, name) != []
    ensures name in Replay(log) && |Replay(log)[name]| > 0
    ensures var n := |SamplesFor(log, name)|;
      Summarize(Replay(log)[name]).count == if n <= RetentionLimit then n else RetentionLimit
    ensures Summarize(Replay(log)[name]).current ==
      SamplesFor(log, name)[|SamplesFor(log, name)| - 1].value
  {
    ReplaySeries(log, name);
    var all := SamplesFor(log, name);
    var kept := Replay(log)[name];
    TrimKeepsLast(all);
  }
}

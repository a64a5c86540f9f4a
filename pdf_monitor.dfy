/**
 * The PDF performance monitor (src/libs/pdf-monitor.ts): a map of tracking
 * entries kept in insertion order and bounded to 1000 entries, the oldest
 * evicted first, with per-step timings and the averages over the finished
 * entries.
 *
 * `Date.now()` is the parameter `now`; one reading serves both the tracking
 * key and the start time.  Logging is not modelled.
 */
module PdfMonitors {
  import opened Wrappers
  import opened Strings

  /** `maxMetricsHistory`. */
  const MaxMetricsHistory: nat := 1000

  /** `PdfPerformanceMetrics`; times are whole milliseconds. */
  datatype Metrics = Metrics(
    invoiceId: string,
    startTime: int,
    endTime: Option<int>,
    duration: Option<int>,
    templateRenderTime: Option<int>,
    browserSetupTime: Option<int>,
    htmlToContentTime: Option<int>,
    pdfGenerationTime: Option<int>,
    cacheHit: Option<bool>,
    error: Option<string>)

  /** The steps the generator records, each with its value. */
  datatype Step =
    | TemplateRenderTime(ms: int)
    | BrowserSetupTime(ms: int)
    | HtmlToContentTime(ms: int)
    | PdfGenerationTime(ms: int)
    | CacheHit(hit: bool)

  /**
   * The map's contents: its keys in insertion order (the order a JavaScript
   * `Map` iterates in) and the entry under each key.
   */
  datatype MonitorState = MonitorState(keys: seq<string>, metrics: map<string, Metrics>)

  predicate Distinct(xs: seq<string>) {
    forall i, j :: 0 <= i < j < |xs| ==> xs[i] != xs[j]
  }

  /** The key order lists every entry once, and no key is empty. */
  predicate WellFormed(s: MonitorState) {
    && Distinct(s.keys)
    && (set k | k in s.keys) == s.metrics.Keys
    && "" !in s.metrics
  }

  lemma {:induction false} DistinctCardinality(xs: seq<string>)
    requires Distinct(xs)
    ensures |set k | k in xs| == |xs|
    decreases |xs|
  {
    if xs != [] {
      var front := xs[..|xs| - 1];
      DistinctCardinality(front);
      assert (set k | k in xs) == (set k | k in front) + {xs[|xs| - 1]};
      assert xs[|xs| - 1] !in front;
    }
  }

  /** In a valid state the map's size is the length of the key order. */
  lemma SizeIsKeyCount(s: MonitorState)
    requires WellFormed(s)
    ensures |s.metrics| == |s.keys|
  {
    DistinctCardinality(s.keys);
  }

  // ---------------------------------------------------------------------------
  // startTracking
  // ---------------------------------------------------------------------------

  /** The tracking id `${invoiceId}-${now}`. */
  function TrackingId(invoiceId: string, now: int): (key: string)
    ensures |key| > |invoiceId| && key[..|invoiceId|] == invoiceId && key[|invoiceId|] == '-'
  {
    invoiceId + "-" + IntToString(now)
  }

  function NewMetrics(invoiceId: string, now: int): Metrics {
    Metrics(invoiceId, now, None, None, None, None, None, None, None, None)
  }

  /**
   * `startTracking`: the entry is set (a key already present keeps its
   * place), then, when the map holds more than 1000 entries, the first key
   * in insertion order is deleted if it is not empty.
   */
  function StartTrackingIn(s: MonitorState, invoiceId: string, now: int): (r: (MonitorState, string))
    ensures r.1 == TrackingId(invoiceId, now)
    ensures r.1 in r.0.metrics ==> r.0.metrics[r.1] == NewMetrics(invoiceId, now)
    ensures |s.metrics[r.1 := NewMetrics(invoiceId, now)]| <= MaxMetricsHistory ==>
      r.0.metrics == s.metrics[r.1 := NewMetrics(invoiceId, now)]
  {
    var key := TrackingId(invoiceId, now);
    var keys := if key in s.metrics then s.keys else s.keys + [key];
    var metrics := s.metrics[key := NewMetrics(invoiceId, now)];
    if |metrics| > MaxMetricsHistory && keys != [] && keys[0] != "" then
      (MonitorState(keys[1..], metrics - {keys[0]}), key)
    else
      (MonitorState(keys, metrics), key)
  }

  /**
   * In a valid state of at most 1000 entries, `startTracking` keeps the state
   * valid and at most 1000 entries, the new entry is present and last in
   * order, and an eviction removes exactly the oldest entry.
   */
  lemma StartTrackingBounded(s: MonitorState, invoiceId: string, now: int)
    requires WellFormed(s) && |s.metrics| <= MaxMetricsHistory
    ensures var (s', key) := StartTrackingIn(s, invoiceId, now);
      && WellFormed(s') && |s'.metrics| <= MaxMetricsHistory
      && key in s'.metrics && s'.metrics[key] == NewMetrics(invoiceId, now)
      && (key !in s.metrics ==> |s'.keys| >= 1 && s'.keys[|s'.keys| - 1] == key)
  {
    var key := TrackingId(invoiceId, now);
    SizeIsKeyCount(s);
    if key in s.metrics {
      StartExisting(s, invoiceId, now);
    } else if |s.metrics| < MaxMetricsHistory {
      StartNew(s, invoiceId, now);
      assert (s.keys + [key])[|s.keys|] == key;
    } else {
      StartEvicting(s, invoiceId, now);
      assert (s.keys + [key])[1..][|s.keys| - 1] == key;
    }
  }

  lemma StartExisting(s: MonitorState, invoiceId: string, now: int)
    requires WellFormed(s) && TrackingId(invoiceId, now) in s.metrics && |s.metrics| <= MaxMetricsHistory
    ensures StartTrackingIn(s, invoiceId, now).0
      == MonitorState(s.keys, s.metrics[TrackingId(invoiceId, now) := NewMetrics(invoiceId, now)])
  {
    var metrics := s.metrics[TrackingId(invoiceId, now) := NewMetrics(invoiceId, now)];
    assert metrics.Keys == s.metrics.Keys;
    assert |metrics| == |s.metrics|;
  }

  lemma StartNew(s: MonitorState, invoiceId: string, now: int)
    requires WellFormed(s) && TrackingId(invoiceId, now) !in s.metrics && |s.metrics| < MaxMetricsHistory
    ensures var key := TrackingId(invoiceId, now);
      StartTrackingIn(s, invoiceId, now).0 == MonitorState(s.keys + [key], s.metrics[key := NewMetrics(invoiceId, now)])
    ensures WellFormed(StartTrackingIn(s, invoiceId, now).0)
  {
    StartNewState(s, invoiceId, now);
    AddedValid(s, TrackingId(invoiceId, now), NewMetrics(invoiceId, now));
  }

  /** Adding a new, non-empty key at the end keeps the order and the map in step. */
  lemma AddedValid(s: MonitorState, key: string, m: Metrics)
    requires WellFormed(s) && key !in s.metrics && key != ""
    ensures WellFormed(MonitorState(s.keys + [key], s.metrics[key := m]))
  {
    AppendNew(s.keys, key);
    assert s.metrics[key := m].Keys == s.metrics.Keys + {key};
  }

  lemma StartNewState(s: MonitorState, invoiceId: string, now: int)
    requires TrackingId(invoiceId, now) !in s.metrics && |s.metrics| < MaxMetricsHistory
    ensures var key := TrackingId(invoiceId, now);
      StartTrackingIn(s, invoiceId, now).0 == MonitorState(s.keys + [key], s.metrics[key := NewMetrics(invoiceId, now)])
  {
    var key := TrackingId(invoiceId, now);
    var metrics := s.metrics[key := NewMetrics(invoiceId, now)];
    assert metrics.Keys == s.metrics.Keys + {key};
    assert |metrics| == |s.metrics| + 1;
  }

  lemma StartEvicting(s: MonitorState, invoiceId: string, now: int)
    requires WellFormed(s) && TrackingId(invoiceId, now) !in s.metrics && |s.metrics| == MaxMetricsHistory
    ensures var key := TrackingId(invoiceId, now);
      var keys := s.keys + [key];
      StartTrackingIn(s, invoiceId, now).0
        == MonitorState(keys[1..], s.metrics[key := NewMetrics(invoiceId, now)] - {keys[0]})
    ensures WellFormed(StartTrackingIn(s, invoiceId, now).0)
    ensures |StartTrackingIn(s, invoiceId, now).0.metrics| == MaxMetricsHistory
  {
    var key := TrackingId(invoiceId, now);
    var keys := s.keys + [key];
    SizeIsKeyCount(s);
    assert s.keys[0] in s.metrics;
    StartEvictingState(s, invoiceId, now);
    AppendNew(s.keys, key);
    DropFirst(keys);
    EvictedValid(s, key, NewMetrics(invoiceId, now));
  }

  lemma StartEvictingState(s: MonitorState, invoiceId: string, now: int)
    requires TrackingId(invoiceId, now) !in s.metrics && |s.metrics| == MaxMetricsHistory
    requires s.keys != [] && s.keys[0] != ""
    ensures var key := TrackingId(invoiceId, now);
      var keys := s.keys + [key];
      StartTrackingIn(s, invoiceId, now).0
        == MonitorState(keys[1..], s.metrics[key := NewMetrics(invoiceId, now)] - {keys[0]})
  {
    var key := TrackingId(invoiceId, now);
    var metrics := s.metrics[key := NewMetrics(invoiceId, now)];
    assert metrics.Keys == s.metrics.Keys + {key};
    assert |metrics| == |s.metrics| + 1;
  }

  /** Adding a new key and dropping the first keeps the order and the map in step. */
  lemma EvictedValid(s: MonitorState, key: string, m: Metrics)
    requires WellFormed(s) && key !in s.metrics && key != "" && |s.metrics| == |s.keys| >= 1
    ensures var keys := s.keys + [key];
      && WellFormed(MonitorState(keys[1..], s.metrics[key := m] - {keys[0]}))
      && |s.metrics[key := m] - {keys[0]}| == |s.metrics|
  {
    var keys := s.keys + [key];
    var metrics := s.metrics[key := m];
    AddedValid(s, key, m);
    DroppedValid(MonitorState(keys, metrics));
    SizeIsKeyCount(MonitorState(keys[1..], metrics - {keys[0]}));
  }

  /** Deleting the first key keeps the order and the map in step. */
  lemma DroppedValid(s: MonitorState)
    requires WellFormed(s) && s.keys != []
    ensures WellFormed(MonitorState(s.keys[1..], s.metrics - {s.keys[0]}))
  {
    DropFirst(s.keys);
    assert (s.metrics - {s.keys[0]}).Keys == s.metrics.Keys - {s.keys[0]};
  }

  lemma AppendNew(keys: seq<string>, key: string)
    requires Distinct(keys) && key !in keys
    ensures Distinct(keys + [key])
    ensures (set k | k in keys + [key]) == (set k | k in keys) + {key}
  {
  }

  lemma DropFirst(keys: seq<string>)
    requires Distinct(keys) && keys != []
    ensures Distinct(keys[1..])
    ensures (set k | k in keys[1..]) == (set k | k in keys) - {keys[0]}
  {
    forall k | k in keys && k != keys[0]
      ensures k in keys[1..]
    {
      var i :| 0 <= i < |keys| && keys[i] == k;
      assert keys[1..][i - 1] == k;
    }
  }

  /** On overflow the entry evicted is the oldest one, and the rest keep their order. */
  lemma EvictsOldest(s: MonitorState, invoiceId: string, now: int)
    requires WellFormed(s) && |s.metrics| == MaxMetricsHistory
    requires TrackingId(invoiceId, now) !in s.metrics
    ensures var s' := StartTrackingIn(s, invoiceId, now).0;
      && s.keys[0] !in s'.metrics
      && s'.keys == s.keys[1..] + [TrackingId(invoiceId, now)]
  {
    SizeIsKeyCount(s);
    assert s.keys[0] in s.metrics;
  }

  // ---------------------------------------------------------------------------
  // recordStep and endTracking
  // ---------------------------------------------------------------------------

  function WithStep(m: Metrics, step: Step): (m': Metrics)
    ensures m'.invoiceId == m.invoiceId && m'.startTime == m.startTime
    ensures m'.duration == m.duration && m'.error == m.error
  {
    match step
    case TemplateRenderTime(ms) => m.(templateRenderTime := Some(ms))
    case BrowserSetupTime(ms) => m.(browserSetupTime := Some(ms))
    case HtmlToContentTime(ms) => m.(htmlToContentTime := Some(ms))
    case PdfGenerationTime(ms) => m.(pdfGenerationTime := Some(ms))
    case CacheHit(hit) => m.(cacheHit := Some(hit))
  }

  /** `recordStep`: an unknown key changes nothing; otherwise only that entry's step field. */
  function RecordStepIn(s: MonitorState, trackingId: string, step: Step): (s': MonitorState)
    ensures trackingId !in s.metrics ==> s' == s
    ensures s'.keys == s.keys && s'.metrics.Keys == s.metrics.Keys
    ensures forall k :: k in s.metrics && k != trackingId ==> s'.metrics[k] == s.metrics[k]
    ensures trackingId in s.metrics ==> s'.metrics[trackingId] == WithStep(s.metrics[trackingId], step)
  {
    if trackingId in s.metrics then
      s.(metrics := s.metrics[trackingId := WithStep(s.metrics[trackingId], step)])
    else
      s
  }

  /**
   * `endTracking`: null for an unknown key; otherwise the end time is now, the
   * duration is the time since the start, and a non-empty error is kept.
   */
  function EndTrackingIn(s: MonitorState, trackingId: string, now: int, error: Option<string>)
    : (r: (MonitorState, Option<Metrics>))
    ensures r.1.None? <==> trackingId !in s.metrics
    ensures r.1.None? ==> r.0 == s
    ensures r.1.Some? ==>
      var m := s.metrics[trackingId];
      && r.1.value.endTime == Some(now)
      && r.1.value.duration == Some(now - m.startTime)
      && r.1.value.error == (if error.Some? && error.value != "" then error else m.error)
      && r.1.value.invoiceId == m.invoiceId && r.1.value.startTime == m.startTime
      && r.0 == s.(metrics := s.metrics[trackingId := r.1.value])
  {
    if trackingId !in s.metrics then (s, None)
    else
      var m := s.metrics[trackingId];
      var m' := m.(endTime := Some(now), duration := Some(now - m.startTime),
                   error := if error.Some? && error.value != "" then error else m.error);
      (s.(metrics := s.metrics[trackingId := m']), Some(m'))
  }

  lemma RecordAndEndKeepValid(s: MonitorState, trackingId: string, step: Step, now: int, error: Option<string>)
    requires WellFormed(s)
    ensures WellFormed(RecordStepIn(s, trackingId, step))
    ensures WellFormed(EndTrackingIn(s, trackingId, now, error).0)
    ensures |EndTrackingIn(s, trackingId, now, error).0.metrics| == |s.metrics|
  {
  }

  // ---------------------------------------------------------------------------
  // getAverageMetrics
  // ---------------------------------------------------------------------------

  datatype AverageMetrics = AverageMetrics(averageDuration: int, cacheHitRate: int, errorRate: int, totalGenerations: nat)

  /** The entries that have a duration, in insertion order. */
  function Finished(keys: seq<string>, metrics: map<string, Metrics>): (fs: seq<Metrics>)
    ensures |fs| <= |keys|
    ensures forall i :: 0 <= i < |fs| ==> fs[i].duration.Some?
  {
    if keys == [] then []
    else
      var k := keys[|keys| - 1];
      var front := Finished(keys[..|keys| - 1], metrics);
      if k in metrics && metrics[k].duration.Some? then front + [metrics[k]] else front
  }

  function TotalDuration(fs: seq<Metrics>): int {
    if fs == [] then 0 else TotalDuration(fs[..|fs| - 1]) + fs[|fs| - 1].duration.GetOr(0)
  }

  /** A truthy `cacheHit`. */
  predicate IsHit(m: Metrics) {
    m.cacheHit == Some(true)
  }

  /** A truthy `error`. */
  predicate IsError(m: Metrics) {
    m.error.Some? && m.error.value != ""
  }

  function CountHits(fs: seq<Metrics>): (n: nat)
    ensures n <= |fs|
  {
    if fs == [] then 0 else CountHits(fs[..|fs| - 1]) + (if IsHit(fs[|fs| - 1]) then 1 else 0)
  }

  function CountErrors(fs: seq<Metrics>): (n: nat)
    ensures n <= |fs|
  {
    if fs == [] then 0 else CountErrors(fs[..|fs| - 1]) + (if IsError(fs[|fs| - 1]) then 1 else 0)
  }

  /**
   * `Math.round(p / q)` for a positive `q`: the integer nearest to the
   * quotient, a tie rounding up.
   */
  function RoundDiv(p: int, q: int): (r: int)
    requires q > 0
    ensures 2 * q * r <= 2 * p + q < 2 * q * r + 2 * q
  {
    (2 * p + q) / (2 * q)
  }

  lemma RoundDivPercentBounds(k: nat, n: nat)
    requires 0 < n && k <= n
    ensures 0 <= RoundDiv(100 * k, n) <= 100
  {
    var r := RoundDiv(100 * k, n);
    if r > 100 {
      MulMonotone(2 * n, 101, r);
    }
    if r < 0 {
      MulMonotone(2 * n, r, -1);
    }
  }

  lemma MulMonotone(a: int, b: int, c: int)
    requires a >= 0 && b <= c
    ensures a * b <= a * c
  {
    assert a * c - a * b == a * (c - b);
  }

  function Averages(fs: seq<Metrics>): (a: AverageMetrics)
    ensures a.totalGenerations == |fs|
  {
    if fs == [] then AverageMetrics(0, 0, 0, 0)
    else AverageMetrics(RoundDiv(TotalDuration(fs), |fs|), RoundDiv(100 * CountHits(fs), |fs|),
                        RoundDiv(100 * CountErrors(fs), |fs|), |fs|)
  }

  /**
   * What `getAverageMetrics` reports: zeros when no entry has finished;
   * otherwise as many generations as finished entries and both rates
   * between 0 and 100.
   */
  lemma AveragesBounds(s: MonitorState)
    ensures var fs := Finished(s.keys, s.metrics);
      var a := Averages(fs);
      && a.totalGenerations == |fs| <= |s.keys|
      && (fs == [] ==> a == AverageMetrics(0, 0, 0, 0))
      && 0 <= a.cacheHitRate <= 100 && 0 <= a.errorRate <= 100
  {
    var fs := Finished(s.keys, s.metrics);
    if fs != [] {
      RoundDivPercentBounds(CountHits(fs), |fs|);
      RoundDivPercentBounds(CountErrors(fs), |fs|);
    }
  }

  /** An entry that has not ended is not counted: ending it adds exactly one generation. */
  lemma {:induction false} EndingCountsOnce(keys: seq<string>, metrics: map<string, Metrics>, id: string, m: Metrics)
    requires Distinct(keys) && id in keys && id in metrics
    requires metrics[id].duration.None? && m.duration.Some?
    ensures |Finished(keys, metrics[id := m])| == |Finished(keys, metrics)| + 1
    decreases |keys|
  {
    var front := keys[..|keys| - 1];
    var last := keys[|keys| - 1];
    if last == id {
      assert id !in front;
      FinishedIgnoresOthers(front, metrics, id, m);
    } else {
      assert id in front;
      EndingCountsOnce(front, metrics, id, m);
    }
  }

  lemma {:induction false} FinishedIgnoresOthers(keys: seq<string>, metrics: map<string, Metrics>, id: string, m: Metrics)
    requires id !in keys
    ensures Finished(keys, metrics[id := m]) == Finished(keys, metrics)
    decreases |keys|
  {
    if keys != [] {
      FinishedIgnoresOthers(keys[..|keys| - 1], metrics, id, m);
    }
  }

  /** One more key in the loop adds its entry when it has finished. */
  lemma FinishedStep(keys: seq<string>, metrics: map<string, Metrics>, i: nat)
    requires i < |keys|
    ensures keys[i] in metrics && metrics[keys[i]].duration.Some? ==>
      Finished(keys[..i + 1], metrics) == Finished(keys[..i], metrics) + [metrics[keys[i]]]
    ensures !(keys[i] in metrics && metrics[keys[i]].duration.Some?) ==>
      Finished(keys[..i + 1], metrics) == Finished(keys[..i], metrics)
  {
    assert keys[..i + 1][..i] == keys[..i];
  }

  /** One more finished entry adds to every running figure. */
  lemma AppendFigures(fs: seq<Metrics>, m: Metrics)
    ensures TotalDuration(fs + [m]) == TotalDuration(fs) + m.duration.GetOr(0)
    ensures CountHits(fs + [m]) == CountHits(fs) + (if IsHit(m) then 1 else 0)
    ensures CountErrors(fs + [m]) == CountErrors(fs) + (if IsError(m) then 1 else 0)
  {
    assert (fs + [m])[..|fs|] == fs;
  }

  // ---------------------------------------------------------------------------
  // The monitor object
  // ---------------------------------------------------------------------------

  class PdfPerformanceMonitor {
    var keys: seq<string>
    var metrics: map<string, Metrics>

    function State(): MonitorState
      reads this
    {
      MonitorState(keys, metrics)
    }

    /** The keys list the entries once each, in insertion order, and at most 1000 are kept. */
    ghost predicate Valid()
      reads this
    {
      WellFormed(State()) && |metrics| <= MaxMetricsHistory
    }

    constructor ()
      ensures State() == MonitorState([], map[])
      ensures Valid()
    {
      keys := [];
      metrics := map[];
    }

    method StartTracking(invoiceId: string, now: int) returns (trackingId: string)
      requires Valid()
      modifies this
      ensures Valid()
      ensures (State(), trackingId) == StartTrackingIn(old(State()), invoiceId, now)
    {
      ghost var s0 := State();
      StartTrackingBounded(s0, invoiceId, now);
      trackingId := invoiceId + "-" + IntToString(now);
      if trackingId !in metrics {
        keys := keys + [trackingId];
      }
      metrics := metrics[trackingId := NewMetrics(invoiceId, now)];
      if |metrics| > MaxMetricsHistory && keys != [] {
        var oldestKey := keys[0];
        if oldestKey != "" {
          metrics := metrics - {oldestKey};
          keys := keys[1..];
        }
      }
    }

    method RecordStep(trackingId: string, step: Step)
      requires Valid()
      modifies this
      ensures Valid()
      ensures State() == RecordStepIn(old(State()), trackingId, step)
    {
      if trackingId in metrics {
        metrics := metrics[trackingId := WithStep(metrics[trackingId], step)];
      }
    }

    method EndTracking(trackingId: string, now: int, error: Option<string>) returns (r: Option<Metrics>)
      requires Valid()
      modifies this
      ensures Valid()
      ensures (State(), r) == EndTrackingIn(old(State()), trackingId, now, error)
    {
      if trackingId !in metrics {
        return None;
      }
      var metric := metrics[trackingId];
      metric := metric.(endTime := Some(now));
      metric := metric.(duration := Some(now - metric.startTime));
      if error.Some? && error.value != "" {
        metric := metric.(error := error);
      }
      metrics := metrics[trackingId := metric];
      r := Some(metric);
    }

    /** One pass over the entries in insertion order, counting the finished ones. */
    method GetAverageMetrics() returns (a: AverageMetrics)
      ensures a == Averages(Finished(keys, metrics))
    {
      var count, totalDuration, cacheHits, errors := TallyFinished();
      if count == 0 {
        return AverageMetrics(0, 0, 0, 0);
      }
      a := AverageMetrics(RoundDiv(totalDuration, count), RoundDiv(100 * cacheHits, count),
                          RoundDiv(100 * errors, count), count);
    }

    /** The loop of `getAverageMetrics`: counts and sums over the finished generations, in key order. */
    method TallyFinished() returns (count: nat, totalDuration: int, cacheHits: nat, errors: nat)
      ensures var fs := Finished(keys, metrics);
        && count == |fs| && totalDuration == TotalDuration(fs)
        && cacheHits == CountHits(fs) && errors == CountErrors(fs)
    {
      count, totalDuration, cacheHits, errors := 0, 0, 0, 0;
      ghost var fs: seq<Metrics> := [];
      for i := 0 to |keys|
        invariant fs == Finished(keys[..i], metrics)
        invariant count == |fs| && totalDuration == TotalDuration(fs)
        invariant cacheHits == CountHits(fs) && errors == CountErrors(fs)
      {
        FinishedStep(keys, metrics, i);
        var k := keys[i];
        if k in metrics && metrics[k].duration.Some? {
          var m := metrics[k];
          AppendFigures(fs, m);
          fs := fs + [m];
          count := count + 1;
          totalDuration := totalDuration + m.duration.value;
          if IsHit(m) {
            cacheHits := cacheHits + 1;
          }
          if IsError(m) {
            errors := errors + 1;
          }
        }
      }
      assert keys[..|keys|] == keys;
    }

    method ClearMetrics()
      modifies this
      ensures State() == MonitorState([], map[])
      ensures Valid()
    {
      keys := [];
      metrics := map[];
    }
  }

  /** After `clearMetrics` the averages are all zero. */
  lemma ClearedAveragesZero()
    ensures Averages(Finished([], map[])) == AverageMetrics(0, 0, 0, 0)
  {
  }
}

/**
 A worker's latency histogram. A duration is cut to whole milliseconds when it is recorded, and
 the mean is cut again when it is read. What the histogram library decides is a parameter: which
 values it accepts, the value it keeps for an accepted one, and its extremes and quantiles.
 */
module SpanAggregator {
  import opened GoInts
  import opened Lists
  import opened Sums

  /** Durations in nanoseconds. */
  datatype Latency = Latency(min: int, max: int, mean: int, p50: int, p95: int, p99: int, p999: int, count: int)

  const NO_LATENCY := Latency(0, 0, 0, 0, 0, 0, 0, 0)

  datatype Library = Library(accepts: nat -> bool, kept: nat -> nat, min: seq<nat> -> nat, max: seq<nat> -> nat,
                             quantile: (seq<nat>, real) -> nat)

  function TotalOf(values: seq<nat>): nat {
    if values == [] then 0 else TotalOf(values[..|values| - 1]) + values[|values| - 1]
  }

  /** What the histogram keeps of these durations, in milliseconds. */
  function Kept(kept: nat -> nat, durations: seq<nat>): (values: seq<nat>)
    ensures |values| == |durations|
  {
    if durations == [] then []
    else Kept(kept, durations[..|durations| - 1]) + [kept(durations[|durations| - 1] / NS_PER_MS)]
  }

  lemma RecordedNext(kept: nat -> nat, durations: seq<nat>, d: nat)
    ensures Kept(kept, durations + [d]) == Kept(kept, durations) + [kept(d / NS_PER_MS)]
    ensures TotalOf(durations + [d]) == TotalOf(durations) + d
  {
    Snoc(durations, d);
  }

  /** The durations that count after one more: a value outside the histogram's range is dropped. */
  function Recorded(library: Library, recorded: seq<nat>, duration: nat): seq<nat> {
    if library.accepts(duration / NS_PER_MS) then recorded + [duration] else recorded
  }

  /** `Histogram.Mean`, converted to an integer. */
  function MeanMs(values: seq<nat>): nat {
    if values == [] then 0 else TotalOf(values) / |values|
  }

  /** Everything a worker measures is in whole milliseconds. */
  predicate WholeMillis(l: Latency) {
    && Whole(l.min) && Whole(l.max) && Whole(l.mean) && Whole(l.p50) && Whole(l.p95) && Whole(l.p99) && Whole(l.p999)
  }

  predicate Whole(ns: int) {
    ns % NS_PER_MS == 0
  }

  /** `time.Duration(ms) * time.Millisecond`. */
  function Millis(ms: nat): (ns: nat)
    ensures ns == ms * NS_PER_MS && Whole(ns)
  {
    ms * NS_PER_MS
  }

  class SpanAggregator {
    const library: Library
    var values: seq<nat>               // the histogram, as the list of values it keeps
    var count: nat
    ghost var recorded: seq<nat>       // the durations behind them

    ghost predicate Valid()
      reads this
    {
      count == |values| && values == Kept(library.kept, recorded)
    }

    constructor (library: Library)
      ensures Valid() && this.library == library && recorded == []
    {
      this.library, values, count, recorded := library, [], 0, [];
    }

    method Record(duration: nat)
      requires Valid()
      modifies this
      ensures Valid()
      ensures recorded == Recorded(library, old(recorded), duration)
    {
      var durationMs := duration / NS_PER_MS;
      if library.accepts(durationMs) {
        RecordedNext(library.kept, recorded, duration);
        values := values + [library.kept(durationMs)];
        count := count + 1;
        recorded := recorded + [duration];
      }
    }

    method GetPercentiles() returns (l: Latency)
      requires Valid()
      ensures recorded == [] ==> l == NO_LATENCY
      ensures WholeMillis(l) && IsReading(l, library, recorded)
    {
      if count == 0 {
        return NO_LATENCY;
      }
      l := Latency(Millis(library.min(values)), Millis(library.max(values)), Millis(MeanMs(values)),
                   Millis(library.quantile(values, 50.0)), Millis(library.quantile(values, 95.0)),
                   Millis(library.quantile(values, 99.0)), Millis(library.quantile(values, 99.9)), count);
    }

    method Reset()
      modifies this
      ensures Valid() && recorded == []
    {
      values, count, recorded := [], 0, [];
    }
  }

  // ---------- what the mean says about the durations ----------

  /** A worker's reading of its mean and count after these durations. */
  predicate IsMean(l: Latency, kept: nat -> nat, durations: seq<nat>) {
    l.count == |durations| && l.mean == Millis(MeanMs(Kept(kept, durations)))
  }

  /** What the histogram shows after these durations: the library's answers in milliseconds, zero before the first. */
  predicate IsReading(l: Latency, library: Library, durations: seq<nat>) {
    var values := Kept(library.kept, durations);
    && IsMean(l, library.kept, durations)
    && l.min == (if durations == [] then 0 else library.min(values) * 1_000_000)
    && l.max == (if durations == [] then 0 else library.max(values) * 1_000_000)
    && l.p50 == (if durations == [] then 0 else library.quantile(values, 50.0) * 1_000_000)
    && l.p95 == (if durations == [] then 0 else library.quantile(values, 95.0) * 1_000_000)
    && l.p99 == (if durations == [] then 0 else library.quantile(values, 99.0) * 1_000_000)
    && l.p999 == (if durations == [] then 0 else library.quantile(values, 99.9) * 1_000_000)
  }

  /** `sum` nanoseconds over the samples have this mean, up to so much less or more a sample. */
  predicate MeanOf(l: Latency, sum: int, below: int, above: int) {
    l.mean * l.count - below * l.count <= sum <= l.mean * l.count + above * l.count
  }

  /** What the histogram holds, as a latency sum. */
  function KeptNs(kept: nat -> nat, durations: seq<nat>): int {
    TotalOf(Kept(kept, durations)) * NS_PER_MS
  }

  /** For the values the histogram keeps, only the final truncation counts. */
  lemma KeptMean(l: Latency, kept: nat -> nat, durations: seq<nat>)
    requires IsMean(l, kept, durations)
    ensures 0 <= l.mean && MeanOf(l, KeptNs(kept, durations), 0, NS_PER_MS)
  {
    var values, n := Kept(kept, durations), |durations|;
    if n > 0 {
      DivBounds(TotalOf(values), n);
      Scaled(MeanMs(values), n, TotalOf(values));
    }
  }

  lemma DivBounds(a: nat, n: nat)
    requires n > 0
    ensures a / n * n <= a <= a / n * n + n
  {
  }

  lemma Scaled(q: nat, n: nat, a: nat)
    requires q * n <= a <= q * n + n
    ensures q * NS_PER_MS * n <= a * NS_PER_MS <= q * NS_PER_MS * n + NS_PER_MS * n
  {
  }

  /** The library keeps each of these durations to within `e` milliseconds of its whole milliseconds. */
  predicate KeptWithin(kept: nat -> nat, durations: seq<nat>, e: nat) {
    forall d :: d in durations ==> d / NS_PER_MS - e <= kept(d / NS_PER_MS) <= d / NS_PER_MS + e
  }

  lemma SampleIsNear(d: nat, k: nat, e: nat)
    requires d / NS_PER_MS - e <= k <= d / NS_PER_MS + e
    ensures k * NS_PER_MS - e * NS_PER_MS <= d <= k * NS_PER_MS + NS_PER_MS + e * NS_PER_MS
  {
  }

  /** Recording loses less than a millisecond a sample, apart from the library's own error. */
  lemma {:induction false} KeptIsNear(kept: nat -> nat, durations: seq<nat>, e: nat, below: nat)
    requires KeptWithin(kept, durations, e) && below == e * NS_PER_MS
    ensures KeptNs(kept, durations) - below * |durations| <= TotalOf(durations)
    ensures TotalOf(durations) <= KeptNs(kept, durations) + (NS_PER_MS + below) * |durations|
  {
    if durations != [] {
      var init, last := durations[..|durations| - 1], durations[|durations| - 1];
      KeptIsNear(kept, init, e, below);
      assert last in durations;
      SampleIsNear(last, kept(last / NS_PER_MS), e);
      Snoc(Kept(kept, init), kept(last / NS_PER_MS));
      Distribute(|init|, 1, below);
      Distribute(|init|, 1, NS_PER_MS + below);
    }
  }

  /** For the durations themselves both truncations count, and the library's error on either side. */
  lemma DurationMean(l: Latency, kept: nat -> nat, durations: seq<nat>, e: nat, below: nat)
    requires IsMean(l, kept, durations) && KeptWithin(kept, durations, e) && below == e * NS_PER_MS
    ensures 0 <= l.mean && MeanOf(l, TotalOf(durations), below, 2 * NS_PER_MS + below)
  {
    KeptMean(l, kept, durations);
    KeptIsNear(kept, durations, e, below);
    Distribute(NS_PER_MS, NS_PER_MS + below, |durations|);
  }
}

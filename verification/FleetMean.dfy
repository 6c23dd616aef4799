/**
 What the fleet's reported mean latency says about the requests. Milliseconds are lost when a
 duration is recorded, when a worker's mean is read, and when the fleet's mean is reported; the
 wire between worker and orchestrator loses nothing.
 */
module FleetMean {
  import opened Aggregator
  import opened GoInts
  import opened SpanAggregator
  import opened Sums

  // ---------- the wire ----------

  /** A snapshot survives the wire exactly when its latencies are in whole milliseconds, as a worker measures them. */
  lemma WireKeepsSnapshotIff(s: Snapshot)
    ensures FromBatch(ToBatch(s)) == s <==> WholeMillis(s.latency)
  {
    var l := s.latency;
    forall ns ensures Quotient(ns, NS_PER_MS) * NS_PER_MS == ns <==> Whole(ns) { WholeQuotient(ns); }
    assert FromBatch(ToBatch(s)) == s <==> FromBatch(ToBatch(s)).latency == l;
  }

  lemma WholeQuotient(ns: int)
    ensures Quotient(ns, NS_PER_MS) * NS_PER_MS == ns <==> Whole(ns)
  {
  }

  /** The snapshots the orchestrator holds when each worker's latest batch has arrived. */
  function Received(own: Workers): Workers {
    map id | id in own :: FromBatch(ToBatch(own[id]))
  }

  lemma NothingLost(own: Workers)
    requires forall id :: Counts(own, id) ==> WholeMillis(own[id].latency)
    ensures forall id :: id in own ==> Counts(Received(own), id) == Counts(own, id)
    ensures forall id :: Counts(own, id) ==> Received(own)[id] == own[id]
  {
    forall id | Counts(own, id) ensures Received(own)[id] == own[id] { WireKeepsSnapshotIff(own[id]); }
  }

  lemma SameTotals(own: Workers, ws: Workers, m: Metric)
    requires ws.Keys == own.Keys && forall id :: id in own ==> Amount(ws[id], m) == Amount(own[id], m)
    ensures Total(ws, m) == Total(own, m)
  {
    PartialIsSum(own, own.Keys, m);
    PartialIsSum(ws, own.Keys, m);
    SumCong(own.Keys, Amounts(own, m), Amounts(ws, m));
  }

  // ---------- the mean over a fleet ----------

  /** The mean that GetTestStatus reports. */
  ghost function FleetMeanMs(ws: Workers): int {
    Quotient(MeanOver(Total(ws, WeightedMean), Total(ws, Samples)), NS_PER_MS)
  }

  /** Each counted worker's latency sum. */
  function Exact(ws: Workers, sums: map<string, int>): string -> int {
    id => if Counts(ws, id) then Get(sums, id) else 0
  }

  /** Each counted worker's mean says what its latency sum is, to so much less or more a sample. */
  ghost predicate MeansOf(ws: Workers, sums: map<string, int>, below: int, above: int) {
    forall id :: Counts(ws, id) ==> 0 <= ws[id].latency.mean && MeanOf(ws[id].latency, Get(sums, id), below, above)
  }

  /** Then the reported mean says what the fleet's is, to so much less, and so much and a millisecond more. */
  lemma FleetMeanWithin(ws: Workers, sums: map<string, int>, below: nat, above: nat)
    requires Total(ws, Samples) > 0 && MeansOf(ws, sums, below, above)
    ensures FleetMeanMs(ws) * NS_PER_MS * Total(ws, Samples) - below * Total(ws, Samples)
            <= Sum(ws.Keys, Exact(ws, sums))
            < FleetMeanMs(ws) * NS_PER_MS * Total(ws, Samples) + (NS_PER_MS + above) * Total(ws, Samples)
  {
    var total, n := Total(ws, WeightedMean), Total(ws, Samples);
    SumsWithin(ws, sums, below, above);
    PartialIsSum(ws, ws.Keys, WeightedMean);
    forall id | id in ws ensures 0 <= Amounts(ws, WeightedMean)(id) { WeightedTerm(ws, id, sums, below, above); }
    SumNonNegative(ws.Keys, Amounts(ws, WeightedMean));
    NestedQuotient(total, n, NS_PER_MS);
    Distribute(FleetMeanMs(ws) * NS_PER_MS, NS_PER_MS, n);
    Distribute(NS_PER_MS, above, n);
  }

  lemma WeightedTerm(ws: Workers, id: string, sums: map<string, int>, below: nat, above: nat)
    requires id in ws && MeansOf(ws, sums, below, above)
    ensures 0 <= Amount(ws[id], WeightedMean)
    ensures Amount(ws[id], WeightedMean) - below * Amount(ws[id], Samples) <= Exact(ws, sums)(id)
            <= Amount(ws[id], WeightedMean) + above * Amount(ws[id], Samples)
  {
    var l := ws[id].latency;
    if l.count > 0 {
      MulOrder(l.count, 0, l.mean);
    }
  }

  lemma SumsWithin(ws: Workers, sums: map<string, int>, below: nat, above: nat)
    requires MeansOf(ws, sums, below, above)
    ensures Total(ws, WeightedMean) - below * Total(ws, Samples) <= Sum(ws.Keys, Exact(ws, sums))
            <= Total(ws, WeightedMean) + above * Total(ws, Samples)
  {
    var weighted, samples, exact := Amounts(ws, WeightedMean), Amounts(ws, Samples), Exact(ws, sums);
    var less, more := (id: string) => below * samples(id), (id: string) => above * samples(id);
    var lower, upper := (id: string) => exact(id) + less(id), (id: string) => weighted(id) + more(id);
    forall id | id in ws ensures weighted(id) <= lower(id) && exact(id) <= upper(id) {
      WeightedTerm(ws, id, sums, below, above);
    }
    PartialIsSum(ws, ws.Keys, Samples);
    PartialIsSum(ws, ws.Keys, WeightedMean);
    SumScale(ws.Keys, below, samples, less);
    SumScale(ws.Keys, above, samples, more);
    SumAdd(ws.Keys, exact, less, lower);
    SumAdd(ws.Keys, weighted, more, upper);
    SumMono(ws.Keys, weighted, lower);
    SumMono(ws.Keys, exact, upper);
  }

  // ---------- from recorded durations to the report ----------

  /** Every counted worker's latencies are a reading of its histogram after its durations. */
  ghost predicate Measured(own: Workers, kept: nat -> nat, durations: map<string, seq<nat>>) {
    forall id :: Counts(own, id) ==>
      id in durations && WholeMillis(own[id].latency) && IsMean(own[id].latency, kept, durations[id])
  }

  function KeptSums(kept: nat -> nat, durations: map<string, seq<nat>>): map<string, int> {
    map id | id in durations :: KeptNs(kept, durations[id])
  }

  function DurationSums(durations: map<string, seq<nat>>): map<string, int> {
    map id | id in durations :: TotalOf(durations[id])
  }

  lemma ReceivedWithin(own: Workers, sums: map<string, int>, below: nat, above: nat)
    requires forall id :: Counts(own, id) ==> WholeMillis(own[id].latency)
    requires Total(own, Samples) > 0 && MeansOf(own, sums, below, above)
    ensures FleetMeanMs(Received(own)) * NS_PER_MS * Total(own, Samples) - below * Total(own, Samples)
            <= Sum(own.Keys, Exact(own, sums))
            < FleetMeanMs(Received(own)) * NS_PER_MS * Total(own, Samples) + (NS_PER_MS + above) * Total(own, Samples)
  {
    var ws := Received(own);
    assert ws.Keys == own.Keys;
    NothingLost(own);
    SameTotals(own, ws, Samples);
    SumCong(own.Keys, Exact(own, sums), Exact(ws, sums));
    FleetMeanWithin(ws, sums, below, above);
  }

  /** Of the milliseconds the histograms hold, the report is less than two a sample short. */
  lemma KeptMeanWithinTwoMs(own: Workers, kept: nat -> nat, durations: map<string, seq<nat>>)
    requires Total(own, Samples) > 0 && Measured(own, kept, durations)
    ensures FleetMeanMs(Received(own)) * NS_PER_MS * Total(own, Samples)
            <= Sum(own.Keys, Exact(own, KeptSums(kept, durations)))
            < FleetMeanMs(Received(own)) * NS_PER_MS * Total(own, Samples) + 2 * NS_PER_MS * Total(own, Samples)
  {
    forall id | Counts(own, id)
      ensures 0 <= own[id].latency.mean
      ensures MeanOf(own[id].latency, Get(KeptSums(kept, durations), id), 0, NS_PER_MS)
    {
      KeptMean(own[id].latency, kept, durations[id]);
    }
    ReceivedWithin(own, KeptSums(kept, durations), 0, NS_PER_MS);
  }

  /**
   Of the requests' own durations it is less than three milliseconds a sample short, and never
   above, apart from the error `e` with which the histogram library keeps a whole millisecond.
   */
  lemma ReportedMeanWithinThreeMs(own: Workers, kept: nat -> nat, durations: map<string, seq<nat>>, e: nat, below: nat)
    requires Total(own, Samples) > 0 && Measured(own, kept, durations) && below == e * NS_PER_MS
    requires forall id :: Counts(own, id) ==> KeptWithin(kept, durations[id], e)
    ensures FleetMeanMs(Received(own)) * NS_PER_MS * Total(own, Samples) - below * Total(own, Samples)
            <= Sum(own.Keys, Exact(own, DurationSums(durations)))
            < FleetMeanMs(Received(own)) * NS_PER_MS * Total(own, Samples)
              + (3 * NS_PER_MS + below) * Total(own, Samples)
  {
    forall id | Counts(own, id)
      ensures 0 <= own[id].latency.mean
      ensures MeanOf(own[id].latency, Get(DurationSums(durations), id), below, 2 * NS_PER_MS + below)
    {
      DurationMean(own[id].latency, kept, durations[id], e, below);
    }
    ReceivedWithin(own, DurationSums(durations), below, 2 * NS_PER_MS + below);
  }

  /**
   At no point of the loop does the weighted sum exceed the fleet's latency total, so it stays
   within an int64 whenever that total does.
   */
  lemma WeightedSumFits(ws: Workers, sums: map<string, int>, done: set<string>)
    requires done <= ws.Keys
    requires forall id :: Counts(ws, id) ==> 0 <= ws[id].latency.mean
    requires forall id :: Counts(ws, id) ==> ws[id].latency.mean * ws[id].latency.count <= Get(sums, id)
    ensures 0 <= Partial(ws, done, WeightedMean) <= Sum(ws.Keys, Exact(ws, sums))
  {
    var weighted, exact := Amounts(ws, WeightedMean), Exact(ws, sums);
    forall id | id in ws ensures 0 <= weighted(id) <= exact(id) {
      if Counts(ws, id) { MulOrder(ws[id].latency.count, 0, ws[id].latency.mean); }
    }
    PartialIsSum(ws, done, WeightedMean);
    SumNonNegative(done, weighted);
    SumMono(done, weighted, exact);
    SumPartition(ws.Keys, done, exact);
    assert ws.Keys * done == done;
    SumNonNegative(ws.Keys - done, exact);
  }

  // ---------- the bounds are needed ----------

  /** A worker that took three samples, with this mean. */
  function ThreeSamples(meanMs: nat): Snapshot {
    ZERO.(latency := NO_LATENCY.(mean := Millis(meanMs), count := 3))
  }

  lemma OfThree(kept: nat -> nat, a: nat, b: nat, c: nat)
    ensures Kept(kept, [a, b, c]) == [kept(a / NS_PER_MS), kept(b / NS_PER_MS), kept(c / NS_PER_MS)]
    ensures TotalOf([a, b, c]) == a + b + c
  {
    assert [a, b, c] == [] + [a] + [b] + [c];
    RecordedNext(kept, [], a);
    RecordedNext(kept, [] + [a], b);
    RecordedNext(kept, [] + [a] + [b], c);
  }

  /** A histogram that keeps whole milliseconds as they are. */
  function Same(ms: nat): nat {
    ms
  }

  lemma MeasuredThree(a: nat, b: nat, c: nat)
    ensures IsMean(ThreeSamples((a / NS_PER_MS + b / NS_PER_MS + c / NS_PER_MS) / 3).latency, Same, [a, b, c])
    ensures KeptNs(Same, [a, b, c]) == (a / NS_PER_MS + b / NS_PER_MS + c / NS_PER_MS) * NS_PER_MS
  {
    OfThree(Same, a, b, c);
    OfThree(Same, a / NS_PER_MS, b / NS_PER_MS, c / NS_PER_MS);
  }

  const SHORT_OF_2 := 1_999_999
  const SHORT_OF_3 := 2_999_999
  const SHORT_OF_4 := 3_999_999
  const TWO_WORKERS := map["a" := ThreeSamples(1), "b" := ThreeSamples(2)]
  const SIX_DURATIONS: map<string, seq<nat>> :=
    map["a" := [SHORT_OF_2, SHORT_OF_3, SHORT_OF_3], "b" := [SHORT_OF_3, SHORT_OF_4, SHORT_OF_4]]

  lemma SixMeasured()
    ensures Measured(TWO_WORKERS, Same, SIX_DURATIONS)
  {
    MeasuredThree(SHORT_OF_2, SHORT_OF_3, SHORT_OF_3);
    MeasuredThree(SHORT_OF_3, SHORT_OF_4, SHORT_OF_4);
  }

  lemma SixReported()
    ensures Total(TWO_WORKERS, Samples) == 6 && FleetMeanMs(Received(TWO_WORKERS)) == 1
  {
    SixMeasured();
    SixTotals();
    NothingLost(TWO_WORKERS);
    SameTotals(TWO_WORKERS, Received(TWO_WORKERS), Samples);
    SameTotals(TWO_WORKERS, Received(TWO_WORKERS), WeightedMean);
  }

  lemma SixTotals()
    ensures Total(TWO_WORKERS, Samples) == 6 && Total(TWO_WORKERS, WeightedMean) == 9 * NS_PER_MS
  {
    PartialIsSum(TWO_WORKERS, TWO_WORKERS.Keys, Samples);
    PartialIsSum(TWO_WORKERS, TWO_WORKERS.Keys, WeightedMean);
    SumOfTwo(TWO_WORKERS.Keys, "a", "b", Amounts(TWO_WORKERS, WeightedMean));
    SumOfTwo(TWO_WORKERS.Keys, "a", "b", Amounts(TWO_WORKERS, Samples));
  }

  /**
   Three samples each, just short of 2, 3, 3 and 3, 4, 4 milliseconds: the report is 1 ms, more than
   one millisecond below the mean of what the histograms hold and more than two below that of the durations.
   */
  lemma TwoMsIsNotEnough()
    ensures Measured(TWO_WORKERS, Same, SIX_DURATIONS) && Total(TWO_WORKERS, Samples) > 0
    ensures Sum(TWO_WORKERS.Keys, Exact(TWO_WORKERS, KeptSums(Same, SIX_DURATIONS)))
            > (FleetMeanMs(Received(TWO_WORKERS)) + 1) * NS_PER_MS * Total(TWO_WORKERS, Samples)
    ensures Sum(TWO_WORKERS.Keys, Exact(TWO_WORKERS, DurationSums(SIX_DURATIONS)))
            > (FleetMeanMs(Received(TWO_WORKERS)) + 2) * NS_PER_MS * Total(TWO_WORKERS, Samples)
  {
    SixMeasured();
    SixReported();
    OfThree(Same, SHORT_OF_2, SHORT_OF_3, SHORT_OF_3);
    OfThree(Same, SHORT_OF_3, SHORT_OF_4, SHORT_OF_4);
    MeasuredThree(SHORT_OF_2, SHORT_OF_3, SHORT_OF_3);
    MeasuredThree(SHORT_OF_3, SHORT_OF_4, SHORT_OF_4);
    SumOfTwo(TWO_WORKERS.Keys, "a", "b", Exact(TWO_WORKERS, KeptSums(Same, SIX_DURATIONS)));
    SumOfTwo(TWO_WORKERS.Keys, "a", "b", Exact(TWO_WORKERS, DurationSums(SIX_DURATIONS)));
  }

  lemma SumOfTwo(s: set<string>, a: string, b: string, f: string -> int)
    requires s == {a, b} && a != b
    ensures Sum(s, f) == f(a) + f(b)
  {
    SumRemove(s, a, f);
    SumRemove(s - {a}, b, f);
  }
}

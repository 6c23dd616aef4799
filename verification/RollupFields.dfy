/** What the fleet's aggregate is made of, field by field. */
module RollupFields {
  import opened Aggregator
  import opened GoInts
  import opened Orders
  import opened SpanAggregator
  import opened Sums

  /** A fleet of one worker shows that worker, with the window and the error percentage of a fleet. */
  lemma OneWorker(id: string, s: Snapshot, r: Snapshot)
    requires IsRollup(r, map[id := s]) && s.peakRPS >= 0.0
    requires s.latency.count > 0 && s.latency.max >= 0
    ensures r == s.(windowSeconds := 10, errorPct := r.errorPct)
    ensures s.requests > 0 ==> r.errorPct == s.errors as real / s.requests as real * 100.0
    ensures s.requests <= 0 ==> r.errorPct == 0.0
  {
    var ws := map[id := s];
    forall m ensures Total(ws, m) == Amount(s, m) { OneAmount(id, s, m); }
    forall x ensures RateSum(ws, ws.Keys, x) == RateOf(s, x) { OneRate(id, s, x); }
    OneMin(id, s, r.latency.min);
    QuotientOfProduct(s.latency.mean, s.latency.count);
    OneLatency(s.latency);
  }

  lemma OneLatency(l: Latency)
    ensures forall x :: Quotient(x, 1) == x
  {
  }

  lemma OneAmount(id: string, s: Snapshot, m: Metric)
    ensures Total(map[id := s], m) == Amount(s, m)
  {
    var ws := map[id := s];
    PartialIsSum(ws, ws.Keys, m);
    SumRemove(ws.Keys, id, Amounts(ws, m));
    assert ws.Keys - {id} == {};
  }

  lemma OneRate(id: string, s: Snapshot, x: Rate)
    ensures RateSum(map[id := s], map[id := s].Keys, x) == RateOf(s, x)
  {
    var ws := map[id := s];
    RateSumRemove(ws, ws.Keys, id, x);
    assert ws.Keys - {id} == {};
  }

  lemma OneMin(id: string, s: Snapshot, min: int)
    requires PossibleMin(map[id := s], min) && s.latency.count > 0
    ensures min == s.latency.min
  {
    var ws := map[id := s];
    var order :| Visits(order, ws.Keys) && FoldMin(ws, order) == min;
    VisitsAll(order, ws.Keys);
    assert ws.Keys == {id} && |order| == 1;
    assert order[0] in ws.Keys && order[..|order| - 1] == [];
    assert FoldMin(ws, order[..|order| - 1]) == 0;
  }

  lemma VisitsAll(order: seq<string>, ids: set<string>)
    requires Visits(order, ids)
    ensures |order| == |ids|
  {
    ElementsSize(order);
    assert Elements(order) == ids;
  }

  lemma QuotientOfProduct(a: int, n: int)
    requires n > 0
    ensures Quotient(a * n, n) == a
  {
    MulOrder(n, 0, a);
    if a >= 0 {
      ProductOver(a, n);
    } else {
      ProductOver(-a, n);
      assert (-a) * n == -(a * n);
    }
  }

  lemma ProductOver(a: nat, n: int)
    requires n > 0
    ensures a * n >= 0 && a * n / n == a
  {
    MulOrder(n, 0, a);
    QuotientBounds(a * n, n);
    var q := Quotient(a * n, n);
    MulOrder(n, q, a);
    StepOver(q, a, n);
  }

  /** An empty fleet shows nothing, and one worker more adds its own requests, errors and rates. */
  lemma NoWorkers(r: Snapshot)
    requires IsRollup(r, map[])
    ensures r == ZERO.(windowSeconds := 10)
  {
    var none: Workers := map[];
    assert none.Keys == {};
    var order :| Visits(order, none.Keys) && FoldMin(none, order) == r.latency.min;
    VisitsAll(order, none.Keys);
  }

  lemma OneWorkerMore(ws: Workers, id: string, r: Snapshot, before: Snapshot)
    requires id in ws && IsRollup(r, ws) && IsRollup(before, ws - {id})
    ensures r.requests == before.requests + ws[id].requests
    ensures r.errors == before.errors + ws[id].errors
    ensures r.currentRPS == before.currentRPS + ws[id].currentRPS
    ensures r.averageRPS == before.averageRPS + ws[id].averageRPS
    ensures r.errorRate == before.errorRate + ws[id].errorRate
    ensures r.latency.count == before.latency.count + if ws[id].latency.count > 0 then ws[id].latency.count else 0
  {
    forall m ensures Total(ws, m) == Total(ws - {id}, m) + Amount(ws[id], m) { AmountMore(ws, id, m); }
    RateMore(ws, id, CurrentRPS);
    RateMore(ws, id, AverageRPS);
    RateMore(ws, id, ErrorRate);
  }

  lemma AmountMore(ws: Workers, id: string, m: Metric)
    requires id in ws
    ensures Total(ws, m) == Total(ws - {id}, m) + Amount(ws[id], m)
  {
    var rest := ws - {id};
    assert rest.Keys == ws.Keys - {id};
    PartialIsSum(ws, ws.Keys, m);
    PartialIsSum(rest, rest.Keys, m);
    SumRemove(ws.Keys, id, Amounts(ws, m));
    SumCong(rest.Keys, Amounts(ws, m), Amounts(rest, m));
  }

  lemma RateMore(ws: Workers, id: string, x: Rate)
    requires id in ws
    ensures RateSum(ws, ws.Keys, x) == RateSum(ws - {id}, (ws - {id}).Keys, x) + RateOf(ws[id], x)
  {
    var rest := ws - {id};
    assert rest.Keys == ws.Keys - {id};
    RateSumRemove(ws, ws.Keys, id, x);
    RateSumCong(ws, rest, rest.Keys, x);
  }

  lemma {:induction false} RateSumCong(a: Workers, b: Workers, ids: set<string>, x: Rate)
    requires ids <= a.Keys && ids <= b.Keys && forall id :: id in ids ==> a[id] == b[id]
    ensures RateSum(a, ids, x) == RateSum(b, ids, x)
    decreases |ids|
  {
    if ids != {} {
      var id :| id in ids;
      RateSumRemove(a, ids, id, x);
      RateSumRemove(b, ids, id, x);
      RateSumCong(a, b, ids - {id}, x);
    }
  }

  // ---------- averages ----------

  /** The workers that took samples. */
  function Sampled(ws: Workers): set<string> {
    set id | id in ws && ws[id].latency.count > 0
  }

  function P50s(ws: Workers): string -> int {
    id => if id in ws then ws[id].latency.p50 else 0
  }

  function P95s(ws: Workers): string -> int {
    id => if id in ws then ws[id].latency.p95 else 0
  }

  function P99s(ws: Workers): string -> int {
    id => if id in ws then ws[id].latency.p99 else 0
  }

  function P999s(ws: Workers): string -> int {
    id => if id in ws then ws[id].latency.p999 else 0
  }

  /** `mean` is the average of these values, cut to a whole nanosecond; 0 for none. */
  ghost predicate AverageOver(mean: int, ids: set<string>, f: string -> int) {
    if ids == {} then mean == 0 else |ids| * mean <= Sum(ids, f) < |ids| * mean + |ids|
  }

  /** Each of the fleet's percentiles is the average of the same percentile over the workers that took samples. */
  lemma PercentilesAreAverages(l: Latency, ws: Workers)
    requires IsLatencyRollup(l, ws)
    requires forall id :: id in ws && ws[id].latency.count > 0 ==>
      && ws[id].latency.p50 >= 0 && ws[id].latency.p95 >= 0
      && ws[id].latency.p99 >= 0 && ws[id].latency.p999 >= 0
    ensures AverageOver(l.p50, Sampled(ws), P50s(ws)) && AverageOver(l.p95, Sampled(ws), P95s(ws))
    ensures AverageOver(l.p99, Sampled(ws), P99s(ws)) && AverageOver(l.p999, Sampled(ws), P999s(ws))
  {
    AveragedField(ws, P50, P50s(ws));
    AveragedField(ws, P95, P95s(ws));
    AveragedField(ws, P99, P99s(ws));
    AveragedField(ws, P999, P999s(ws));
  }

  lemma AveragedField(ws: Workers, m: Metric, f: string -> int)
    requires forall id :: id in ws ==> Amount(ws[id], m) == if ws[id].latency.count > 0 then f(id) else 0
    requires forall id :: id in Sampled(ws) ==> f(id) >= 0
    ensures AverageOver(MeanOver(Total(ws, m), Total(ws, Counted)), Sampled(ws), f)
  {
    SampledCount(ws);
    SampledTotal(ws, m, f);
    SumNonNegative(Sampled(ws), f);
    if Sampled(ws) != {} {
      QuotientBounds(Sum(Sampled(ws), f), |Sampled(ws)|);
    }
  }

  lemma SampledCount(ws: Workers)
    ensures Total(ws, Counted) == |Sampled(ws)|
  {
    PartialIsSum(ws, ws.Keys, Counted);
    SumIndicator(ws.Keys, Sampled(ws), Amounts(ws, Counted));
  }

  lemma SampledTotal(ws: Workers, m: Metric, f: string -> int)
    requires forall id :: id in ws ==> Amount(ws[id], m) == if ws[id].latency.count > 0 then f(id) else 0
    ensures Total(ws, m) == Sum(Sampled(ws), f)
  {
    var ids := Sampled(ws);
    PartialIsSum(ws, ws.Keys, m);
    SumPartition(ws.Keys, ids, Amounts(ws, m));
    assert ws.Keys * ids == ids;
    SumZero(ws.Keys - ids, Amounts(ws, m));
    SumCong(ids, Amounts(ws, m), f);
  }
}

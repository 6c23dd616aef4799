/** The fleet rollup: every worker's latest batch per test, and a cached aggregate of them. */
module Aggregator {
  import opened GoInts
  import opened Orders
  import opened Results
  import opened SpanAggregator
  import opened Sums

  datatype Snapshot = Snapshot(currentRPS: real, averageRPS: real, peakRPS: real, windowSeconds: int,
                               latency: Latency, errorRate: real, errorPct: real, requests: int, errors: int)

  const ZERO := Snapshot(0.0, 0.0, 0.0, 0, NO_LATENCY, 0.0, 0.0, 0, 0)

  /** The wire form: the same, with latencies in whole milliseconds. */
  datatype Batch = Batch(snapshot: Snapshot)

  function Scaled(l: Latency, c: int): Latency {
    Latency(l.min * c, l.max * c, l.mean * c, l.p50 * c, l.p95 * c, l.p99 * c, l.p999 * c, l.count)
  }

  function FromBatch(b: Batch): Snapshot {
    b.snapshot.(latency := Scaled(b.snapshot.latency, NS_PER_MS))
  }

  type Workers = map<string, Snapshot>

  // ---------- totals over a fleet ----------

  datatype Metric = Requests | Errors | Counted | Samples | WeightedMean | P50 | P95 | P99 | P999

  /** What one worker contributes; latencies count only if it took any samples. */
  function Amount(s: Snapshot, m: Metric): int {
    var l := s.latency;
    match m
    case Requests => s.requests
    case Errors => s.errors
    case Counted => if l.count > 0 then 1 else 0
    case Samples => if l.count > 0 then l.count else 0
    case WeightedMean => if l.count > 0 then l.mean * l.count else 0
    case P50 => if l.count > 0 then l.p50 else 0
    case P95 => if l.count > 0 then l.p95 else 0
    case P99 => if l.count > 0 then l.p99 else 0
    case P999 => if l.count > 0 then l.p999 else 0
  }

  function Amounts(ws: Workers, m: Metric): string -> int {
    id => if id in ws then Amount(ws[id], m) else 0
  }

  ghost function Partial(ws: Workers, ids: set<string>, m: Metric): int
    requires ids <= ws.Keys
    decreases |ids|
  {
    if ids == {} then 0 else var id :| id in ids; Amount(ws[id], m) + Partial(ws, ids - {id}, m)
  }

  ghost function Total(ws: Workers, m: Metric): int {
    Partial(ws, ws.Keys, m)
  }

  lemma {:induction false} PartialIsSum(ws: Workers, ids: set<string>, m: Metric)
    requires ids <= ws.Keys
    ensures Partial(ws, ids, m) == Sum(ids, Amounts(ws, m))
    decreases |ids|
  {
    if ids != {} {
      var id :| id in ids && Partial(ws, ids, m) == Amount(ws[id], m) + Partial(ws, ids - {id}, m);
      PartialIsSum(ws, ids - {id}, m);
      SumRemove(ids, id, Amounts(ws, m));
    }
  }

  lemma PartialAdd(ws: Workers, done: set<string>, id: string, m: Metric)
    requires id in ws && id !in done && done <= ws.Keys
    ensures Partial(ws, done + {id}, m) == Partial(ws, done, m) + Amount(ws[id], m)
  {
    PartialIsSum(ws, done, m);
    PartialIsSum(ws, done + {id}, m);
    SumRemove(done + {id}, id, Amounts(ws, m));
    assert done + {id} - {id} == done;
  }

  datatype Rate = CurrentRPS | AverageRPS | ErrorRate

  function RateOf(s: Snapshot, r: Rate): real {
    match r
    case CurrentRPS => s.currentRPS
    case AverageRPS => s.averageRPS
    case ErrorRate => s.errorRate
  }

  ghost function RateSum(ws: Workers, ids: set<string>, r: Rate): real
    requires ids <= ws.Keys
    decreases |ids|
  {
    if ids == {} then 0.0 else var id :| id in ids; RateOf(ws[id], r) + RateSum(ws, ids - {id}, r)
  }

  lemma {:induction false} RateSumRemove(ws: Workers, ids: set<string>, id: string, r: Rate)
    requires ids <= ws.Keys && id in ids
    ensures RateSum(ws, ids, r) == RateOf(ws[id], r) + RateSum(ws, ids - {id}, r)
    decreases |ids|
  {
    var first :| first in ids && RateSum(ws, ids, r) == RateOf(ws[first], r) + RateSum(ws, ids - {first}, r);
    if first != id {
      RateSumRemove(ws, ids - {first}, id, r);
      RateSumRemove(ws, ids - {id}, first, r);
      assert ids - {first} - {id} == ids - {id} - {first};
    }
  }

  // ---------- the fleet minimum ----------

  /** The loop that looks for the minimum takes 0 for "none yet". */
  function NextMin(min: int, latency: Latency): int {
    if latency.count > 0 && (min == 0 || latency.min < min) then latency.min else min
  }

  function FoldMin(ws: Workers, order: seq<string>): int
    requires forall id :: id in order ==> id in ws
  {
    if order == [] then 0 else NextMin(FoldMin(ws, order[..|order| - 1]), ws[order[|order| - 1]].latency)
  }

  /** An order in which a `range` loop may visit a map. */
  ghost predicate Visits(order: seq<string>, ids: set<string>) {
    && (forall id :: id in order <==> id in ids)
    && (forall i, j :: 0 <= i < j < |order| ==> order[i] != order[j])
  }

  ghost predicate PossibleMin(ws: Workers, min: int) {
    exists order :: Visits(order, ws.Keys) && FoldMin(ws, order) == min
  }

  predicate Counts(ws: Workers, id: string) {
    id in ws && ws[id].latency.count > 0
  }

  ghost predicate AllMinsPositive(ws: Workers) {
    forall id :: Counts(ws, id) ==> ws[id].latency.min > 0
  }

  ghost predicate AllMinsZero(ws: Workers) {
    forall id :: Counts(ws, id) ==> ws[id].latency.min == 0
  }

  ghost predicate MinsNonNegative(ws: Workers) {
    forall id :: Counts(ws, id) ==> ws[id].latency.min >= 0
  }

  /** The least of the counted minima; 0 when nothing was counted. */
  ghost predicate IsTrueMin(ws: Workers, ids: set<string>, min: int) {
    && (forall id :: id in ids && Counts(ws, id) ==> min <= ws[id].latency.min)
    && (min != 0 ==> exists id :: id in ids && Counts(ws, id) && ws[id].latency.min == min)
    && (min == 0 ==> forall id :: id in ids && Counts(ws, id) ==> ws[id].latency.min == 0)
  }

  lemma {:induction false} UniformFoldIsTrueMin(ws: Workers, order: seq<string>)
    requires forall id :: id in order ==> id in ws
    requires AllMinsPositive(ws) || AllMinsZero(ws)
    ensures IsTrueMin(ws, Elements(order), FoldMin(ws, order))
  {
    if order != [] {
      var init, last := order[..|order| - 1], order[|order| - 1];
      UniformFoldIsTrueMin(ws, init);
      assert order == init + [last];
      assert Elements(order) == Elements(init) + {last};
    }
  }

  // ---------- the rollup ----------

  ghost predicate IsPeak(ws: Workers, peak: real) {
    && 0.0 <= peak && (forall id :: id in ws ==> ws[id].peakRPS <= peak)
    && (peak != 0.0 ==> exists id :: id in ws && ws[id].peakRPS == peak)
  }

  /** The greatest counted maximum among `ids`; 0 when nothing positive was counted. */
  ghost predicate IsMax(ws: Workers, ids: set<string>, max: int) {
    && 0 <= max && (forall id :: id in ids && Counts(ws, id) ==> ws[id].latency.max <= max)
    && (max != 0 ==> exists id :: id in ids && Counts(ws, id) && ws[id].latency.max == max)
  }

  lemma MaxNext(ws: Workers, done: set<string>, max: int, id: string, max': int)
    requires IsMax(ws, done, max) && id in ws
    requires max' == if Counts(ws, id) && ws[id].latency.max > max then ws[id].latency.max else max
    ensures IsMax(ws, done + {id}, max')
  {
    if max' == max != 0 {
      var top :| top in done && Counts(ws, top) && ws[top].latency.max == max;
      assert top in done + {id};
    } else {
      assert id in done + {id};
    }
  }

  ghost function MeanOver(total: int, count: int): int {
    if count > 0 then Quotient(total, count) else 0
  }

  /** What the cached aggregate of a test must be, given the latest snapshot of each of its workers. */
  ghost predicate IsRollup(r: Snapshot, ws: Workers) {
    && r.currentRPS == RateSum(ws, ws.Keys, CurrentRPS)
    && r.averageRPS == RateSum(ws, ws.Keys, AverageRPS)
    && r.errorRate == RateSum(ws, ws.Keys, ErrorRate)
    && IsPeak(ws, r.peakRPS)
    && r.windowSeconds == 10
    && r.requests == Total(ws, Requests) && r.errors == Total(ws, Errors)
    && r.errorPct == (if r.requests > 0 then r.errors as real / r.requests as real * 100.0 else 0.0)
    && IsLatencyRollup(r.latency, ws)
  }

  ghost predicate IsLatencyRollup(l: Latency, ws: Workers) {
    && PossibleMin(ws, l.min)
    && IsMax(ws, ws.Keys, l.max)
    && l.count == Total(ws, Samples)
    && l.mean == MeanOver(Total(ws, WeightedMean), Total(ws, Samples))
    && l.p50 == MeanOver(Total(ws, P50), Total(ws, Counted))
    && l.p95 == MeanOver(Total(ws, P95), Total(ws, Counted))
    && l.p99 == MeanOver(Total(ws, P99), Total(ws, Counted))
    && l.p999 == MeanOver(Total(ws, P999), Total(ws, Counted))
  }

  /** Two aggregates of the same snapshots agree on everything but, perhaps, the minimum. */
  lemma RollupIsDetermined(a: Snapshot, b: Snapshot, ws: Workers)
    requires IsRollup(a, ws) && IsRollup(b, ws)
    ensures a.(latency := a.latency.(min := 0)) == b.(latency := b.latency.(min := 0))
  {
  }

  /** And on that too when the counted minima are all positive, or all zero. */
  lemma UniformMinIsDetermined(a: int, b: int, ws: Workers)
    requires PossibleMin(ws, a) && PossibleMin(ws, b)
    requires AllMinsPositive(ws) || AllMinsZero(ws)
    ensures a == b && IsTrueMin(ws, ws.Keys, a)
  {
    var oa :| Visits(oa, ws.Keys) && FoldMin(ws, oa) == a;
    var ob :| Visits(ob, ws.Keys) && FoldMin(ws, ob) == b;
    UniformFoldIsTrueMin(ws, oa);
    UniformFoldIsTrueMin(ws, ob);
    assert Elements(oa) == ws.Keys == Elements(ob);
  }

  lemma {:induction false} SomeOrder(ids: set<string>) returns (order: seq<string>)
    ensures Visits(order, ids)
    decreases |ids|
  {
    order := [];
    if ids != {} {
      var id :| id in ids;
      var rest := SomeOrder(ids - {id});
      order := rest + [id];
    }
  }

  lemma {:induction false} FoldMinNonNegative(ws: Workers, order: seq<string>)
    requires MinsNonNegative(ws) && forall id :: id in order ==> id in ws
    ensures FoldMin(ws, order) >= 0
  {
    if order != [] {
      FoldMinNonNegative(ws, order[..|order| - 1]);
      assert Counts(ws, order[|order| - 1]) || ws[order[|order| - 1]].latency.count <= 0;
    }
  }

  lemma FoldMinStep(ws: Workers, order: seq<string>, id: string)
    requires id in ws && forall o :: o in order ==> o in ws
    ensures FoldMin(ws, order + [id]) == NextMin(FoldMin(ws, order), ws[id].latency)
  {
    assert (order + [id])[..|order + [id]| - 1] == order;
  }

  lemma VisitNext(ws: Workers, order: seq<string>, done: set<string>, id: string)
    requires Visits(order, done) && done <= ws.Keys && id in ws && id !in done
    ensures Visits(order + [id], done + {id})
    ensures FoldMin(ws, order + [id]) == NextMin(FoldMin(ws, order), ws[id].latency)
  {
    FoldMinStep(ws, order, id);
  }

  /** Visiting `last` after everything else. */
  lemma VisitLast(ws: Workers, rest: seq<string>, first: string, last: string)
    requires Visits(rest, ws.Keys - {first, last}) && first in ws && last in ws && first != last
    requires Counts(ws, first) && Counts(ws, last)
    ensures PossibleMin(ws, NextMin(NextMin(FoldMin(ws, rest), ws[first].latency), ws[last].latency))
  {
    FoldMinStep(ws, rest, first);
    FoldMinStep(ws, rest + [first], last);
    assert Visits(rest + [first] + [last], ws.Keys);
  }

  /** A zero next to a positive minimum makes the result depend on the map's iteration order. */
  lemma MixedMinsAreAmbiguous(ws: Workers, zero: string, positive: string)
    requires MinsNonNegative(ws) && Counts(ws, zero) && Counts(ws, positive)
    requires ws[zero].latency.min == 0 < ws[positive].latency.min
    ensures PossibleMin(ws, 0) && PossibleMin(ws, ws[positive].latency.min)
  {
    var rest := SomeOrder(ws.Keys - {zero, positive});
    FoldMinNonNegative(ws, rest);
    VisitLast(ws, rest, zero, positive);
    assert ws.Keys - {zero, positive} == ws.Keys - {positive, zero};
    VisitLast(ws, rest, positive, zero);
  }

  /** The fleet minimum is a function of the snapshots exactly when the counted minima are all positive or all zero. */
  lemma MinIsDeterminedIff(ws: Workers)
    requires MinsNonNegative(ws)
    ensures (forall a, b :: PossibleMin(ws, a) && PossibleMin(ws, b) ==> a == b) <==>
        AllMinsPositive(ws) || AllMinsZero(ws)
  {
    if AllMinsPositive(ws) || AllMinsZero(ws) {
      forall a, b | PossibleMin(ws, a) && PossibleMin(ws, b) ensures a == b {
        UniformMinIsDetermined(a, b, ws);
      }
    } else {
      var zero :| Counts(ws, zero) && !(ws[zero].latency.min > 0);
      var positive :| Counts(ws, positive) && ws[positive].latency.min != 0;
      MixedMinsAreAmbiguous(ws, zero, positive);
    }
  }

  // ---------- orderings and truncation ----------

  ghost predicate Percentiles(l: Latency) {
    0 <= l.p50 <= l.p95 <= l.p99 <= l.p999
  }

  ghost predicate Spread(l: Latency) {
    0 < l.min <= l.mean <= l.max
  }

  lemma TotalsOrdered(ws: Workers, a: Metric, b: Metric)
    requires forall id :: id in ws ==> 0 <= Amount(ws[id], a) <= Amount(ws[id], b)
    ensures 0 <= Total(ws, a) <= Total(ws, b)
  {
    PartialIsSum(ws, ws.Keys, a);
    PartialIsSum(ws, ws.Keys, b);
    SumNonNegative(ws.Keys, Amounts(ws, a));
    SumMono(ws.Keys, Amounts(ws, a), Amounts(ws, b));
  }

  lemma MeansOrdered(ws: Workers, a: Metric, b: Metric)
    requires forall id :: id in ws ==> 0 <= Amount(ws[id], a) <= Amount(ws[id], b)
    ensures 0 <= MeanOver(Total(ws, a), Total(ws, Counted)) <= MeanOver(Total(ws, b), Total(ws, Counted))
  {
    TotalsOrdered(ws, a, b);
    var n := Total(ws, Counted);
    if n > 0 {
      QuotientMonotone(Total(ws, a), Total(ws, b), n);
      QuotientBounds(Total(ws, a), n);
    }
  }

  /** Averaging the workers' percentiles keeps them in order. */
  lemma RollupKeepsPercentiles(l: Latency, ws: Workers)
    requires IsLatencyRollup(l, ws)
    requires forall id :: Counts(ws, id) ==> Percentiles(ws[id].latency)
    ensures Percentiles(l)
  {
    forall id | id in ws
      ensures 0 <= Amount(ws[id], P50) <= Amount(ws[id], P95) <= Amount(ws[id], P99) <= Amount(ws[id], P999)
    {
      assert Counts(ws, id) ==> Percentiles(ws[id].latency);
    }
    MeansOrdered(ws, P50, P95);
    MeansOrdered(ws, P95, P99);
    MeansOrdered(ws, P99, P999);
  }

  lemma WeightedTerm(ws: Workers, id: string, low: int, high: int)
    requires id in ws && (Counts(ws, id) ==> low <= ws[id].latency.mean <= high)
    ensures low * Amount(ws[id], Samples) <= Amount(ws[id], WeightedMean) <= high * Amount(ws[id], Samples)
  {
    var l := ws[id].latency;
    if l.count > 0 {
      MulOrder(l.count, low, l.mean);
      MulOrder(l.count, l.mean, high);
    }
  }

  /** A weighted mean lies between any bounds of what it averages. */
  lemma MeanBetween(ws: Workers, low: int, high: int)
    requires 0 <= low && Total(ws, Samples) > 0
    requires forall id :: Counts(ws, id) ==> low <= ws[id].latency.mean <= high
    ensures low <= MeanOver(Total(ws, WeightedMean), Total(ws, Samples)) <= high
  {
    forall id | id in ws
      ensures low * Amount(ws[id], Samples) <= Amount(ws[id], WeightedMean) <= high * Amount(ws[id], Samples)
    {
      assert Counts(ws, id) ==> low <= ws[id].latency.mean <= high;
      WeightedTerm(ws, id, low, high);
    }
    PartialIsSum(ws, ws.Keys, Samples);
    PartialIsSum(ws, ws.Keys, WeightedMean);
    SumScaledMono(ws.Keys, low, Amounts(ws, Samples), 1, Amounts(ws, WeightedMean));
    SumScaledMono(ws.Keys, 1, Amounts(ws, WeightedMean), high, Amounts(ws, Samples));
    QuotientWithin(Total(ws, WeightedMean), Total(ws, Samples), low, high);
  }

  lemma QuotientWithin(a: int, n: int, low: int, high: int)
    requires 0 <= low && 0 < n && low * n <= a <= high * n
    ensures low <= Quotient(a, n) <= high
  {
    assert 0 <= low * n;
    QuotientBounds(a, n);
    StepOver(Quotient(a, n), low, n);
    StepOver(high, Quotient(a, n), n);
  }

  lemma {:induction false} SamplesCounted(ws: Workers, ids: set<string>)
    requires ids <= ws.Keys && Sum(ids, Amounts(ws, Samples)) > 0
    ensures exists id :: id in ids && Counts(ws, id)
    decreases |ids|
  {
    var id :| id in ids;
    SumRemove(ids, id, Amounts(ws, Samples));
    if !Counts(ws, id) {
      SamplesCounted(ws, ids - {id});
    }
  }

  /** The fleet's minimum, mean and maximum are in order when every counted worker's are, above zero. */
  lemma RollupKeepsSpread(l: Latency, ws: Workers)
    requires IsLatencyRollup(l, ws) && l.count > 0
    requires forall id :: Counts(ws, id) ==> Spread(ws[id].latency)
    ensures Spread(l)
  {
    PartialIsSum(ws, ws.Keys, Samples);
    SamplesCounted(ws, ws.Keys);
    var id :| id in ws && Counts(ws, id);
    assert Spread(ws[id].latency);
    assert AllMinsPositive(ws) by {
      forall o | Counts(ws, o) ensures ws[o].latency.min > 0 { assert Spread(ws[o].latency); }
    }
    UniformMinIsDetermined(l.min, l.min, ws);
    forall o | Counts(ws, o) ensures l.min <= ws[o].latency.mean <= l.max { assert Spread(ws[o].latency); }
    MeanBetween(ws, l.min, l.max);
  }

  /** The wire form of a worker's snapshot. */
  function ToBatch(s: Snapshot): Batch {
    var l := s.latency;
    Batch(s.(latency := Latency(Quotient(l.min, NS_PER_MS), Quotient(l.max, NS_PER_MS), Quotient(l.mean, NS_PER_MS),
                                Quotient(l.p50, NS_PER_MS), Quotient(l.p95, NS_PER_MS), Quotient(l.p99, NS_PER_MS),
                                Quotient(l.p999, NS_PER_MS), l.count)))
  }

  // ---------- the aggregator ----------

  type Table = map<string, Workers>

  function WorkersOf(table: Table, test: string): Workers {
    if test in table then table[test] else map[]
  }

  function AfterReport(table: Table, test: string, worker: string, b: Batch): Table {
    if test == "" then table else table[test := WorkersOf(table, test)[worker := FromBatch(b)]]
  }

  /** A report is one worker's entry of one test, and one for no test is none. */
  lemma ReportFields(table: Table, test: string, worker: string, b: Batch)
    ensures AfterReport(table, "", worker, b) == table
    ensures test != "" ==> WorkersOf(AfterReport(table, test, worker, b), test)
                           == WorkersOf(table, test)[worker := FromBatch(b)]
    ensures forall t :: t != test ==> WorkersOf(AfterReport(table, test, worker, b), t) == WorkersOf(table, t)
  {
  }

  lemma AddRates(ws: Workers, done: set<string>, id: string)
    requires id in ws && id !in done && done <= ws.Keys
    ensures forall r :: RateSum(ws, done + {id}, r) == RateSum(ws, done, r) + RateOf(ws[id], r)
  {
    forall r ensures RateSum(ws, done + {id}, r) == RateSum(ws, done, r) + RateOf(ws[id], r) {
      RateSumRemove(ws, done + {id}, id, r);
      assert done + {id} - {id} == done;
    }
  }

  method AddRequests(ws: Workers) returns (requests: int, errors: int)
    ensures requests == Total(ws, Requests) && errors == Total(ws, Errors)
  {
    requests, errors := 0, 0;
    var rest := ws.Keys;
    ghost var done: set<string> := {};
    while rest != {}
      invariant done !! rest && forall id :: id in ws <==> id in done || id in rest
      invariant requests == Partial(ws, done, Requests) && errors == Partial(ws, done, Errors)
      decreases |rest|
    {
      var id :| id in rest;
      PartialAdd(ws, done, id, Requests);
      PartialAdd(ws, done, id, Errors);
      rest, done := rest - {id}, done + {id};
      requests, errors := requests + ws[id].requests, errors + ws[id].errors;
    }
    assert done == ws.Keys;
  }

  method AddRatesUp(ws: Workers) returns (current: real, average: real, peak: real, errorRate: real)
    ensures current == RateSum(ws, ws.Keys, CurrentRPS) && average == RateSum(ws, ws.Keys, AverageRPS)
    ensures errorRate == RateSum(ws, ws.Keys, ErrorRate) && IsPeak(ws, peak)
  {
    current, average, peak, errorRate := 0.0, 0.0, 0.0, 0.0;
    var rest := ws.Keys;
    ghost var done: set<string> := {};
    while rest != {}
      invariant done !! rest && forall id :: id in ws <==> id in done || id in rest
      invariant current == RateSum(ws, done, CurrentRPS) && average == RateSum(ws, done, AverageRPS)
      invariant errorRate == RateSum(ws, done, ErrorRate)
      invariant 0.0 <= peak && forall id :: id in done ==> ws[id].peakRPS <= peak
      invariant peak != 0.0 ==> exists id :: id in done && ws[id].peakRPS == peak
      decreases |rest|
    {
      var id :| id in rest;
      AddRates(ws, done, id);
      rest, done := rest - {id}, done + {id};
      current, average := current + ws[id].currentRPS, average + ws[id].averageRPS;
      errorRate := errorRate + ws[id].errorRate;
      if ws[id].peakRPS > peak {
        peak := ws[id].peakRPS;
      }
    }
    assert done == ws.Keys;
  }

  ghost predicate MinFolded(ws: Workers, done: set<string>, min: int)
    requires done <= ws.Keys
  {
    exists order :: Visits(order, done) && FoldMin(ws, order) == min
  }

  lemma MinFoldedNext(ws: Workers, done: set<string>, min: int, id: string)
    requires done <= ws.Keys && MinFolded(ws, done, min) && id in ws && id !in done
    ensures MinFolded(ws, done + {id}, NextMin(min, ws[id].latency))
  {
    var order :| Visits(order, done) && FoldMin(ws, order) == min;
    VisitNext(ws, order, done, id);
  }

  /** The latency loop after it has visited the workers in `done`, in some order. */
  ghost predicate Folded(ws: Workers, done: set<string>, min: int, max: int, total: int, count: int) {
    && done <= ws.Keys
    && MinFolded(ws, done, min)
    && IsMax(ws, done, max)
    && total == Partial(ws, done, WeightedMean) && count == Partial(ws, done, Samples)
  }

  lemma FoldedNone(ws: Workers)
    ensures Folded(ws, {}, 0, 0, 0, 0)
  {
    assert Visits([], {}) && FoldMin(ws, []) == 0;
  }

  lemma FoldedNext(ws: Workers, done: set<string>, min: int, max: int, total: int, count: int,
                   id: string, min': int, max': int, total': int, count': int)
    requires Folded(ws, done, min, max, total, count) && id in ws && id !in done
    requires min' == NextMin(min, ws[id].latency)
    requires max' == if Counts(ws, id) && ws[id].latency.max > max then ws[id].latency.max else max
    requires total' == total + Amount(ws[id], WeightedMean) && count' == count + Amount(ws[id], Samples)
    ensures Folded(ws, done + {id}, min', max', total', count')
  {
    PartialAdd(ws, done, id, Samples);
    PartialAdd(ws, done, id, WeightedMean);
    MinFoldedNext(ws, done, min, id);
    MaxNext(ws, done, max, id, max');
  }

  lemma FoldedAll(ws: Workers, done: set<string>, min: int, max: int, total: int, count: int)
    requires Folded(ws, done, min, max, total, count) && done == ws.Keys
    ensures PossibleMin(ws, min) && IsMax(ws, ws.Keys, max)
    ensures total == Total(ws, WeightedMean) && count == Total(ws, Samples)
  {
  }

  /** Count-weighted mean, and the extremes. */
  method LatencyRange(ws: Workers) returns (min: int, max: int, mean: int, count: int)
    ensures PossibleMin(ws, min) && IsMax(ws, ws.Keys, max)
    ensures count == Total(ws, Samples) && mean == MeanOver(Total(ws, WeightedMean), count)
  {
    min, max, count := 0, 0, 0;
    var total := 0;
    var rest := ws.Keys;
    ghost var done: set<string> := {};
    FoldedNone(ws);
    while rest != {}
      invariant done !! rest && forall id :: id in ws <==> id in done || id in rest
      invariant Folded(ws, done, min, max, total, count)
      decreases |rest|
    {
      var id :| id in rest;
      var l := ws[id].latency;
      ghost var min', max', total', count' := min, max, total, count;
      if l.count > 0 {
        if min == 0 || l.min < min {
          min := l.min;
        }
        if l.max > max {
          max := l.max;
        }
        total := total + l.mean * l.count;
        count := count + l.count;
      }
      FoldedNext(ws, done, min', max', total', count', id, min, max, total, count);
      rest, done := rest - {id}, done + {id};
    }
    FoldedAll(ws, done, min, max, total, count);
    mean := 0;
    if count > 0 {
      mean := Quotient(total, count);
    }
  }

  /** The workers' percentiles, averaged. */
  method AveragePercentiles(ws: Workers) returns (p50: int, p95: int, p99: int, p999: int)
    ensures p50 == MeanOver(Total(ws, P50), Total(ws, Counted)) && p95 == MeanOver(Total(ws, P95), Total(ws, Counted))
    ensures p99 == MeanOver(Total(ws, P99), Total(ws, Counted)) && p999 == MeanOver(Total(ws, P999), Total(ws, Counted))
  {
    p50, p95, p99, p999 := 0, 0, 0, 0;
    var count := 0;
    var rest := ws.Keys;
    ghost var done: set<string> := {};
    while rest != {}
      invariant done !! rest && forall id :: id in ws <==> id in done || id in rest
      invariant count == Partial(ws, done, Counted)
      invariant p50 == Partial(ws, done, P50) && p95 == Partial(ws, done, P95)
      invariant p99 == Partial(ws, done, P99) && p999 == Partial(ws, done, P999)
      decreases |rest|
    {
      var id :| id in rest;
      PartialAdd(ws, done, id, Counted);
      PartialAdd(ws, done, id, P50);
      PartialAdd(ws, done, id, P95);
      PartialAdd(ws, done, id, P99);
      PartialAdd(ws, done, id, P999);
      rest, done := rest - {id}, done + {id};
      var l := ws[id].latency;
      if l.count > 0 {
        p50, p95, p99, p999 := p50 + l.p50, p95 + l.p95, p99 + l.p99, p999 + l.p999;
        count := count + 1;
      }
    }
    assert done == ws.Keys;
    if count > 0 {
      p50, p95, p99, p999 := Quotient(p50, count), Quotient(p95, count), Quotient(p99, count), Quotient(p999, count);
    } else {
      p50, p95, p99, p999 := 0, 0, 0, 0;
    }
  }

  class MetricsAggregator {
    var workerMetrics: Table
    var aggregated: map<string, Snapshot>

    /** Every cached aggregate is the rollup of the snapshots held now. */
    ghost predicate Valid()
      reads this
    {
      && aggregated.Keys == workerMetrics.Keys && "" !in workerMetrics
      && forall test :: test in aggregated ==>
          workerMetrics[test] != map[] && IsRollup(aggregated[test], workerMetrics[test])
    }

    constructor ()
      ensures Valid() && workerMetrics == map[]
    {
      workerMetrics, aggregated := map[], map[];
    }

    /** Replaces the worker's entry for the test; a batch for no test is dropped. */
    method UpdateWorkerMetrics(test: string, worker: string, b: Batch)
      requires Valid()
      modifies this
      ensures Valid() && workerMetrics == AfterReport(old(workerMetrics), test, worker, b)
      ensures forall t :: t in old(aggregated) && t != test ==> aggregated[t] == old(aggregated)[t]
    {
      if test == "" {
        return;
      }
      var ws := WorkersOf(workerMetrics, test)[worker := FromBatch(b)];
      assert worker in ws && ws != map[];
      workerMetrics := workerMetrics[test := ws];
      var r := Recalculate(ws);
      aggregated := aggregated[test := r];
    }

    static method Recalculate(ws: Workers) returns (r: Snapshot)
      ensures IsRollup(r, ws)
    {
      var current, average, peak, errorRate := AddRatesUp(ws);
      var requests, errors := AddRequests(ws);
      var min, max, mean, count := LatencyRange(ws);
      var p50, p95, p99, p999 := AveragePercentiles(ws);
      var errorPct := 0.0;
      if requests > 0 {
        errorPct := errors as real / requests as real * 100.0;
      }
      r := Snapshot(current, average, peak, 10, Latency(min, max, mean, p50, p95, p99, p999, count),
                    errorRate, errorPct, requests, errors);
    }

    /** A test nobody has reported on reads as all zeros. */
    method GetAggregatedMetrics(test: string) returns (r: Snapshot)
      requires Valid()
      ensures test in workerMetrics ==> IsRollup(r, workerMetrics[test])
      ensures test !in workerMetrics ==> r == ZERO
    {
      if test in aggregated { r := aggregated[test]; } else { r := ZERO; }
    }

    method RemoveTest(test: string)
      requires Valid()
      modifies this
      ensures Valid() && workerMetrics == old(workerMetrics) - {test}
    {
      workerMetrics := workerMetrics - {test};
      aggregated := aggregated - {test};
    }
  }

  // ---------- whole histories ----------

  datatype Op = Report(test: string, worker: string, batch: Batch) | Remove(test: string)

  function TableAfter(ops: seq<Op>): Table {
    if ops == [] then map[]
    else
      var table := TableAfter(ops[..|ops| - 1]);
      match ops[|ops| - 1]
      case Report(test, worker, b) => AfterReport(table, test, worker, b)
      case Remove(test) => table - {test}
  }

  /** The worker's last batch for the test since the test was last removed. */
  function LastBatch(ops: seq<Op>, test: string, worker: string): Option<Batch> {
    if ops == [] then None
    else
      match ops[|ops| - 1]
      case Report(t, w, b) => if t == test && w == worker then Some(b) else LastBatch(ops[..|ops| - 1], test, worker)
      case Remove(t) => if t == test then None else LastBatch(ops[..|ops| - 1], test, worker)
  }

  lemma {:induction false} TableHoldsLastBatches(ops: seq<Op>, test: string, worker: string)
    requires test != ""
    ensures worker in WorkersOf(TableAfter(ops), test) <==> LastBatch(ops, test, worker).Some?
    ensures worker in WorkersOf(TableAfter(ops), test) ==>
      WorkersOf(TableAfter(ops), test)[worker] == FromBatch(LastBatch(ops, test, worker).value)
  {
    if ops != [] {
      TableHoldsLastBatches(ops[..|ops| - 1], test, worker);
    }
  }

  /**
   Whatever else happened, and in whatever order, two histories that agree on each worker's last
   batch for a test have the same aggregate for it, but for an ambiguous minimum.
   */
  lemma AggregateIsOfLastBatches(ops: seq<Op>, ops': seq<Op>, test: string, a: Snapshot, b: Snapshot)
    requires test != "" && forall worker :: LastBatch(ops, test, worker) == LastBatch(ops', test, worker)
    requires IsRollup(a, WorkersOf(TableAfter(ops), test)) && IsRollup(b, WorkersOf(TableAfter(ops'), test))
    ensures a.(latency := a.latency.(min := 0)) == b.(latency := b.latency.(min := 0))
    ensures AllMinsPositive(WorkersOf(TableAfter(ops), test)) || AllMinsZero(WorkersOf(TableAfter(ops), test)) ==>
      a == b
  {
    var ws, ws' := WorkersOf(TableAfter(ops), test), WorkersOf(TableAfter(ops'), test);
    forall worker
      ensures worker in ws <==> worker in ws'
      ensures worker in ws ==> ws[worker] == ws'[worker]
    {
      TableHoldsLastBatches(ops, test, worker);
      TableHoldsLastBatches(ops', test, worker);
    }
    assert ws == ws';
    RollupIsDetermined(a, b, ws);
    if AllMinsPositive(ws) || AllMinsZero(ws) {
      UniformMinIsDetermined(a.latency.min, b.latency.min, ws);
    }
  }
}

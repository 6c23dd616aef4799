/**
 `allocateStageVUs`: one stage's target split over the workers of a test by
 largest-remainder rounding. Fractions are exact: `target * share` is divided by
 the total share, and the fractional parts are compared through the remainders.
 */
module StageAllocation {
  import opened Sums
  import opened Orders

  // ---------- what the split should be ----------

  ghost function Whole(dist: map<string, int>, target: int, id: string): int
    requires SumMap(dist) > 0
  {
    target * Get(dist, id) / SumMap(dist)
  }

  ghost function Rem(dist: map<string, int>, target: int, id: string): int
    requires SumMap(dist) > 0
  {
    target * Get(dist, id) % SumMap(dist)
  }

  ghost function Wholes(dist: map<string, int>, target: int): string -> int
    requires SumMap(dist) > 0
  {
    id => Whole(dist, target, id)
  }

  ghost function Rems(dist: map<string, int>, target: int): string -> int
    requires SumMap(dist) > 0
  {
    id => Rem(dist, target, id)
  }

  /** Virtual users lost when every share is truncated. */
  ghost function Leftover(dist: map<string, int>, target: int): int
    requires SumMap(dist) > 0
  {
    target - Sum(dist.Keys, Wholes(dist, target))
  }

  /** The workers whose exact share is not a whole number. */
  ghost function Fractional(dist: map<string, int>, target: int): set<string>
    requires SumMap(dist) > 0
  {
    set id | id in dist && Rem(dist, target, id) > 0
  }

  /** Larger remainder first; equal remainders in worker-ID order. */
  ghost function Precedes(dist: map<string, int>, target: int): (string, string) -> bool
    requires SumMap(dist) > 0
  {
    (a: string, b: string) =>
      Rem(dist, target, a) > Rem(dist, target, b)
      || (Rem(dist, target, a) == Rem(dist, target, b) && StringLess(a, b))
  }

  /** The workers that receive one of the lost virtual users. */
  ghost function Winners(dist: map<string, int>, target: int): set<string>
    requires SumMap(dist) > 0
  {
    if target <= SumMap(dist)
    then FirstN(dist.Keys, Precedes(dist, target), Leftover(dist, target))
    else {}
  }

  ghost function StageShare(dist: map<string, int>, target: int, id: string): int
    requires SumMap(dist) > 0
  {
    Whole(dist, target, id) + if id in Winners(dist, target) then 1 else 0
  }

  /** The allocation as a function of the distribution and the target alone. */
  ghost function StageSplit(dist: map<string, int>, target: int): map<string, int> {
    if target <= 0 || SumMap(dist) <= 0 then map[]
    else map id | id in dist :: StageShare(dist, target, id)
  }

  // ---------- properties of the split ----------

  lemma DivMod(a: int, t: int)
    requires t > 0
    ensures a == t * (a / t) + a % t && 0 <= a % t < t
  {
  }

  lemma WholeRem(dist: map<string, int>, target: int, id: string)
    requires SumMap(dist) > 0
    ensures target * Get(dist, id) == SumMap(dist) * Whole(dist, target, id) + Rem(dist, target, id)
    ensures 0 <= Rem(dist, target, id) < SumMap(dist)
  {
    DivMod(target * Get(dist, id), SumMap(dist));
  }

  lemma PrecedesIsStrictTotal(dist: map<string, int>, target: int)
    requires SumMap(dist) > 0
    ensures StrictTotal(dist.Keys, Precedes(dist, target))
    ensures Transitive(Precedes(dist, target))
  {
    var less := Precedes(dist, target);
    forall a, b ensures a == b ==> !less(a, b)
                ensures a != b ==> less(a, b) || less(b, a)
    {
      StringLessTrichotomy(a, b);
    }
    forall a, b, c | less(a, b) && less(b, c) ensures less(a, c) {
      if StringLess(a, b) && StringLess(b, c) {
        StringLessTransitive(a, b, c);
      }
    }
  }

  /** The remainders add up to exactly the lost virtual users. */
  lemma RemaindersSum(dist: map<string, int>, target: int)
    requires SumMap(dist) > 0
    ensures Sum(dist.Keys, Rems(dist, target)) == Leftover(dist, target) * SumMap(dist)
  {
    var t, keys := SumMap(dist), dist.Keys;
    var exact, scaled := (id: string) => target * Get(dist, id), (id: string) => t * Whole(dist, target, id);
    forall id | id in keys ensures exact(id) == scaled(id) + Rems(dist, target)(id) {
      WholeRem(dist, target, id);
    }
    SumScale(keys, target, Values(dist), exact);
    SumScale(keys, t, Wholes(dist, target), scaled);
    SumAdd(keys, scaled, Rems(dist, target), exact);
  }

  /** More workers have a remainder than there are virtual users to hand out. */
  lemma LeftoverBound(dist: map<string, int>, target: int)
    requires SumMap(dist) > 0
    ensures 0 <= Leftover(dist, target) <= |Fractional(dist, target)|
  {
    var t, keys, l := SumMap(dist), dist.Keys, Leftover(dist, target);
    var busy := Fractional(dist, target);
    var one, cap := (id: string) => if id in busy then 1 else 0, (id: string) => if id in busy then t else 0;
    forall id | id in keys ensures 0 <= Rems(dist, target)(id) <= cap(id) {
      WholeRem(dist, target, id);
    }
    RemaindersSum(dist, target);
    SumNonNegative(keys, Rems(dist, target));
    SumMono(keys, Rems(dist, target), cap);
    SumScale(keys, t, one, cap);
    SumIndicator(keys, busy, one);
    MulOrder(t, 0, l);
    MulOrder(t, l, |busy|);
  }

  /** A worker that is handed a lost virtual user has a fractional part. */
  lemma WinnersHaveRemainder(dist: map<string, int>, target: int, id: string)
    requires SumMap(dist) > 0 && id in FirstN(dist.Keys, Precedes(dist, target), Leftover(dist, target))
    ensures Rem(dist, target, id) > 0
  {
    var busy := Fractional(dist, target);
    LeftoverBound(dist, target);
    WholeRem(dist, target, id);
    if Rem(dist, target, id) == 0 {
      SubsetSize(busy, Below(dist.Keys, Precedes(dist, target), id));
    }
  }

  lemma QuotientFits(target: int, s: int, t: int, w: int, r: int)
    requires t > 0 && s >= 0 && target * s == t * w + r && 0 <= r < t && target <= t
    ensures w <= s && (r > 0 ==> w < s)
  {
    assert (t - target) * s >= 0;
    assert t * s >= t * w + r;
    MulOrder(t, w, s);
    MulOrder(t, s, w);
  }

  lemma QuotientFills(target: int, s: int, t: int, w: int, r: int)
    requires t > 0 && s >= 0 && target * s == t * w + r && 0 <= r < t && target >= t
    ensures w >= s
  {
    assert (target - t) * s >= 0;
    assert t * s <= t * w + r;
    MulOrder(t, w + 1, s);
  }

  lemma QuotientNonNegative(x: int, t: int, w: int, r: int)
    requires t > 0 && x >= 0 && x == t * w + r && 0 <= r < t
    ensures w >= 0
  {
    MulOrder(t, w, -1);
  }

  lemma WholeVersusShare(dist: map<string, int>, target: int, id: string)
    requires SumMap(dist) > 0 && NonNegative(dist) && target > 0
    ensures Whole(dist, target, id) >= 0
    ensures target <= SumMap(dist) ==> Whole(dist, target, id) <= Get(dist, id)
    ensures target <= SumMap(dist) && Rem(dist, target, id) > 0 ==> Whole(dist, target, id) < Get(dist, id)
    ensures target >= SumMap(dist) ==> Whole(dist, target, id) >= Get(dist, id)
  {
    WholeRem(dist, target, id);
    var s, t, w, r := Get(dist, id), SumMap(dist), Whole(dist, target, id), Rem(dist, target, id);
    assert target * s >= 0;
    QuotientNonNegative(target * s, t, w, r);
    if target <= t {
      QuotientFits(target, s, t, w, r);
    }
    if target >= t {
      QuotientFills(target, s, t, w, r);
    }
  }

  lemma WinnersCount(dist: map<string, int>, target: int)
    requires 0 < target <= SumMap(dist)
    ensures Winners(dist, target) <= dist.Keys && |Winners(dist, target)| == Leftover(dist, target)
  {
    LeftoverBound(dist, target);
    SubsetSize(Fractional(dist, target), dist.Keys);
    PrecedesIsStrictTotal(dist, target);
    FirstNSize(dist.Keys, Precedes(dist, target), Leftover(dist, target));
  }

  /** A rounded share is the exact share rounded down or up, and within the worker's assignment. */
  lemma ShareIsRounded(dist: map<string, int>, target: int, id: string)
    requires NonNegative(dist) && 0 < target <= SumMap(dist) && id in dist
    ensures Whole(dist, target, id) <= StageShare(dist, target, id) <= Whole(dist, target, id) + 1
    ensures 0 <= StageShare(dist, target, id) <= dist[id]
  {
    WholeVersusShare(dist, target, id);
    if id in Winners(dist, target) {
      WinnersHaveRemainder(dist, target, id);
    }
  }

  /**
   Exactness: within the reach of the distribution, a stage's shares add up to its
   target, and each share is its exact proportion rounded down or up and within
   the worker's assignment for the test.
   */
  lemma SplitIsExact(dist: map<string, int>, target: int)
    requires NonNegative(dist) && 0 < target <= SumMap(dist)
    ensures SumMap(StageSplit(dist, target)) == target
    ensures forall id :: id in dist ==>
      && Whole(dist, target, id) <= StageSplit(dist, target)[id] <= Whole(dist, target, id) + 1
      && 0 <= StageSplit(dist, target)[id] <= dist[id]
  {
    var split, winners := StageSplit(dist, target), Winners(dist, target);
    var bonus := (id: string) => if id in winners then 1 else 0;
    WinnersCount(dist, target);
    SumIndicator(dist.Keys, winners, bonus);
    assert split.Keys == dist.Keys;
    SumAdd(dist.Keys, Wholes(dist, target), bonus, Values(split));
    forall id | id in dist
      ensures Whole(dist, target, id) <= split[id] <= Whole(dist, target, id) + 1 && 0 <= split[id] <= dist[id]
    {
      ShareIsRounded(dist, target, id);
    }
  }

  /** No worker is given more than it was assigned for the test. */
  ghost predicate Fits(dist: map<string, int>, split: map<string, int>) {
    forall id :: id in dist ==> Get(split, id) <= dist[id]
  }

  /** Beyond the reach of the distribution every share is only rounded down, so some worker is over its assignment. */
  lemma SplitFitsIffReachable(dist: map<string, int>, target: int)
    requires NonNegative(dist) && SumMap(dist) > 0 && target > 0
    ensures target <= SumMap(dist)
            <==> SumMap(StageSplit(dist, target)) == target && Fits(dist, StageSplit(dist, target))
  {
    if target <= SumMap(dist) {
      SplitIsExact(dist, target);
    } else if Fits(dist, StageSplit(dist, target)) {
      assert StageSplit(dist, target).Keys == dist.Keys;
      SumMono(dist.Keys, Values(StageSplit(dist, target)), Values(dist));
    }
  }

  // ---------- ties ----------

  /**
   Who is rounded up: a larger fractional part goes first, and of two workers with equal ones the
   one whose ID comes first in the dictionary.
   */
  lemma RoundsUpInOrder(dist: map<string, int>, target: int, a: string, b: string, i: nat)
    requires NonNegative(dist) && 0 < target <= SumMap(dist) && a in dist && b in dist
    requires i <= |a| && i < |b| && a[..i] == b[..i] && (i == |a| || a[i] < b[i])
    requires target * dist[a] % SumMap(dist) == target * dist[b] % SumMap(dist)
    ensures StageSplit(dist, target)[a] - target * dist[a] / SumMap(dist)
            >= StageSplit(dist, target)[b] - target * dist[b] / SumMap(dist)
  {
    DifferenceDecides(a, b, i);
    assert Rem(dist, target, a) == Rem(dist, target, b);
    EarlierWins(dist, target, a, b);
  }

  lemma LargerFractionWins(dist: map<string, int>, target: int, a: string, b: string)
    requires NonNegative(dist) && 0 < target <= SumMap(dist) && a in dist && b in dist
    requires target * dist[a] % SumMap(dist) > target * dist[b] % SumMap(dist)
    ensures StageSplit(dist, target)[a] - target * dist[a] / SumMap(dist)
            >= StageSplit(dist, target)[b] - target * dist[b] / SumMap(dist)
  {
    assert Rem(dist, target, a) > Rem(dist, target, b);
    EarlierWins(dist, target, a, b);
  }

  /** Beyond the reach of the distribution nobody is rounded up; without a target or a share nobody starts. */
  lemma SplitElsewhere(dist: map<string, int>, target: int)
    ensures target > SumMap(dist) > 0 ==> StageSplit(dist, target).Keys == dist.Keys
    ensures target > SumMap(dist) > 0 ==>
      forall id :: id in dist ==> StageSplit(dist, target)[id] == target * dist[id] / SumMap(dist)
    ensures target <= 0 || SumMap(dist) <= 0 ==> StageSplit(dist, target) == map[]
  {
    forall id | target > SumMap(dist) > 0 && id in dist
      ensures StageSplit(dist, target)[id] == target * dist[id] / SumMap(dist)
    {
      assert StageShare(dist, target, id) == Whole(dist, target, id);
    }
  }

  lemma EarlierWins(dist: map<string, int>, target: int, a: string, b: string)
    requires SumMap(dist) > 0 && a in dist && b in dist && Precedes(dist, target)(a, b)
    ensures b in Winners(dist, target) ==> a in Winners(dist, target)
  {
    PrecedesIsStrictTotal(dist, target);
    BelowMonotone(dist.Keys, Precedes(dist, target), a, b);
  }

  /** Workers with equal assignments: whose ID comes first in the dictionary gets at least as much of a stage. */
  lemma TieGoesToEarlierID(dist: map<string, int>, target: int, a: string, b: string, i: nat)
    requires NonNegative(dist) && 0 < target <= SumMap(dist) && a in dist && b in dist && dist[a] == dist[b]
    requires i <= |a| && i < |b| && a[..i] == b[..i] && (i == |a| || a[i] < b[i])
    ensures StageSplit(dist, target)[a] >= StageSplit(dist, target)[b]
  {
    RoundsUpInOrder(dist, target, a, b, i);
  }

  // ---------- optimality ----------

  function Abs(x: int): int {
    if x < 0 then -x else x
  }

  /** Distance of one worker's allocation from its exact share, in units of 1 / SumMap(dist). */
  ghost function Deviations(dist: map<string, int>, target: int, alloc: map<string, int>): string -> int {
    id => Abs(SumMap(dist) * Get(alloc, id) - target * Get(dist, id))
  }

  ghost function Deviation(dist: map<string, int>, target: int, alloc: map<string, int>): int {
    Sum(dist.Keys, Deviations(dist, target, alloc))
  }

  /** What moving from `a` to `b` costs at a fixed price per virtual user. */
  ghost function Gain(slope: int, a: map<string, int>, b: map<string, int>): string -> int {
    id => slope * (Get(b, id) - Get(a, id))
  }

  /** One remainder separates the workers that were rounded up from the others. */
  lemma Threshold(dist: map<string, int>, target: int) returns (rho: int)
    requires NonNegative(dist) && 0 < target <= SumMap(dist)
    ensures 0 <= rho <= SumMap(dist)
    ensures forall id :: id in dist ==>
      if id in Winners(dist, target) then Rem(dist, target, id) >= rho else Rem(dist, target, id) <= rho
  {
    var keys, less, l := dist.Keys, Precedes(dist, target), Leftover(dist, target);
    LeftoverBound(dist, target);
    SubsetSize(Fractional(dist, target), keys);
    PrecedesIsStrictTotal(dist, target);
    rho := SumMap(dist);
    if l > 0 {
      var last := AtRank(keys, less, l - 1);
      rho := Rem(dist, target, last);
      WholeRem(dist, target, last);
      forall id | id in dist
        ensures if id in Winners(dist, target) then Rem(dist, target, id) >= rho else Rem(dist, target, id) <= rho
      {
        if less(last, id) {
          BelowMonotone(keys, less, last, id);
        } else if less(id, last) {
          BelowMonotone(keys, less, id, last);
        }
      }
    } else {
      forall id | id in dist ensures Rem(dist, target, id) <= rho { WholeRem(dist, target, id); }
    }
  }

  lemma Product(a: int, b: int)
    requires a >= 0 && b >= 0
    ensures a * b >= 0
  {
  }

  /** `t - 2 * rho` is a slope below which |t * d - r| does not fall away from its rounded minimum. */
  lemma SlopeFromFloor(t: int, r: int, rho: int, d: int)
    requires 0 <= r <= rho <= t
    ensures Abs(t * d - r) >= r + t * d - 2 * (rho * d)
  {
    if d >= 1 {
      Product(rho, d - 1);
      Distribute(d, -1, rho);
    } else {
      Product(t - rho, -d);
      Product(t, -d);
      Distribute(t, -rho, -d);
    }
  }

  lemma SlopeFromCeiling(t: int, r: int, rho: int, e: int)
    requires 0 <= rho <= r <= t
    ensures Abs(t * e + t - r) >= t - r + t * e - 2 * (rho * e)
  {
    if e >= 0 {
      Product(rho, e);
      Product(t, e);
    } else {
      Product(t - rho, -e - 1);
      Distribute(-e, -1, t - rho);
      Distribute(t, -rho, -e);
    }
  }

  /** The rounded share is a minimum along every line through it with a slope from the threshold. */
  lemma SlopeAt(t: int, w: int, r: int, rho: int, a: int, d: int)
    requires 0 <= r < t && 0 <= rho <= t
    requires (a == w && r <= rho) || (a == w + 1 && r >= rho)
    ensures Abs(t * (a - w) + t * d - r) >= Abs(t * (a - w) - r) + t * d - 2 * (rho * d)
  {
    if a == w {
      SlopeFromFloor(t, r, rho, d);
    } else {
      SlopeFromCeiling(t, r, rho, d);
    }
  }

  lemma Expand(t: int, w: int, rho: int, a: int, b: int)
    ensures t * a == t * w + t * (a - w) && t * b == t * a + t * (b - a)
    ensures (t - 2 * rho) * (b - a) == t * (b - a) - 2 * (rho * (b - a))
  {
    Distribute(w, a - w, t);
    Distribute(a, b - a, t);
    Distribute(t, -(2 * rho), b - a);
    Distribute(rho, rho, b - a);
  }

  lemma Subgradient(t: int, w: int, r: int, rho: int, a: int, b: int, x: int)
    requires 0 <= r < t && 0 <= rho <= t && x == t * w + r
    requires (a == w && r <= rho) || (a == w + 1 && r >= rho)
    ensures Abs(t * b - x) >= Abs(t * a - x) + (t - 2 * rho) * (b - a)
  {
    SlopeAt(t, w, r, rho, a, b - a);
    Expand(t, w, rho, a, b);
  }

  /** Optimality: no integer allocation of the same total lies closer to the exact proportions. */
  lemma SplitIsOptimal(dist: map<string, int>, target: int, other: map<string, int>)
    requires NonNegative(dist) && 0 < target <= SumMap(dist)
    requires other.Keys == dist.Keys && SumMap(other) == target
    ensures Deviation(dist, target, StageSplit(dist, target)) <= Deviation(dist, target, other)
  {
    var split := StageSplit(dist, target);
    var rho := Threshold(dist, target);
    var slope := SumMap(dist) - 2 * rho;
    AllWorkersSupport(dist, target, other, rho, slope);
    SplitIsExact(dist, target);
    SupportingLine(dist.Keys, slope, split, other, Deviations(dist, target, split), Deviations(dist, target, other));
  }

  lemma AllWorkersSupport(dist: map<string, int>, target: int, other: map<string, int>, rho: int, slope: int)
    requires SumMap(dist) > 0 && target > 0 && 0 <= rho <= SumMap(dist) && slope == SumMap(dist) - 2 * rho
    requires forall id :: id in dist ==>
      if id in Winners(dist, target) then Rem(dist, target, id) >= rho else Rem(dist, target, id) <= rho
    ensures var split := StageSplit(dist, target);
            forall id :: id in dist ==>
              Deviations(dist, target, other)(id)
              >= Deviations(dist, target, split)(id) + Gain(slope, split, other)(id)
  {
    var split := StageSplit(dist, target);
    forall id | id in dist
      ensures Deviations(dist, target, other)(id)
              >= Deviations(dist, target, split)(id) + Gain(slope, split, other)(id)
    {
      WorkerSupport(dist, target, other, id, rho, slope);
    }
  }

  lemma WorkerSupport(dist: map<string, int>, target: int, other: map<string, int>, id: string, rho: int, slope: int)
    requires SumMap(dist) > 0 && target > 0 && id in dist && 0 <= rho <= SumMap(dist) && slope == SumMap(dist) - 2 * rho
    requires if id in Winners(dist, target) then Rem(dist, target, id) >= rho else Rem(dist, target, id) <= rho
    ensures var split := StageSplit(dist, target);
            Deviations(dist, target, other)(id)
            >= Deviations(dist, target, split)(id) + Gain(slope, split, other)(id)
  {
    ShareSupport(dist, target, id, rho, slope, Get(other, id));
  }

  lemma ShareSupport(dist: map<string, int>, target: int, id: string, rho: int, slope: int, b: int)
    requires SumMap(dist) > 0 && target > 0 && id in dist && 0 <= rho <= SumMap(dist) && slope == SumMap(dist) - 2 * rho
    requires if id in Winners(dist, target) then Rem(dist, target, id) >= rho else Rem(dist, target, id) <= rho
    ensures Abs(SumMap(dist) * b - target * Get(dist, id))
            >= Abs(SumMap(dist) * StageShare(dist, target, id) - target * Get(dist, id))
               + slope * (b - StageShare(dist, target, id))
  {
    WholeRem(dist, target, id);
    Subgradient(SumMap(dist), Whole(dist, target, id), Rem(dist, target, id), rho,
                StageShare(dist, target, id), b, target * Get(dist, id));
  }

  /** A common slope under every term cannot be beaten by moving a fixed total around. */
  lemma SupportingLine(keys: set<string>, slope: int, a: map<string, int>, b: map<string, int>, f: string -> int,
      g: string -> int)
    requires a.Keys == keys == b.Keys && SumMap(a) == SumMap(b)
    requires forall id :: id in keys ==> g(id) >= f(id) + Gain(slope, a, b)(id)
    ensures Sum(keys, f) <= Sum(keys, g)
  {
    var change := (id: string) => Get(b, id) - Get(a, id);
    var gain := Gain(slope, a, b);
    var line := (id: string) => f(id) + gain(id);
    SumAdd(keys, change, Values(a), Values(b));
    SumScale(keys, slope, change, gain);
    SumAdd(keys, f, gain, line);
    SumMono(keys, line, g);
  }

  // ---------- the algorithm ----------

  /** A worker and the numerator of the fractional part of its exact share. */
  datatype Remainder = Remainder(workerID: string, frac: int)

  predicate LargerFrac(a: Remainder, b: Remainder) {
    a.frac > b.frac
  }

  /** Sorting the IDs lists every worker once, in string order. */
  lemma SortedIDs(ids: seq<string>)
    requires forall i, j :: 0 <= i < j < |ids| ==> ids[i] != ids[j]
    ensures Ordered(SortBy(ids, StringLess), StringLess)
    ensures forall id :: id in SortBy(ids, StringLess) <==> id in ids
    ensures |SortBy(ids, StringLess)| == |ids|
  {
    forall a, b, c | StringLess(a, b) && StringLess(b, c) ensures StringLess(a, c) {
      StringLessTransitive(a, b, c);
    }
    forall i, j | 0 <= i < j < |ids| && !StringLess(ids[j], ids[i]) ensures StringLess(ids[i], ids[j]) {
      StringLessTrichotomy(ids[i], ids[j]);
    }
    SortOrdered(ids, StringLess, StringLess);
    SortContents(ids, StringLess);
    forall id ensures id in SortBy(ids, StringLess) <==> id in ids {
      assert id in multiset(SortBy(ids, StringLess)) <==> id in multiset(ids);
    }
  }

  predicate RemainderBefore(a: Remainder, b: Remainder) {
    a.frac > b.frac || (a.frac == b.frac && StringLess(a.workerID, b.workerID))
  }

  ghost predicate Computed(dist: map<string, int>, target: int, ids: seq<string>, remainders: seq<Remainder>)
    requires SumMap(dist) > 0
  {
    && |remainders| == |ids|
    && forall j :: 0 <= j < |ids| ==> remainders[j] == Remainder(ids[j], Rem(dist, target, ids[j]))
  }

  lemma SortedRemainders(dist: map<string, int>, target: int, ids: seq<string>, remainders: seq<Remainder>)
    requires SumMap(dist) > 0 && Ordered(ids, StringLess) && Computed(dist, target, ids, remainders)
    ensures Ordered(SortBy(remainders, LargerFrac), RemainderBefore)
    ensures |SortBy(remainders, LargerFrac)| == |remainders|
    ensures forall x :: x in SortBy(remainders, LargerFrac) <==> x in remainders
  {
    forall a, b, c | RemainderBefore(a, b) && RemainderBefore(b, c) ensures RemainderBefore(a, c) {
      if StringLess(a.workerID, b.workerID) && StringLess(b.workerID, c.workerID) {
        StringLessTransitive(a.workerID, b.workerID, c.workerID);
      }
    }
    SortOrdered(remainders, LargerFrac, RemainderBefore);
    SortContents(remainders, LargerFrac);
    forall x ensures x in SortBy(remainders, LargerFrac) <==> x in remainders {
      assert x in multiset(SortBy(remainders, LargerFrac)) <==> x in multiset(remainders);
    }
  }

  /** The stable sort by fractional part lists the workers by rank. */
  lemma RankedByPrecedence(dist: map<string, int>, target: int, ids: seq<string>, remainders: seq<Remainder>)
    requires SumMap(dist) > 0 && Ordered(ids, StringLess) && Computed(dist, target, ids, remainders)
    requires Elements(ids) == dist.Keys
    ensures var ranked, keys, less := SortBy(remainders, LargerFrac), dist.Keys, Precedes(dist, target);
            && |ranked| == |dist.Keys|
            && forall i :: 0 <= i < |ranked| ==> RankedAt(keys, less, i, ranked[i].workerID)
  {
    var ranked := SortBy(remainders, LargerFrac);
    SortedRemainders(dist, target, ids, remainders);
    PrecedesIsStrictTotal(dist, target);
    var list := seq(|ranked|, i requires 0 <= i < |ranked| => ranked[i].workerID);
    forall id ensures id in ids <==> id in dist {
      assert id in Elements(ids) <==> id in dist.Keys;
    }
    forall i | 0 <= i < |ranked|
      ensures list[i] in dist && ranked[i].frac == Rem(dist, target, list[i])
    {
      assert ranked[i] in remainders;
    }
    forall i, j | 0 <= i < j < |list| ensures Precedes(dist, target)(list[i], list[j]) {
      assert RemainderBefore(ranked[i], ranked[j]);
    }
    forall id | id in dist ensures id in list {
      var j :| 0 <= j < |ids| && ids[j] == id;
      assert remainders[j] in ranked;
      var i :| 0 <= i < |ranked| && ranked[i] == remainders[j];
      assert list[i] == id;
    }
    RanksFollowPositions(dist.Keys, Precedes(dist, target), list);
    forall i | 0 <= i < |ranked| ensures RankedAt(dist.Keys, Precedes(dist, target), i, ranked[i].workerID) {
      assert RankedAt(dist.Keys, Precedes(dist, target), i, list[i]);
    }
  }

  /** `allocateStageVUs`: visits the map in any order, and still computes one function of its arguments. */
  method AllocateStageVUs(dist: map<string, int>, target: int) returns (allocation: map<string, int>)
    requires NonNegative(dist)
    ensures allocation == StageSplit(dist, target)
  {
    if target <= 0 || |dist| == 0 {
      return map[];
    }

    var workerIDs, total := CollectShares(dist);
    if total <= 0 {
      return map[];
    }
    SortedIDs(workerIDs);
    workerIDs := SortBy(workerIDs, StringLess);

    allocation := LargestRemainder(dist, target, workerIDs, total);
  }

  method LargestRemainder(dist: map<string, int>, target: int, workerIDs: seq<string>, total: int)
    returns (allocation: map<string, int>)
    requires NonNegative(dist) && target > 0 && total == SumMap(dist) > 0
    requires Ordered(workerIDs, StringLess) && Elements(workerIDs) == dist.Keys
    ensures allocation == StageSplit(dist, target)
  {
    var wholes, remainders, placed := Truncate(workerIDs, ExactShare(dist, target, total));
    assert wholes.Keys == dist.Keys;
    TruncationFacts(dist, target, workerIDs, wholes, remainders);
    RankedByPrecedence(dist, target, workerIDs, remainders);
    allocation := Complete(dist, target, wholes, SortBy(remainders, LargerFrac), placed);
  }

  /** The second half: hands out the virtual users that truncation lost. */
  method Complete(dist: map<string, int>, target: int, wholes: map<string, int>, ranked: seq<Remainder>, placed: int)
    returns (allocation: map<string, int>)
    requires NonNegative(dist) && target > 0 && SumMap(dist) > 0 && AreWholes(dist, target, wholes)
    requires |ranked| == |dist.Keys| && placed == target - Leftover(dist, target)
    requires forall i :: 0 <= i < |ranked| ==> RankedAt(dist.Keys, Precedes(dist, target), i, ranked[i].workerID)
    ensures allocation == StageSplit(dist, target)
  {
    Room(dist, target, wholes, ranked);
    allocation := HandOut(dist, target, wholes, ranked, placed, target <= SumMap(dist), Precedes(dist, target));
    Assemble(dist, target, wholes, allocation);
  }

  lemma Assemble(dist: map<string, int>, target: int, wholes: map<string, int>, allocation: map<string, int>)
    requires target > 0 && SumMap(dist) > 0 && AreWholes(dist, target, wholes) && allocation.Keys == dist.Keys
    requires forall id :: id in dist ==>
      allocation[id] == wholes[id] +
        if target <= SumMap(dist) && id in FirstN(dist.Keys, Precedes(dist, target), Leftover(dist, target))
        then 1 else 0
    ensures allocation == StageSplit(dist, target)
  {
  }

  /** The worker IDs in map order, and the total share. */
  method CollectShares(dist: map<string, int>) returns (workerIDs: seq<string>, total: int)
    ensures forall id :: id in workerIDs <==> id in dist
    ensures forall i, j :: 0 <= i < j < |workerIDs| ==> workerIDs[i] != workerIDs[j]
    ensures total == SumMap(dist)
  {
    var rest := dist.Keys;
    workerIDs, total := [], 0;
    while rest != {}
      invariant rest <= dist.Keys
      invariant forall id :: id in workerIDs <==> id in dist.Keys - rest
      invariant forall i, j :: 0 <= i < j < |workerIDs| ==> workerIDs[i] != workerIDs[j]
      invariant total + Sum(rest, Values(dist)) == SumMap(dist)
      decreases |rest|
    {
      var id :| id in rest;
      SumRemove(rest, id, Values(dist));
      assert id !in workerIDs;
      workerIDs, total, rest := workerIDs + [id], total + dist[id], rest - {id};
    }
  }

  ghost predicate AreWholes(dist: map<string, int>, target: int, wholes: map<string, int>)
    requires SumMap(dist) > 0
  {
    wholes.Keys == dist.Keys && forall id :: id in wholes ==> wholes[id] == Whole(dist, target, id)
  }

  /** The full-worker skip never fires within reach and always fires beyond it. */
  lemma Room(dist: map<string, int>, target: int, wholes: map<string, int>, ranked: seq<Remainder>)
    requires NonNegative(dist) && target > 0 && SumMap(dist) > 0 && AreWholes(dist, target, wholes)
    requires forall i :: 0 <= i < |ranked| ==> RankedAt(dist.Keys, Precedes(dist, target), i, ranked[i].workerID)
    ensures 0 <= Leftover(dist, target) <= |dist.Keys|
    ensures target > SumMap(dist) ==> forall id :: id in dist ==> wholes[id] >= dist[id]
    ensures target <= SumMap(dist) ==> forall i :: 0 <= i < |ranked| && i < Leftover(dist, target) ==>
      Get(wholes, ranked[i].workerID) < Get(dist, ranked[i].workerID)
  {
    LeftoverBound(dist, target);
    SubsetSize(Fractional(dist, target), dist.Keys);
    forall id | id in dist && target > SumMap(dist) ensures wholes[id] >= dist[id] {
      WholeVersusShare(dist, target, id);
    }
    forall i | 0 <= i < |ranked| && i < Leftover(dist, target) && target <= SumMap(dist)
      ensures wholes[ranked[i].workerID] < dist[ranked[i].workerID]
    {
      assert RankedAt(dist.Keys, Precedes(dist, target), i, ranked[i].workerID);
      WinnersHaveRemainder(dist, target, ranked[i].workerID);
      WholeVersusShare(dist, target, ranked[i].workerID);
    }
  }

  /** A worker's exact share, as its whole part and the numerator of its fraction. */
  function ExactShare(dist: map<string, int>, target: int, total: int): string -> (int, int)
    requires total > 0
  {
    (id: string) => (target * Get(dist, id) / total, target * Get(dist, id) % total)
  }

  lemma NotEarlier(ids: seq<string>, i: nat)
    requires Ordered(ids, StringLess) && i < |ids|
    ensures ids[i] !in ids[..i]
  {
    StringLessTrichotomy(ids[i], ids[i]);
  }

  /** The truncated shares, the fractional parts in worker order, and the sum of the shares. */
  method Truncate(workerIDs: seq<string>, share: string -> (int, int))
    returns (wholes: map<string, int>, remainders: seq<Remainder>, placed: int)
    requires Ordered(workerIDs, StringLess)
    ensures forall id :: id in wholes <==> id in workerIDs
    ensures forall id :: id in wholes ==> wholes[id] == share(id).0
    ensures |remainders| == |workerIDs|
    ensures forall j :: 0 <= j < |workerIDs| ==> remainders[j] == Remainder(workerIDs[j], share(workerIDs[j]).1)
    ensures placed == SumMap(wholes)
  {
    wholes, remainders, placed := map[], [], 0;
    for i := 0 to |workerIDs|
      invariant |remainders| == i
      invariant forall j :: 0 <= j < i ==> remainders[j] == Remainder(workerIDs[j], share(workerIDs[j]).1)
      invariant forall id :: id in wholes <==> id in workerIDs[..i]
      invariant forall id :: id in wholes ==> wholes[id] == share(id).0
      invariant placed == SumMap(wholes)
    {
      var id := workerIDs[i];
      var (whole, frac) := share(id);
      SumMapUpdate(wholes, id, whole);
      NotEarlier(workerIDs, i);
      wholes := wholes[id := whole];
      placed := placed + whole;
      remainders := remainders + [Remainder(id, frac)];
    }
  }

  /** What truncation leaves is the stage's whole shares, ranked remainders, and the leftover. */
  lemma TruncationFacts(dist: map<string, int>, target: int, ids: seq<string>, wholes: map<string, int>,
                        remainders: seq<Remainder>)
    requires SumMap(dist) > 0 && wholes.Keys == dist.Keys && |remainders| == |ids|
    requires forall id :: id in wholes ==> wholes[id] == ExactShare(dist, target, SumMap(dist))(id).0
    requires forall j :: 0 <= j < |ids| ==>
      remainders[j] == Remainder(ids[j], ExactShare(dist, target, SumMap(dist))(ids[j]).1)
    ensures AreWholes(dist, target, wholes) && Computed(dist, target, ids, remainders)
    ensures SumMap(wholes) == target - Leftover(dist, target)
  {
    SumCong(dist.Keys, Values(wholes), Wholes(dist, target));
  }

  /** Hands out the virtual users lost to truncation in rank order, skipping full workers. */
  method HandOut(dist: map<string, int>, target: int, wholes: map<string, int>, ranked: seq<Remainder>, whole: int,
                 ghost reach: bool, ghost less: (string, string) -> bool)
    returns (allocation: map<string, int>)
    requires wholes.Keys == dist.Keys && 0 <= target - whole <= |ranked| == |dist.Keys|
    requires forall i :: 0 <= i < |ranked| ==> RankedAt(dist.Keys, less, i, ranked[i].workerID)
    requires !reach ==> forall id :: id in dist ==> wholes[id] >= dist[id]
    requires reach ==> forall i :: 0 <= i < |ranked| && i < target - whole ==>
      Get(wholes, ranked[i].workerID) < Get(dist, ranked[i].workerID)
    ensures allocation.Keys == dist.Keys
    ensures forall id :: id in dist ==>
      allocation[id] == wholes[id] + if reach && id in FirstN(dist.Keys, less, target - whole) then 1 else 0
  {
    ghost var keys := dist.Keys;
    var i, placed := 0, whole;
    allocation := wholes;
    while placed < target && i < |ranked|
      invariant 0 <= i <= |ranked|
      invariant reach ==> placed == whole + i <= target
      invariant allocation.Keys == keys
      invariant forall id :: id in keys ==>
        allocation[id] == wholes[id] + if reach && id in FirstN(keys, less, i) then 1 else 0
    {
      var id := ranked[i].workerID;
      assert RankedAt(keys, less, i, id);
      if allocation[id] < dist[id] {
        allocation := allocation[id := allocation[id] + 1];
        placed := placed + 1;
      }
      i := i + 1;
    }
  }
}

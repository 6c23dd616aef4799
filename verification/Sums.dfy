/**
 Sums over finite sets of keys, independent of the order in which a Go `range`
 loop visits a map.
 */
module Sums {

  /** Go's map lookup: a missing key reads as zero. */
  function Get<K>(m: map<K, int>, k: K): int {
    if k in m then m[k] else 0
  }

  ghost function Sum<K(!new)>(s: set<K>, f: K -> int): int
    decreases |s|
  {
    if s == {} then 0 else var x :| x in s; f(x) + Sum(s - {x}, f)
  }

  function Values<K>(m: map<K, int>): K -> int {
    k => Get(m, k)
  }

  ghost predicate NonNegative<K(!new)>(m: map<K, int>) {
    forall k :: k in m ==> m[k] >= 0
  }

  /** The sum of all values of a map. */
  ghost function SumMap<K(!new)>(m: map<K, int>): int {
    Sum(m.Keys, Values(m))
  }

  lemma {:induction false} SumRemove<K(!new)>(s: set<K>, x: K, f: K -> int)
    requires x in s
    ensures Sum(s, f) == f(x) + Sum(s - {x}, f)
    decreases |s|
  {
    var y :| y in s && Sum(s, f) == f(y) + Sum(s - {y}, f);
    if x != y {
      SumRemove(s - {y}, x, f);
      SumRemove(s - {x}, y, f);
      assert s - {y} - {x} == s - {x} - {y};
    }
  }

  lemma {:induction false} SumCong<K(!new)>(s: set<K>, f: K -> int, g: K -> int)
    requires forall k :: k in s ==> f(k) == g(k)
    ensures Sum(s, f) == Sum(s, g)
    decreases |s|
  {
    if s != {} {
      var x :| x in s;
      SumCong(s - {x}, f, g);
      SumRemove(s, x, f);
      SumRemove(s, x, g);
    }
  }

  lemma {:induction false} SumAdd<K(!new)>(s: set<K>, f: K -> int, g: K -> int, h: K -> int)
    requires forall k :: k in s ==> h(k) == f(k) + g(k)
    ensures Sum(s, h) == Sum(s, f) + Sum(s, g)
    decreases |s|
  {
    if s != {} {
      var x :| x in s;
      SumAdd(s - {x}, f, g, h);
      SumRemove(s, x, f);
      SumRemove(s, x, g);
      SumRemove(s, x, h);
    }
  }

  lemma {:induction false} SumScale<K(!new)>(s: set<K>, c: int, f: K -> int, h: K -> int)
    requires forall k :: k in s ==> h(k) == c * f(k)
    ensures Sum(s, h) == c * Sum(s, f)
    decreases |s|
  {
    if s != {} {
      var x :| x in s;
      SumScale(s - {x}, c, f, h);
      SumRemove(s, x, f);
      SumRemove(s, x, h);
      assert c * (f(x) + Sum(s - {x}, f)) == c * f(x) + c * Sum(s - {x}, f);
    }
  }

  lemma {:induction false} SumMono<K(!new)>(s: set<K>, f: K -> int, g: K -> int)
    requires forall k :: k in s ==> f(k) <= g(k)
    ensures Sum(s, f) <= Sum(s, g)
    decreases |s|
  {
    if s != {} {
      var x :| x in s;
      SumMono(s - {x}, f, g);
      SumRemove(s, x, f);
      SumRemove(s, x, g);
    }
  }

  lemma SumScaledMono<K(!new)>(s: set<K>, a: int, f: K -> int, b: int, g: K -> int)
    requires forall k :: k in s ==> a * f(k) <= b * g(k)
    ensures a * Sum(s, f) <= b * Sum(s, g)
  {
    var af, bg := (k: K) => a * f(k), (k: K) => b * g(k);
    SumScale(s, a, f, af);
    SumScale(s, b, g, bg);
    SumMono(s, af, bg);
  }

  /** Summing an indicator counts the subset it indicates. */
  lemma {:induction false} SumIndicator<K(!new)>(s: set<K>, t: set<K>, f: K -> int)
    requires t <= s
    requires forall k :: k in s ==> f(k) == if k in t then 1 else 0
    ensures Sum(s, f) == |t|
    decreases |s|
  {
    if s != {} {
      var x :| x in s;
      SumIndicator(s - {x}, t - {x}, f);
      SumRemove(s, x, f);
    }
  }

  lemma {:induction false} SumNonNegative<K(!new)>(s: set<K>, f: K -> int)
    requires forall k :: k in s ==> f(k) >= 0
    ensures Sum(s, f) >= 0
    decreases |s|
  {
    if s != {} {
      var x :| x in s;
      SumNonNegative(s - {x}, f);
      SumRemove(s, x, f);
    }
  }

  /** Writing one key of a map shifts its total by the change at that key. */
  lemma SumMapUpdate<K(!new)>(m: map<K, int>, k: K, v: int)
    ensures SumMap(m[k := v]) == SumMap(m) - Get(m, k) + v
  {
    var m' := m[k := v];
    SumRemove(m'.Keys, k, Values(m'));
    SumCong(m'.Keys - {k}, Values(m'), Values(m));
    if k in m {
      SumRemove(m.Keys, k, Values(m));
      assert m'.Keys - {k} == m.Keys - {k};
    } else {
      assert m'.Keys - {k} == m.Keys;
    }
  }

  lemma SumMapDelete<K(!new)>(m: map<K, int>, k: K)
    ensures SumMap(m - {k}) == SumMap(m) - Get(m, k)
  {
    var m' := m - {k};
    SumCong(m'.Keys, Values(m'), Values(m));
    if k in m {
      SumRemove(m.Keys, k, Values(m));
      assert m'.Keys == m.Keys - {k};
    } else {
      assert m' == m;
    }
  }

  lemma {:induction false} SumUnion<K(!new)>(a: set<K>, b: set<K>, f: K -> int)
    requires a !! b
    ensures Sum(a + b, f) == Sum(a, f) + Sum(b, f)
    decreases |a|
  {
    if a == {} {
      assert a + b == b;
    } else {
      var x :| x in a;
      SumUnion(a - {x}, b, f);
      SumRemove(a, x, f);
      SumRemove(a + b, x, f);
      assert a + b - {x} == a - {x} + b;
    }
  }

  lemma {:induction false} SumZero<K(!new)>(s: set<K>, f: K -> int)
    requires forall k :: k in s ==> f(k) == 0
    ensures Sum(s, f) == 0
    decreases |s|
  {
    if s != {} {
      var x :| x in s;
      SumZero(s - {x}, f);
      SumRemove(s, x, f);
    }
  }

  /** A superset of a map's keys adds only zeros. */
  lemma SumSuperset<K(!new)>(s: set<K>, m: map<K, int>)
    requires m.Keys <= s
    ensures Sum(s, Values(m)) == SumMap(m)
  {
    SumUnion(m.Keys, s - m.Keys, Values(m));
    assert s == m.Keys + (s - m.Keys);
    SumZero(s - m.Keys, Values(m));
  }

  lemma SumPartition<K(!new)>(s: set<K>, part: set<K>, f: K -> int)
    ensures Sum(s, f) == Sum(s * part, f) + Sum(s - part, f)
  {
    SumUnion(s * part, s - part, f);
    assert s == s * part + (s - part);
  }

  lemma Distribute(a: int, b: int, c: int)
    ensures (a + b) * c == a * c + b * c && c * (a + b) == c * a + c * b
  {
  }

  /** Multiplication by a positive number keeps and reflects the order. */
  lemma MulOrder(t: int, a: int, b: int)
    requires t > 0
    ensures a <= b <==> t * a <= t * b
  {
    assert t * (b - a) == t * b - t * a;
  }
}

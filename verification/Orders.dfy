/**
 Orders used by the system: Go's byte-wise string order, stable sorting by a
 `less` callback, and ranks within a finite set.
 */
module Orders {

  // ---------- ranks ----------

  ghost predicate StrictTotal<K(!new)>(s: set<K>, less: (K, K) -> bool) {
    && (forall a :: a in s ==> !less(a, a))
    && (forall a, b, c :: a in s && b in s && c in s && less(a, b) && less(b, c) ==> less(a, c))
    && (forall a, b :: a in s && b in s && a != b ==> less(a, b) || less(b, a))
  }

  /** The members of `s` that come before `k`. */
  ghost function Below<K(!new)>(s: set<K>, less: (K, K) -> bool, k: K): set<K> {
    set j | j in s && less(j, k)
  }

  /** The members whose rank is less than `n`. */
  ghost function FirstN<K(!new)>(s: set<K>, less: (K, K) -> bool, n: int): set<K> {
    set k | k in s && |Below(s, less, k)| < n
  }

  lemma SubsetSize<K>(a: set<K>, b: set<K>)
    requires a <= b
    ensures |a| <= |b|
    ensures a != b ==> |a| < |b|
  {
    assert b == a + (b - a);
  }

  lemma BelowSize<K(!new)>(s: set<K>, less: (K, K) -> bool, k: K)
    requires StrictTotal(s, less) && k in s
    ensures |Below(s, less, k)| < |s|
  {
    SubsetSize(Below(s, less, k), s - {k});
  }

  /** A finite non-empty strict total order has a greatest element. */
  lemma {:induction false} Greatest<K(!new)>(s: set<K>, less: (K, K) -> bool) returns (m: K)
    requires s != {} && StrictTotal(s, less)
    ensures m in s && forall k :: k in s && k != m ==> less(k, m)
    decreases |s|
  {
    m :| m in s;
    var rest := s - {m};
    if rest != {} {
      var m' := Greatest(rest, less);
      if less(m, m') {
        m := m';
      }
    }
  }

  /** Exactly `n` members have rank below `n`: ranks are 0, 1, .., |s| - 1, once each. */
  lemma {:induction false} FirstNSize<K(!new)>(s: set<K>, less: (K, K) -> bool, n: nat)
    requires StrictTotal(s, less) && n <= |s|
    ensures |FirstN(s, less, n)| == n
    decreases |s|
  {
    if n == |s| {
      forall k | k in s ensures |Below(s, less, k)| < n { BelowSize(s, less, k); }
      assert FirstN(s, less, n) == s;
    } else {
      var m := Greatest(s, less);
      var rest := s - {m};
      FirstNSize(rest, less, n);
      assert Below(s, less, m) == rest;
      forall k | k in rest ensures Below(s, less, k) == Below(rest, less, k) {
        assert !less(m, k);
      }
      assert FirstN(s, less, n) == FirstN(rest, less, n);
    }
  }

  /** The member of rank `r`. */
  lemma AtRank<K(!new)>(s: set<K>, less: (K, K) -> bool, r: nat) returns (k: K)
    requires StrictTotal(s, less) && r < |s|
    ensures k in s && |Below(s, less, k)| == r
  {
    FirstNSize(s, less, r);
    FirstNSize(s, less, r + 1);
    if FirstN(s, less, r + 1) <= FirstN(s, less, r) {
      SubsetSize(FirstN(s, less, r + 1), FirstN(s, less, r));
    }
    k :| k in FirstN(s, less, r + 1) && k !in FirstN(s, less, r);
  }

  /** Coming earlier means having a smaller rank. */
  lemma BelowMonotone<K(!new)>(s: set<K>, less: (K, K) -> bool, a: K, b: K)
    requires StrictTotal(s, less) && a in s && b in s && less(a, b)
    ensures |Below(s, less, a)| < |Below(s, less, b)|
  {
    assert a in Below(s, less, b) && a !in Below(s, less, a);
    SubsetSize(Below(s, less, a), Below(s, less, b));
  }

  ghost function Elements<K>(list: seq<K>): set<K> {
    set k | k in list
  }

  lemma {:induction false} ElementsSize<K>(list: seq<K>)
    requires forall i, j :: 0 <= i < j < |list| ==> list[i] != list[j]
    ensures |Elements(list)| == |list|
  {
    if list != [] {
      var init, last := list[..|list| - 1], list[|list| - 1];
      ElementsSize(init);
      assert list == init + [last];
      assert Elements(list) == Elements(init) + {last};
    }
  }

  /** `k` holds rank `i`, counting from zero. */
  ghost predicate RankedAt<K(!new)>(s: set<K>, less: (K, K) -> bool, i: int, k: K) {
    && k in s && k !in FirstN(s, less, i)
    && FirstN(s, less, i + 1) == FirstN(s, less, i) + {k}
  }

  lemma RankIsUnique<K(!new)>(s: set<K>, less: (K, K) -> bool, i: int, k: K)
    requires StrictTotal(s, less) && k in s && |Below(s, less, k)| == i
    ensures RankedAt(s, less, i, k)
  {
    forall j | j in s && j != k ensures |Below(s, less, j)| != i {
      if less(j, k) {
        BelowMonotone(s, less, j, k);
      } else {
        BelowMonotone(s, less, k, j);
      }
    }
  }

  /** In a list of a finite set in strict order, positions are ranks. */
  lemma RanksFollowPositions<K(!new)>(s: set<K>, less: (K, K) -> bool, list: seq<K>)
    requires StrictTotal(s, less) && Elements(list) == s
    requires Ordered(list, less)
    ensures |list| == |s|
    ensures forall i :: 0 <= i < |list| ==> RankedAt(s, less, i, list[i])
  {
    ElementsSize(list);
    forall i | 0 <= i < |list| ensures RankedAt(s, less, i, list[i]) {
      ElementsSize(list[..i]);
      BelowPosition(s, less, list, i);
      RankIsUnique(s, less, i, list[i]);
    }
  }

  lemma BelowPosition<K(!new)>(s: set<K>, less: (K, K) -> bool, list: seq<K>, i: nat)
    requires StrictTotal(s, less) && Elements(list) == s
    requires Ordered(list, less) && i < |list|
    ensures Below(s, less, list[i]) == Elements(list[..i])
  {
    forall j | 0 <= j < |list| ensures less(list[j], list[i]) <==> j < i {
      assert list[j] in s && list[i] in s;
    }
    forall k | k in Below(s, less, list[i]) ensures k in list[..i] {
      var j :| 0 <= j < |list| && list[j] == k;
      assert list[..i][j] == k;
    }
    forall k | k in list[..i] ensures k in Below(s, less, list[i]) {
      var j :| 0 <= j < i && list[j] == k;
      assert k in Elements(list);
    }
  }

  // ---------- strings ----------

  /** Go's `<` on strings. */
  predicate StringLess(a: string, b: string) {
    if b == "" then false
    else if a == "" then true
    else a[0] < b[0] || (a[0] == b[0] && StringLess(a[1..], b[1..]))
  }

  lemma {:induction false} StringLessTrichotomy(a: string, b: string)
    ensures a == b ==> !StringLess(a, b)
    ensures a != b ==> StringLess(a, b) != StringLess(b, a)
  {
    if a != "" && b != "" {
      StringLessTrichotomy(a[1..], b[1..]);
      assert a == [a[0]] + a[1..] && b == [b[0]] + b[1..];
    }
  }

  lemma {:induction false} StringLessTransitive(a: string, b: string, c: string)
    requires StringLess(a, b) && StringLess(b, c)
    ensures StringLess(a, c)
  {
    if a != "" && a[0] == b[0] && b[0] == c[0] {
      StringLessTransitive(a[1..], b[1..], c[1..]);
    }
  }

  /** The order is the dictionary's: the first difference decides, and a proper prefix comes first. */
  lemma {:induction false} StringLessIff(a: string, b: string)
    ensures StringLess(a, b) <==>
      exists i :: 0 <= i <= |a| && i < |b| && a[..i] == b[..i] && (i == |a| || a[i] < b[i])
  {
    if StringLess(a, b) {
      var i := FirstDifference(a, b);
      assert a[..i] == b[..i];
    } else {
      forall i | 0 <= i <= |a| && i < |b| && a[..i] == b[..i] && (i == |a| || a[i] < b[i]) ensures false {
        DifferenceDecides(a, b, i);
      }
    }
  }

  lemma {:induction false} FirstDifference(a: string, b: string) returns (i: nat)
    requires StringLess(a, b)
    ensures i <= |a| && i < |b| && a[..i] == b[..i] && (i == |a| || a[i] < b[i])
  {
    i := 0;
    if a != "" && a[0] == b[0] {
      var j := FirstDifference(a[1..], b[1..]);
      i := j + 1;
      assert a[..i] == [a[0]] + a[1..][..j] && b[..i] == [b[0]] + b[1..][..j];
    }
  }

  lemma {:induction false} DifferenceDecides(a: string, b: string, i: nat)
    requires i <= |a| && i < |b| && a[..i] == b[..i] && (i == |a| || a[i] < b[i])
    ensures StringLess(a, b)
  {
    if i > 0 {
      assert a[0] == a[..i][0] && b[0] == b[..i][0];
      assert a[1..][..i - 1] == a[..i][1..] && b[1..][..i - 1] == b[..i][1..];
      DifferenceDecides(a[1..], b[1..], i - 1);
    }
  }

  // ---------- sort.Slice / sort.SliceStable ----------

  /** Where a stable sort puts `e`, which came after everything in `s`. */
  function Insert<T>(s: seq<T>, e: T, less: (T, T) -> bool): seq<T> {
    if s == [] then [e]
    else if less(e, s[|s| - 1]) then Insert(s[..|s| - 1], e, less) + [s[|s| - 1]]
    else s + [e]
  }

  function SortBy<T>(s: seq<T>, less: (T, T) -> bool): seq<T> {
    if s == [] then [] else Insert(SortBy(s[..|s| - 1], less), s[|s| - 1], less)
  }

  lemma {:induction false} InsertContents<T>(s: seq<T>, e: T, less: (T, T) -> bool)
    ensures multiset(Insert(s, e, less)) == multiset(s) + multiset{e}
  {
    if s != [] && less(e, s[|s| - 1]) {
      InsertContents(s[..|s| - 1], e, less);
      assert s == s[..|s| - 1] + [s[|s| - 1]];
    }
  }

  /** Sorting permutes. */
  lemma {:induction false} SortContents<T>(s: seq<T>, less: (T, T) -> bool)
    ensures multiset(SortBy(s, less)) == multiset(s)
    ensures |SortBy(s, less)| == |s|
  {
    if s != [] {
      SortContents(s[..|s| - 1], less);
      InsertContents(SortBy(s[..|s| - 1], less), s[|s| - 1], less);
      assert s == s[..|s| - 1] + [s[|s| - 1]];
    }
    assert |multiset(SortBy(s, less))| == |SortBy(s, less)| && |multiset(s)| == |s|;
  }

  ghost predicate Ordered<T(!new)>(s: seq<T>, rel: (T, T) -> bool) {
    forall i, j :: 0 <= i < j < |s| ==> rel(s[i], s[j])
  }

  ghost predicate Transitive<T(!new)>(rel: (T, T) -> bool) {
    forall a, b, c :: rel(a, b) && rel(b, c) ==> rel(a, c)
  }

  lemma {:induction false} InsertOrdered<T(!new)>(s: seq<T>, e: T, less: (T, T) -> bool, rel: (T, T) -> bool)
    requires Ordered(s, rel) && Transitive(rel)
    requires forall a, b :: less(a, b) ==> rel(a, b)
    requires forall x :: x in s && !less(e, x) ==> rel(x, e)
    ensures Ordered(Insert(s, e, less), rel)
  {
    if s != [] {
      var last := s[|s| - 1];
      if less(e, last) {
        InsertOrdered(s[..|s| - 1], e, less, rel);
        InsertContents(s[..|s| - 1], e, less);
        var r := Insert(s[..|s| - 1], e, less);
        forall i | 0 <= i < |r| ensures rel(r[i], last) {
          assert r[i] in multiset(r);
        }
      } else {
        assert last in s;
      }
    }
  }

  /**
   A stable sort by `less` orders its result by every transitive refinement `rel`
   of `less` that agrees with the input order on elements `less` does not separate.
   */
  lemma {:induction false} SortOrdered<T(!new)>(s: seq<T>, less: (T, T) -> bool, rel: (T, T) -> bool)
    requires Transitive(rel)
    requires forall a, b :: less(a, b) ==> rel(a, b)
    requires forall i, j :: 0 <= i < j < |s| && !less(s[j], s[i]) ==> rel(s[i], s[j])
    ensures Ordered(SortBy(s, less), rel)
  {
    if s != [] {
      var init, e := s[..|s| - 1], s[|s| - 1];
      SortOrdered(init, less, rel);
      SortContents(init, less);
      var r := SortBy(init, less);
      forall x | x in r && !less(e, x) ensures rel(x, e) {
        assert x in multiset(r) && x in multiset(init);
      }
      InsertOrdered(r, e, less, rel);
    }
  }
}

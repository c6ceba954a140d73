/** Order statistics of lists of reals: what a rank, a median and a percentile say about the values. */
module Ranks {
  import opened Common
  import opened Lists
  import opened Cardinality
  import opened Sorting

  predicate Leq(a: real, b: real) { a <= b }

  lemma RealOrder()
    ensures IsTotalOrder(Leq)
  {
  }

  /** `sorted` */
  function Sorted(xs: seq<real>): (r: seq<real>)
    ensures |r| == |xs| && multiset(r) == multiset(xs)
  {
    SortMembers(xs, Leq);
    Sort(xs, Leq)
  }

  lemma SortedAscends(xs: seq<real>)
    ensures Ordered(Sorted(xs), Leq)
  {
    RealOrder();
    SortOrdered(xs, Leq);
  }

  lemma SortedPermutes(xs: seq<real>, ys: seq<real>)
    requires multiset(xs) == multiset(ys)
    ensures Sorted(xs) == Sorted(ys)
  {
    RealOrder();
    SortPermutes(xs, ys, Leq);
  }

  lemma SortedAlready(xs: seq<real>)
    requires Ordered(xs, Leq)
    ensures Sorted(xs) == xs
  {
    RealOrder();
    SortedAscends(xs);
    OrderedUnique(Sorted(xs), xs, Leq);
  }

  lemma SortedPositive(xs: seq<real>)
    requires forall i :: 0 <= i < |xs| ==> xs[i] > 0.0
    ensures forall i :: 0 <= i < |xs| ==> Sorted(xs)[i] > 0.0
  {
    SortMembers(xs, Leq);
    forall i | 0 <= i < |xs| ensures Sorted(xs)[i] > 0.0 {
      assert Sorted(xs)[i] in xs;
    }
  }

  // ------------------------------------------------------------------
  // How many values have a property
  // ------------------------------------------------------------------

  /** The positions where `p` holds. */
  ghost function Where(xs: seq<real>, p: real -> bool): (s: set<nat>) { set i: nat | i < |xs| && p(xs[i]) }

  function KeepIf(p: real -> bool): (f: real -> Option<real>) { (x: real) => if p(x) then Some(x) else None }

  lemma {:induction false} WhereSize(xs: seq<real>, p: real -> bool)
    ensures |Where(xs, p)| == |FilterMap(xs, KeepIf(p))|
    decreases |xs|
  {
    if xs == [] {
      assert Where(xs, p) == {};
    } else {
      var n := |xs| - 1;
      var (past, x) := (xs[..n], xs[n]);
      assert xs == past + [x];
      WhereSize(past, p);
      FilterMapAppend(past, [x], KeepIf(p));
      FilterMapOne(x, KeepIf(p));
      assert Where(xs, p) == Where(past, p) + if p(x) then {n} else {};
    }
  }

  lemma WherePermutes(xs: seq<real>, ys: seq<real>, p: real -> bool)
    requires multiset(xs) == multiset(ys)
    ensures |Where(xs, p)| == |Where(ys, p)|
  {
    var (s, t) := (FilterMap(xs, KeepIf(p)), FilterMap(ys, KeepIf(p)));
    FilterMapPermutes(xs, ys, KeepIf(p));
    assert |s| == |multiset(s)| == |multiset(t)| == |t|;
    WhereSize(xs, p);
    WhereSize(ys, p);
  }

  ghost function AtMost(xs: seq<real>, m: real): (s: set<nat>) { Where(xs, x => x <= m) }

  ghost function AtLeast(xs: seq<real>, m: real): (s: set<nat>) { Where(xs, x => x >= m) }

  lemma PrefixAtMost(s: seq<real>, k: nat, m: real)
    requires Ordered(s, Leq) && 0 < k <= |s| && s[k - 1] <= m
    ensures |AtMost(s, m)| >= k
  {
    forall i | i in Below(k) ensures i in AtMost(s, m) {
      assert i < k - 1 ==> Leq(s[i], s[k - 1]);
    }
    SubsetSize(Below(k), AtMost(s, m));
  }

  lemma SuffixAtLeast(s: seq<real>, k: nat, m: real)
    requires Ordered(s, Leq) && k < |s| && s[k] >= m
    ensures |AtLeast(s, m)| >= |s| - k
  {
    forall i | i in Below(|s|) - Below(k) ensures i in AtLeast(s, m) {
      assert i > k ==> Leq(s[k], s[i]);
    }
    SubsetSize(Below(|s|) - Below(k), AtLeast(s, m));
    RangeSize(k, |s|);
  }

  lemma RangeSize(k: nat, n: nat)
    requires k <= n
    ensures |Below(n) - Below(k)| == n - k
  {
    var upper := Below(n) - Below(k);
    assert Below(n) == upper + Below(k);
    assert |upper + Below(k)| == |upper| + |Below(k)|;
  }

  /** A bound of the sorted prefix or suffix bounds as many values of the list itself. */
  lemma BoundsMany(xs: seq<real>, k: nat, m: real)
    requires k <= |xs|
    ensures k > 0 && Sorted(xs)[k - 1] <= m ==> |AtMost(xs, m)| >= k
    ensures k < |xs| && Sorted(xs)[k] >= m ==> |AtLeast(xs, m)| >= |xs| - k
  {
    var s := Sorted(xs);
    SortedAscends(xs);
    if k > 0 && s[k - 1] <= m {
      PrefixAtMost(s, k, m);
    }
    if k < |xs| && s[k] >= m {
      SuffixAtLeast(s, k, m);
    }
    WherePermutes(xs, s, x => x <= m);
    WherePermutes(xs, s, x => x >= m);
  }

  /** Rank `k`: at least k + 1 values do not exceed it and at least n - k reach it. */
  lemma RankSplits(xs: seq<real>, k: nat)
    requires k < |xs|
    ensures |AtMost(xs, Sorted(xs)[k])| >= k + 1
    ensures |AtLeast(xs, Sorted(xs)[k])| >= |xs| - k
  {
    BoundsMany(xs, k + 1, Sorted(xs)[k]);
    BoundsMany(xs, k, Sorted(xs)[k]);
  }

  // ------------------------------------------------------------------
  // Comparing ranks of two lists
  // ------------------------------------------------------------------

  ghost predicate Positions(s: set<nat>, n: nat) { forall i <- s :: i < n }

  /** A relation that holds all the more for a smaller left and a larger right value. */
  ghost predicate Monotone(rel: (real, real) -> bool) {
    forall x, x', y, y' :: x' <= x && y <= y' && rel(x, y) ==> rel(x', y')
  }

  /** The relation holds between every value at one set of positions and every value at the other. */
  ghost predicate Across(rel: (real, real) -> bool, xs: seq<real>, a: set<nat>, ys: seq<real>, b: set<nat>) {
    && Positions(a, |xs|) && Positions(b, |ys|)
    && forall i, j :: i in a && j in b ==> rel(xs[i], ys[j])
  }

  /** It holds between at least `p` values of one list and at least `q` of the other. */
  ghost predicate AcrossMany(rel: (real, real) -> bool, xs: seq<real>, p: int, ys: seq<real>, q: int) {
    exists a: set<nat>, b: set<nat> :: Across(rel, xs, a, ys, b) && |a| >= p && |b| >= q
  }

  lemma Meet(a: set<nat>, b: set<nat>, n: nat) returns (i: nat)
    requires Positions(a, n) && Positions(b, n) && |a| + |b| > n
    ensures i in a && i in b
  {
    if a !! b {
      assert |a + b| == |a| + |b|;
      SubsetSize(a + b, Below(n));
    }
    i :| i in a && i in b;
  }

  lemma RanksThenMany(rel: (real, real) -> bool, xs: seq<real>, p: nat, ys: seq<real>, q: nat)
    requires Monotone(rel) && p < |xs| && q < |ys| && rel(Sorted(xs)[p], Sorted(ys)[q])
    ensures AcrossMany(rel, xs, p + 1, ys, |ys| - q)
  {
    var (x, y) := (Sorted(xs)[p], Sorted(ys)[q]);
    RankSplits(xs, p);
    RankSplits(ys, q);
    assert Across(rel, xs, AtMost(xs, x), ys, AtLeast(ys, y));
  }

  lemma ManyThenRanks(rel: (real, real) -> bool, xs: seq<real>, p: nat, ys: seq<real>, q: nat)
    requires Monotone(rel) && p < |xs| && q < |ys|
    requires AcrossMany(rel, xs, p + 1, ys, |ys| - q)
    ensures rel(Sorted(xs)[p], Sorted(ys)[q])
  {
    var (x, y) := (Sorted(xs)[p], Sorted(ys)[q]);
    var a, b :| Across(rel, xs, a, ys, b) && |a| >= p + 1 && |b| >= |ys| - q;
    RankSplits(xs, p);
    RankSplits(ys, q);
    var i := Meet(a, AtLeast(xs, x), |xs|);
    var j := Meet(b, AtMost(ys, y), |ys|);
    assert rel(xs[i], ys[j]);
  }

  /** Comparing two ranks is exactly comparing that many values of one list with that many of the other. */
  lemma RanksCompare(rel: (real, real) -> bool, xs: seq<real>, p: nat, ys: seq<real>, q: nat)
    requires Monotone(rel) && p < |xs| && q < |ys|
    ensures rel(Sorted(xs)[p], Sorted(ys)[q]) <==> AcrossMany(rel, xs, p + 1, ys, |ys| - q)
  {
    if AcrossMany(rel, xs, p + 1, ys, |ys| - q) {
      ManyThenRanks(rel, xs, p, ys, q);
    } else if rel(Sorted(xs)[p], Sorted(ys)[q]) {
      RanksThenMany(rel, xs, p, ys, q);
    }
  }

  // ------------------------------------------------------------------
  // The median
  // ------------------------------------------------------------------

  /** The upper and the lower of the middle values; the same one when their number is odd. */
  function UpperMiddle(xs: seq<real>): (m: real)
    requires xs != []
  {
    Sorted(xs)[|xs| / 2]
  }

  function LowerMiddle(xs: seq<real>): (m: real)
    requires xs != []
  {
    Sorted(xs)[(|xs| - 1) / 2]
  }

  /** Middle value, or the mean of the two middle ones. */
  function Median(xs: seq<real>): (m: real)
    requires xs != []
  {
    var (s, n) := (Sorted(xs), |xs|);
    if n % 2 == 1 then s[n / 2] else (s[n / 2 - 1] + s[n / 2]) / 2.0
  }

  lemma MedianBetween(xs: seq<real>)
    requires xs != []
    ensures LowerMiddle(xs) <= Median(xs) <= UpperMiddle(xs)
    ensures |xs| % 2 == 1 ==> LowerMiddle(xs) == Median(xs) == UpperMiddle(xs)
  {
    var (s, n) := (Sorted(xs), |xs|);
    SortedAscends(xs);
    if n % 2 == 0 {
      assert Leq(s[n / 2 - 1], s[n / 2]);
      assert (n - 1) / 2 == n / 2 - 1;
    }
  }

  /** At least half of the values reach the median and at least half do not exceed it. */
  lemma MedianHalves(xs: seq<real>)
    requires xs != []
    ensures 2 * |AtLeast(xs, Median(xs))| >= |xs| && 2 * |AtMost(xs, Median(xs))| >= |xs|
    ensures |xs| % 2 == 1 ==> 2 * |AtLeast(xs, Median(xs))| > |xs| && 2 * |AtMost(xs, Median(xs))| > |xs|
  {
    MedianBetween(xs);
    BoundsMany(xs, (|xs| + 1) / 2, Median(xs));
    BoundsMany(xs, |xs| / 2, Median(xs));
  }

  lemma MedianPermutes(xs: seq<real>, ys: seq<real>)
    requires xs != [] && multiset(xs) == multiset(ys)
    ensures ys != [] && Median(xs) == Median(ys)
  {
    assert |ys| == |multiset(ys)| == |multiset(xs)| == |xs|;
    SortedPermutes(xs, ys);
  }
}

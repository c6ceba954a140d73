/** What the gates of the comparison mean for the measured values. */
module CompareMeaning {
  import opened Json
  import opened Lists
  import opened Ranks
  import opened Compare
  import Sorting

  // ------------------------------------------------------------------
  // Exact repeats
  // ------------------------------------------------------------------

  /** Each of 0 to n - 1 is there exactly once, and nothing else is. */
  ghost predicate EachOnce(seen: seq<Json>, n: int) {
    forall j: Json :: multiset(seen)[j] == if j.Int? && 0 <= j.n < n then 1 else 0
  }

  lemma {:induction false} RangeCounts(n: nat, k: int)
    ensures multiset(Range(n))[k] == if 0 <= k < n then 1 else 0
  {
    if n > 0 {
      RangeCounts(n - 1, k);
      assert Range(n) == Range(n - 1) + [n - 1];
    }
  }

  lemma {:induction false} IntCounts(js: seq<Json>, k: int)
    requires AllInts(js)
    ensures multiset(js)[Int(k)] == multiset(Ints(js))[k]
    decreases |js|
  {
    if js != [] {
      var n := |js| - 1;
      IntCounts(js[..n], k);
      assert js == js[..n] + [js[n]];
      assert Ints(js) == Ints(js[..n]) + [js[n].n];
    }
  }

  lemma IntOrder()
    ensures Sorting.IsTotalOrder(IntLeq)
  {
  }

  lemma SortedRange(ints: seq<int>, n: nat)
    ensures Sorting.Sort(ints, IntLeq) == Range(n) <==> multiset(ints) == multiset(Range(n))
  {
    IntOrder();
    if multiset(ints) == multiset(Range(n)) {
      Sorting.SortOrdered(ints, IntLeq);
      assert Sorting.Ordered(Range(n), IntLeq);
      Sorting.OrderedUnique(Sorting.Sort(ints, IntLeq), Range(n), IntLeq);
    }
  }

  lemma Twice<T>(s: seq<T>, i: nat, j: nat)
    requires i < j < |s| && s[i] == s[j]
    ensures multiset(s)[s[i]] >= 2
  {
    var (a, b) := (s[..j], s[j..]);
    assert s == a + b;
    assert a[i] == s[i] && b[0] == s[i];
    assert s[i] in multiset(a) && s[i] in multiset(b);
  }

  lemma {:induction false} DistinctMeansOnce<T>(s: seq<T>, x: T)
    requires NoRepeats(s)
    ensures multiset(s)[x] <= 1
  {
    if s != [] {
      assert s == [s[0]] + s[1..];
      DistinctMeansOnce(s[1..], x);
      if s[0] == x {
        assert x !in s[1..];
      }
    }
  }

  lemma OnceMeansDistinct<T>(s: seq<T>)
    requires forall x :: multiset(s)[x] <= 1
    ensures NoRepeats(s)
  {
    forall i, j | 0 <= i < j < |s| ensures s[i] != s[j] {
      if s[i] == s[j] {
        Twice(s, i, j);
      }
    }
  }

  lemma EachOnceInts(seen: seq<Json>, n: nat)
    requires EachOnce(seen, n)
    ensures AllInts(seen) && NoRepeats(seen) && multiset(Ints(seen)) == multiset(Range(n))
  {
    forall i | 0 <= i < |seen| ensures seen[i].Int? {
      assert seen[i] in multiset(seen);
    }
    OnceMeansDistinct(seen);
    forall k: int ensures multiset(Ints(seen))[k] == multiset(Range(n))[k] {
      IntCounts(seen, k);
      RangeCounts(n, k);
    }
  }

  /** The tests on the repeat identities pass exactly when each expected repeat is there once. */
  lemma RepeatsExactly(seen: seq<Json>, n: nat)
    ensures RepeatsOk(seen, n) <==> EachOnce(seen, n)
  {
    if RepeatsOk(seen, n) {
      SortedRange(Ints(seen), n);
      forall j: Json ensures multiset(seen)[j] == if j.Int? && 0 <= j.n < n then 1 else 0 {
        if j.Int? {
          IntCounts(seen, j.n);
          RangeCounts(n, j.n);
        } else {
          assert j !in seen;
        }
      }
    }
    if EachOnce(seen, n) {
      EachOnceInts(seen, n);
      SortedRange(Ints(seen), n);
      assert |Ints(seen)| == |multiset(Ints(seen))| == |multiset(Range(n))| == n;
    }
  }

  // ------------------------------------------------------------------
  // Prose rates
  // ------------------------------------------------------------------

  /** The candidate rate is at least 1.05 times the baseline rate. */
  predicate Ahead(base: real, cand: real) { 1.05 * base <= cand }

  lemma AheadMonotone()
    ensures Monotone(Ahead)
  {
  }

  /** More than half of the candidate rates are each ahead of each of more than half of the baseline rates. */
  ghost predicate MajorityAhead(base: seq<real>, cand: seq<real>) {
    exists b: set<nat>, c: set<nat> ::
      Across(Ahead, base, b, cand, c) && 2 * |b| > |base| && 2 * |c| > |cand|
  }

  /** The same with at least half on either side. */
  ghost predicate HalfAhead(base: seq<real>, cand: seq<real>) {
    exists b: set<nat>, c: set<nat> ::
      Across(Ahead, base, b, cand, c) && 2 * |b| >= |base| && 2 * |c| >= |cand|
  }

  lemma GainExactly(b: real, c: real)
    requires b > 0.0
    ensures Gain(b, c) >= THRESHOLD <==> Ahead(b, c)
  {
    var g := Gain(b, c);
    assert c - b == g * b;
    if g >= 0.05 {
      assert g * b >= 0.05 * b;
    } else {
      assert g * b < 0.05 * b;
    }
  }

  /** A majority is ahead of a majority exactly when the lower middle is ahead of the upper middle. */
  lemma MajorityExactly(base: seq<real>, cand: seq<real>)
    requires base != [] && cand != []
    ensures MajorityAhead(base, cand) <==> Ahead(UpperMiddle(base), LowerMiddle(cand))
  {
    var (p, q) := (|base| / 2, (|cand| - 1) / 2);
    AheadMonotone();
    RanksCompare(Ahead, base, p, cand, q);
    if MajorityAhead(base, cand) {
      var b, c :| Across(Ahead, base, b, cand, c) && 2 * |b| > |base| && 2 * |c| > |cand|;
      assert |b| >= p + 1 && |c| >= |cand| - q;
    }
    if AcrossMany(Ahead, base, p + 1, cand, |cand| - q) {
      var b, c :| Across(Ahead, base, b, cand, c) && |b| >= p + 1 && |c| >= |cand| - q;
      assert 2 * |b| > |base| && 2 * |c| > |cand|;
    }
  }

  /** With odd numbers of rates the gate is open exactly when a majority is ahead of a majority. */
  lemma OddGateExactly(base: seq<real>, cand: seq<real>)
    requires |base| % 2 == 1 && |cand| % 2 == 1 && Median(base) > 0.0
    ensures RatesGain(base, cand) <==> MajorityAhead(base, cand)
  {
    MajorityExactly(base, cand);
    MedianBetween(base);
    MedianBetween(cand);
    GainExactly(Median(base), Median(cand));
  }

  /** With any numbers a majority opens the gate, and an open gate has at least half ahead of half. */
  lemma GateBetween(base: seq<real>, cand: seq<real>)
    requires base != [] && cand != [] && Median(base) > 0.0
    ensures MajorityAhead(base, cand) ==> RatesGain(base, cand)
    ensures RatesGain(base, cand) ==> HalfAhead(base, cand)
  {
    var (mb, mc) := (Median(base), Median(cand));
    GainExactly(mb, mc);
    MajorityExactly(base, cand);
    MedianBetween(base);
    MedianBetween(cand);
    if RatesGain(base, cand) {
      MedianHalves(base);
      MedianHalves(cand);
      assert Across(Ahead, base, AtMost(base, mb), cand, AtLeast(cand, mc));
    }
  }

  /** `half` slow rates and `half` fast ones. */
  function TwoSpeeds(half: nat, slow: real, fast: real): (r: seq<real>)
    ensures |r| == 2 * half
  {
    seq(2 * half, i requires 0 <= i => if i < half then slow else fast)
  }

  lemma TwoSpeedsMiddle(half: nat, slow: real, fast: real)
    requires half > 0 && slow <= fast
    ensures
      var r := TwoSpeeds(half, slow, fast);
      Median(r) == (slow + fast) / 2.0 && LowerMiddle(r) == slow && UpperMiddle(r) == fast
  {
    SortedAlready(TwoSpeeds(half, slow, fast));
  }

  /** For every even number of repeats there are rates that open the gate without a majority ahead. */
  lemma EvenGateFails(half: nat)
    requires half > 0
    ensures
      var (base, cand) := (TwoSpeeds(half, 1.0, 3.0), TwoSpeeds(half, 1.2, 3.2));
      RatesGain(base, cand) && !MajorityAhead(base, cand)
  {
    var (base, cand) := (TwoSpeeds(half, 1.0, 3.0), TwoSpeeds(half, 1.2, 3.2));
    TwoSpeedsMiddle(half, 1.0, 3.0);
    TwoSpeedsMiddle(half, 1.2, 3.2);
    GainExactly(2.0, 2.2);
    MajorityExactly(base, cand);
  }

  /** Four repeats: medians 2.0 and 2.2, a gain of 10%, and no majority ahead of a majority. */
  lemma FourRatesFail()
    ensures
      var (base, cand) := ([1.0, 1.0, 3.0, 3.0], [1.2, 1.2, 3.2, 3.2]);
      RatesGain(base, cand) && !MajorityAhead(base, cand)
  {
    assert TwoSpeeds(2, 1.0, 3.0) == [1.0, 1.0, 3.0, 3.0];
    assert TwoSpeeds(2, 1.2, 3.2) == [1.2, 1.2, 3.2, 3.2];
    EvenGateFails(2);
  }

  ghost predicate OpenMeansMajority(base: seq<real>, cand: seq<real>)
    requires base != [] && cand != []
  {
    RatesGain(base, cand) ==> MajorityAhead(base, cand)
  }

  /** An open gate means a majority, whatever the rates, exactly when the number of repeats is odd. */
  lemma MajorityNeedsOdd(repeats: nat)
    requires repeats > 0
    ensures repeats % 2 == 1 <==>
            forall base, cand :: |base| == repeats && |cand| == repeats ==> OpenMeansMajority(base, cand)
  {
    if repeats % 2 == 1 {
      forall base, cand | |base| == repeats && |cand| == repeats ensures OpenMeansMajority(base, cand) {
        if RatesGain(base, cand) {
          OddGateExactly(base, cand);
        }
      }
    } else {
      var half := repeats / 2;
      EvenGateFails(half);
      assert !OpenMeansMajority(TwoSpeeds(half, 1.0, 3.0), TwoSpeeds(half, 1.2, 3.2));
    }
  }

  // ------------------------------------------------------------------
  // First-token times
  // ------------------------------------------------------------------

  /** At least 95% of the values, less half a value, do not exceed the percentile; over 5% reach it. */
  lemma P95Splits(xs: seq<real>)
    requires xs != []
    ensures
      var n := |xs|;
      && |AtMost(xs, P95(xs))| >= Rank95(n) + 1 && 20 * (Rank95(n) + 1) >= 19 * n - 9
      && |AtLeast(xs, P95(xs))| >= n - Rank95(n) && 20 * (n - Rank95(n)) >= n + 9
  {
    RankSplits(xs, Rank95(|xs|));
    RankIsNear(|xs|);
  }

  lemma RankIsNear(n: nat)
    requires n > 0
    ensures 20 * (Rank95(n) + 1) >= 19 * n - 9 && 20 * (n - Rank95(n)) >= n + 9
  {
    var x := 0.95 * (n - 1) as real;
    var k := RoundHalfEven(x);
    assert (k as real) - 0.5 <= x <= (k as real) + 0.5;
    assert 20.0 * x == 19.0 * (n - 1) as real;
  }

  /** The candidate time is at most 1.05 times the baseline time. */
  predicate KeepsPace(cand: real, base: real) { cand <= 1.05 * base }

  /** As many candidate times as the percentile covers hold against all baseline times that reach it. */
  ghost predicate TimesHold(base: seq<real>, cand: seq<real>)
    requires base != [] && cand != []
  {
    AcrossMany(KeepsPace, cand, Rank95(|cand|) + 1, base, |base| - Rank95(|base|))
  }

  lemma RegressionExactly(b: real, c: real)
    requires b > 0.0
    ensures Gain(b, c) <= THRESHOLD <==> KeepsPace(c, b)
  {
    var g := Gain(b, c);
    assert c - b == g * b;
    if g <= 0.05 {
      assert g * b <= 0.05 * b;
    } else {
      assert g * b > 0.05 * b;
    }
  }

  function Ttfts(rows: seq<Json>): (r: seq<real>)
    requires SideOk(rows)
    ensures |r| == |rows|
  {
    FilterMapAll(rows, TtftOf);
    FilterMap(rows, TtftOf)
  }

  lemma TtftsPositive(rows: seq<Json>)
    requires SideOk(rows)
    ensures SideP95(rows) == P95(Ttfts(rows)) && SideP95(rows) > 0.0
  {
    FilterMapAll(rows, TtftOf);
    SortedPositive(Ttfts(rows));
  }

  /** The same inputs on both sides: case, repeat and input hash, each pair once. */
  ghost predicate Paired(base: seq<Json>, cand: seq<Json>) {
    multiset(FilterMap(base, IdentityOf)) == multiset(FilterMap(cand, IdentityOf))
  }

  lemma KeysThenNoRepeats(ids: seq<Identity>)
    requires KeysDistinct(ids)
    ensures NoRepeats(ids)
  {
  }

  lemma OccursOnce<T>(s: seq<T>, x: T)
    requires NoRepeats(s)
    ensures multiset(s)[x] == if x in s then 1 else 0
  {
    DistinctMeansOnce(s, x);
    assert x in s <==> x in multiset(s);
  }

  lemma SetsToMultisets(a: seq<Identity>, b: seq<Identity>)
    requires NoRepeats(a) && NoRepeats(b)
    ensures (set x | x in a) == (set x | x in b) <==> multiset(a) == multiset(b)
  {
    var (s, t) := (set x | x in a, set x | x in b);
    forall x: Identity ensures x in s <==> multiset(a)[x] == 1 {
      OccursOnce(a, x);
    }
    forall x: Identity ensures x in t <==> multiset(b)[x] == 1 {
      OccursOnce(b, x);
    }
    if s == t {
      forall x: Identity ensures multiset(a)[x] == multiset(b)[x] {
        OccursOnce(a, x);
        OccursOnce(b, x);
        assert x in s <==> x in t;
      }
    }
  }

  /** The vision gate: paired inputs, and the candidate's first-token times hold against the baseline's. */
  lemma VisionGateExactly(base: seq<Json>, cand: seq<Json>)
    ensures VisionGate(base, cand) <==>
            SideOk(base) && SideOk(cand) && Paired(base, cand) && TimesHold(Ttfts(base), Ttfts(cand))
  {
    if SideOk(base) && SideOk(cand) {
      var (a, b) := (FilterMap(base, IdentityOf), FilterMap(cand, IdentityOf));
      KeysThenNoRepeats(a);
      KeysThenNoRepeats(b);
      SetsToMultisets(a, b);
      TimesExactly(base, cand);
    }
  }

  lemma TimesExactly(base: seq<Json>, cand: seq<Json>)
    requires SideOk(base) && SideOk(cand)
    ensures SideP95(base) > 0.0
    ensures Gain(SideP95(base), SideP95(cand)) <= THRESHOLD <==> TimesHold(Ttfts(base), Ttfts(cand))
  {
    var (b, c) := (Ttfts(base), Ttfts(cand));
    TtftsPositive(base);
    TtftsPositive(cand);
    RegressionExactly(P95(b), P95(c));
    assert Monotone(KeepsPace);
    RanksCompare(KeepsPace, c, Rank95(|c|), b, Rank95(|b|));
  }
}

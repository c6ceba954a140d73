/** The verdict of the comparison depends neither on the order of rows nor on warmup rows. */
module CompareOrder {
  import opened Common
  import opened Json
  import opened Lists
  import opened Ranks
  import opened Compare
  import opened CompareMeaning

  /** The same rows in any order, up to rows that `keep` drops. */
  ghost predicate Same(a: seq<Json>, b: seq<Json>, keep: Json -> Option<Json>) {
    multiset(FilterMap(a, keep)) == multiset(FilterMap(b, keep))
  }

  lemma PermutedSame(a: seq<Json>, b: seq<Json>, keep: Json -> Option<Json>)
    requires multiset(a) == multiset(b)
    ensures Same(a, b, keep)
  {
    FilterMapPermutes(a, b, keep);
  }

  lemma AddedSame(a: seq<Json>, row: Json, b: seq<Json>, keep: Json -> Option<Json>)
    requires keep(row).None?
    ensures Same(a + b, a + ([row] + b), keep)
  {
    FilterMapMiddle(a, row, b, keep);
  }

  lemma MembersSame<A>(a: seq<A>, b: seq<A>)
    requires multiset(a) == multiset(b)
    ensures |a| == |b|
    ensures forall x :: x in a <==> x in b
  {
    assert |a| == |multiset(a)| && |b| == |multiset(b)|;
    forall x ensures x in a <==> x in b {
      assert (x in a <==> x in multiset(a)) && (x in b <==> x in multiset(b));
    }
  }

  lemma AllSomeSame<B>(a: seq<Json>, b: seq<Json>, f: Json -> Option<B>)
    requires multiset(a) == multiset(b)
    ensures AllSome(a, f) == AllSome(b, f)
  {
    MembersSame(a, b);
    assert AllSome(a, f) == (forall x <- a :: f(x).Some?);
    assert AllSome(b, f) == (forall x <- b :: f(x).Some?);
  }

  /** The rows are good when those that are kept are measured. */
  lemma GoodKept(rows: seq<Json>)
    ensures GoodProse(rows) <==> AllSome(FilterMap(rows, NotWarm), MeasureProse)
  {
    var kept := FilterMap(rows, NotWarm);
    if GoodProse(rows) {
      FilterMapAllOutputs(rows, NotWarm, row => MeasureProse(row).Some?);
    } else {
      var i :| 0 <= i < |rows| && !ProseRowOk(rows[i]);
      FilterMapMembers(rows, NotWarm, rows[i]);
      assert NotWarm(rows[i]) == Some(rows[i]);
      assert rows[i] in kept;
    }
  }

  lemma MeasuredSame(a: seq<Json>, b: seq<Json>)
    requires Same(a, b, NotWarm)
    ensures GoodProse(a) == GoodProse(b)
    ensures multiset(MeasuredRows(a)) == multiset(MeasuredRows(b))
  {
    var (s, t) := (FilterMap(a, NotWarm), FilterMap(b, NotWarm));
    GoodKept(a);
    GoodKept(b);
    AllSomeSame(s, t, MeasureProse);
    FilterMapTwice(a, NotWarm, MeasureProse, MeasureKept);
    FilterMapTwice(b, NotWarm, MeasureProse, MeasureKept);
    FilterMapPermutes(s, t, MeasureProse);
  }

  lemma CountsSame(a: seq<Measured>, b: seq<Measured>, repeats: int)
    requires multiset(a) == multiset(b)
    ensures CountsOk(a, repeats) ==> CountsOk(b, repeats)
  {
    if CountsOk(a, repeats) {
      MembersSame(a, b);
      forall i | 0 <= i < |b| ensures CaseOk(b[i]) {
        assert b[i] in a;
      }
      forall c <- CASES ensures CaseCountsOk(b, c, repeats) {
        assert CaseCountsOk(a, c, repeats);
        FilterMapPermutes(a, b, RateIf(c));
        MembersSame(Rates(a, c), Rates(b, c));
        RepeatsSame(a, b, c, repeats);
      }
    }
  }

  lemma RepeatsSame(a: seq<Measured>, b: seq<Measured>, c: string, n: int)
    requires multiset(a) == multiset(b) && RepeatsOk(FilterMap(a, RepeatIf(c)), n)
    ensures RepeatsOk(FilterMap(b, RepeatIf(c)), n)
  {
    FilterMapPermutes(a, b, RepeatIf(c));
    RepeatsExactly(FilterMap(a, RepeatIf(c)), n);
    RepeatsExactly(FilterMap(b, RepeatIf(c)), n);
  }

  lemma ProseGateSame(a: seq<Measured>, b: seq<Measured>, c: seq<Measured>, d: seq<Measured>, repeats: int)
    requires multiset(a) == multiset(c) && multiset(b) == multiset(d)
    ensures ProseGate(a, b, repeats) ==> ProseGate(c, d, repeats)
  {
    CountsSame(a, c, repeats);
    CountsSame(b, d, repeats);
    if ProseGate(a, b, repeats) {
      forall k <- CASES ensures CaseGains(c, d, k) {
        assert CaseGains(a, b, k);
        FilterMapPermutes(a, c, RateIf(k));
        FilterMapPermutes(b, d, RateIf(k));
        MedianPermutes(Rates(a, k), Rates(c, k));
        MedianPermutes(Rates(b, k), Rates(d, k));
      }
    }
  }

  lemma KeysSame(a: seq<Identity>, b: seq<Identity>)
    requires multiset(a) == multiset(b) && KeysDistinct(a)
    ensures KeysDistinct(b)
  {
    MembersSame(a, b);
    KeysThenNoRepeats(a);
    forall x: Identity ensures multiset(a)[x] <= 1 {
      DistinctMeansOnce(a, x);
    }
    OnceMeansDistinct(b);
    forall i, j | 0 <= i < j < |b| ensures !(b[i].caseName == b[j].caseName && b[i].repeatId == b[j].repeatId) {
      assert b[i] in a && b[j] in a && b[i] != b[j];
    }
  }

  lemma SideSame(a: seq<Json>, b: seq<Json>)
    requires multiset(a) == multiset(b) && SideOk(a)
    ensures SideOk(b)
  {
    MembersSame(a, b);
    AllSomeSame(a, b, TtftOf);
    AllSomeSame(a, b, IdentityOf);
    FilterMapPermutes(a, b, IdentityOf);
    KeysSame(FilterMap(a, IdentityOf), FilterMap(b, IdentityOf));
  }

  lemma P95Same(xs: seq<real>, ys: seq<real>)
    requires xs != [] && multiset(xs) == multiset(ys)
    ensures ys != [] && P95(xs) == P95(ys)
  {
    MembersSame(xs, ys);
    SortedPermutes(xs, ys);
  }

  lemma TtftsSame(a: seq<Json>, b: seq<Json>)
    requires multiset(a) == multiset(b) && SideOk(a)
    ensures SideOk(b) && SideP95(a) == SideP95(b)
  {
    SideSame(a, b);
    FilterMapAll(a, TtftOf);
    FilterMapPermutes(a, b, TtftOf);
    P95Same(FilterMap(a, TtftOf), FilterMap(b, TtftOf));
  }

  lemma VisionGateSame(a: seq<Json>, b: seq<Json>, c: seq<Json>, d: seq<Json>)
    requires multiset(a) == multiset(c) && multiset(b) == multiset(d) && VisionGate(a, b)
    ensures VisionGate(c, d)
  {
    IdentitiesSame(a, c);
    IdentitiesSame(b, d);
    TtftsSame(a, c);
    TtftsSame(b, d);
  }

  lemma IdentitiesSame(a: seq<Json>, b: seq<Json>)
    requires multiset(a) == multiset(b)
    ensures Identities(a) == Identities(b)
  {
    FilterMapPermutes(a, b, IdentityOf);
    MembersSame(FilterMap(a, IdentityOf), FilterMap(b, IdentityOf));
  }

  lemma BoundSame(a: seq<Json>, b: seq<Json>, cases: set<Json>, bound: Json -> bool)
    requires Same(a, b, NotMarked) && Bound(a, cases, bound)
    ensures Bound(b, cases, bound)
  {
    var (s, t) := (FilterMap(a, NotMarked), FilterMap(b, NotMarked));
    MembersSame(s, t);
    FilterMapPermutes(s, t, CaseOf);
    MembersSame(FilterMap(s, CaseOf), FilterMap(t, CaseOf));
    forall i | 0 <= i < |t| ensures bound(t[i]) {
      assert t[i] in s;
    }
  }

  lemma MetricSame(a: seq<Json>, b: seq<Json>, metric: string)
    requires multiset(a) == multiset(b)
    ensures MetricMedian(a, metric) == MetricMedian(b, metric)
  {
    var f := MetricOf(metric);
    MembersSame(a, b);
    AllSomeSame(a, b, f);
    if a != [] && AllSome(a, f) {
      FilterMapAll(a, f);
      FilterMapPermutes(a, b, f);
      MedianPermutes(FilterMap(a, f), FilterMap(b, f));
    }
  }

  /** Warmup rows marked true are among those the vision gate leaves out. */
  lemma {:induction false} SelectedFromUnmarked(rows: seq<Json>)
    ensures FilterMap(rows, Selected) == FilterMap(FilterMap(rows, NotMarked), Selected)
  {
    if rows != [] {
      SelectedFromUnmarked(rows[1..]);
      var (head, rest) := (NotMarked(rows[0]), FilterMap(rows[1..], NotMarked));
      if head.Some? {
        assert ([rows[0]] + rest)[1..] == rest;
        assert FilterMap(rows, NotMarked) == [rows[0]] + rest;
      } else {
        assert FilterMap(rows, NotMarked) == rest;
      }
    }
  }

  lemma SelectedSame(a: seq<Json>, b: seq<Json>)
    requires Same(a, b, NotMarked)
    ensures multiset(FilterMap(a, Selected)) == multiset(FilterMap(b, Selected))
  {
    SelectedFromUnmarked(a);
    SelectedFromUnmarked(b);
    FilterMapPermutes(FilterMap(a, NotMarked), FilterMap(b, NotMarked), Selected);
  }

  /** Two sides alike but for the order of rows and for warmup rows. */
  ghost predicate SideAlike(a: Side, b: Side) {
    && Same(a.prose, b.prose, NotWarm)
    && a.vision.Some? == b.vision.Some?
    && (a.vision.Some? ==> Same(a.vision.value, b.vision.value, NotMarked))
    && b == a.(prose := b.prose, vision := b.vision)
  }

  lemma EvidenceSame(a: Side, b: Side, ma: seq<Measured>, mb: seq<Measured>)
    requires SideAlike(a, b) && multiset(ma) == multiset(mb) && Evidence(a, ma)
    ensures Evidence(b, mb)
  {
    FilterMapPermutes(ma, mb, RowOf);
    FilterMapPermutes(FilterMap(ma, RowOf), FilterMap(mb, RowOf), NotMarked);
    BoundSame(FilterMap(ma, RowOf), FilterMap(mb, RowOf), a.proseCases, a.proseBound);
    BoundSame(a.vision.value, b.vision.value, a.visionCases, a.visionBound);
  }

  lemma AlikeSymmetric(a: Side, b: Side)
    requires SideAlike(a, b)
    ensures SideAlike(b, a)
  {
  }

  lemma SelectedAlike(a: Side, b: Side)
    requires SideAlike(a, b)
    ensures multiset(SelectedRows(a.vision)) == multiset(SelectedRows(b.vision))
  {
    if a.vision.Some? {
      SelectedSame(a.vision.value, b.vision.value);
    }
  }

  lemma VisionStepSame(a: Side, b: Side, c: Side, d: Side)
    requires SideAlike(a, c) && SideAlike(b, d)
    ensures VisionStep(a.vision, b.vision) == VisionStep(c.vision, d.vision)
  {
    SelectedAlike(a, c);
    SelectedAlike(b, d);
    var (sa, sb) := (SelectedRows(a.vision), SelectedRows(b.vision));
    var (sc, sd) := (SelectedRows(c.vision), SelectedRows(d.vision));
    if VisionGate(sa, sb) {
      VisionGateSame(sa, sb, sc, sd);
    } else if VisionGate(sc, sd) {
      VisionGateSame(sc, sd, sa, sb);
    }
  }

  lemma MetricsSame(a: Side, b: Side, c: Side, d: Side, metric: string)
    requires SideAlike(a, c) && SideAlike(b, d)
    ensures MetricMedian(SelectedRows(a.vision), metric) == MetricMedian(SelectedRows(c.vision), metric)
    ensures MetricMedian(SelectedRows(b.vision), metric) == MetricMedian(SelectedRows(d.vision), metric)
  {
    SelectedAlike(a, c);
    SelectedAlike(b, d);
    MetricSame(SelectedRows(a.vision), SelectedRows(c.vision), metric);
    MetricSame(SelectedRows(b.vision), SelectedRows(d.vision), metric);
  }

  lemma GatesSame(x: Inputs, y: Inputs, a: seq<Measured>, b: seq<Measured>, c: seq<Measured>, d: seq<Measured>)
    requires SideAlike(x.base, y.base) && SideAlike(x.cand, y.cand)
    requires multiset(a) == multiset(c) && multiset(b) == multiset(d)
    ensures ProseGate(a, b, x.repeats) == ProseGate(c, d, x.repeats)
    ensures (Evidence(x.base, a) && Evidence(x.cand, b)) == (Evidence(y.base, c) && Evidence(y.cand, d))
  {
    ProseGateSame(a, b, c, d, x.repeats);
    ProseGateSame(c, d, a, b, x.repeats);
    EvidenceBoth(x.base, y.base, a, c);
    EvidenceBoth(x.cand, y.cand, b, d);
  }

  lemma GatesOfSame(x: Inputs, y: Inputs, a: seq<Measured>, b: seq<Measured>, c: seq<Measured>, d: seq<Measured>)
    requires SideAlike(x.base, y.base) && SideAlike(x.cand, y.cand)
    requires y == x.(base := y.base, cand := y.cand)
    requires multiset(a) == multiset(c) && multiset(b) == multiset(d)
    ensures GatesOf(x, a, b) == GatesOf(y, c, d)
  {
    GatesSame(x, y, a, b, c, d);
    VisionStepSame(x.base, x.cand, y.base, y.cand);
    MetricsSame(x.base, x.cand, y.base, y.cand, x.metric);
  }

  lemma EvidenceBoth(a: Side, b: Side, ma: seq<Measured>, mb: seq<Measured>)
    requires SideAlike(a, b) && multiset(ma) == multiset(mb)
    ensures Evidence(a, ma) == Evidence(b, mb)
  {
    AlikeSymmetric(a, b);
    if Evidence(a, ma) {
      EvidenceSame(a, b, ma, mb);
    } else if Evidence(b, mb) {
      EvidenceSame(b, a, mb, ma);
    }
  }

  /** Sides alike but for order and warmup rows have the same verdict. */
  lemma VerdictIgnoresOrder(x: Inputs, y: Inputs)
    requires SideAlike(x.base, y.base) && SideAlike(x.cand, y.cand)
    requires y == x.(base := y.base, cand := y.cand)
    ensures Verdict(x) == Verdict(y)
  {
    var (a, b) := (MeasuredRows(x.base.prose), MeasuredRows(x.cand.prose));
    var (c, d) := (MeasuredRows(y.base.prose), MeasuredRows(y.cand.prose));
    MeasuredSame(x.base.prose, y.base.prose);
    MeasuredSame(x.cand.prose, y.cand.prose);
    GatesOfSame(x, y, a, b, c, d);
  }

  /** The rows in another order, or one row more that `keep` drops. */
  ghost predicate Rearranged(a: seq<Json>, b: seq<Json>, keep: Json -> Option<Json>) {
    || multiset(a) == multiset(b)
    || exists s: seq<Json>, row: Json, t: seq<Json> :: Inserted(a, b, s, row, t) && keep(row).None?
  }

  predicate Inserted(a: seq<Json>, b: seq<Json>, s: seq<Json>, row: Json, t: seq<Json>) {
    a == s + t && b == s + ([row] + t)
  }

  lemma RearrangedSame(a: seq<Json>, b: seq<Json>, keep: Json -> Option<Json>)
    requires Rearranged(a, b, keep)
    ensures Same(a, b, keep)
  {
    if multiset(a) == multiset(b) {
      PermutedSame(a, b, keep);
    } else {
      var s, row, t :| Inserted(a, b, s, row, t) && keep(row).None?;
      AddedSame(s, row, t, keep);
    }
  }

  /** Each list of rows permuted, or with one warmup row inserted anywhere. */
  ghost predicate SideRearranged(a: Side, b: Side) {
    && Rearranged(a.prose, b.prose, NotWarm)
    && a.vision.Some? == b.vision.Some?
    && (a.vision.Some? ==> Rearranged(a.vision.value, b.vision.value, NotMarked))
    && b == a.(prose := b.prose, vision := b.vision)
  }

  /** Permuting prose or vision rows, or inserting a warmup row among them, leaves the verdict as it is. */
  lemma VerdictIgnoresRearranging(x: Inputs, y: Inputs)
    requires SideRearranged(x.base, y.base) && SideRearranged(x.cand, y.cand)
    requires y == x.(base := y.base, cand := y.cand)
    ensures Verdict(x) == Verdict(y)
  {
    RearrangedAlike(x.base, y.base);
    RearrangedAlike(x.cand, y.cand);
    VerdictIgnoresOrder(x, y);
  }

  lemma RearrangedAlike(a: Side, b: Side)
    requires SideRearranged(a, b)
    ensures SideAlike(a, b)
  {
    RearrangedSame(a.prose, b.prose, NotWarm);
    if a.vision.Some? {
      RearrangedSame(a.vision.value, b.vision.value, NotMarked);
    }
  }
}

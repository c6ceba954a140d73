/** What PASS says about the rows that went into the comparison. */
module ComparePass {
  import opened Common
  import opened Json
  import opened Lists
  import opened Ranks
  import opened Compare
  import opened CompareMeaning

  // ------------------------------------------------------------------
  // Prose rows
  // ------------------------------------------------------------------

  /** What a row is worth once measured. */
  function Worth<B>(g: Measured -> Option<B>): (f: Json -> Option<B>) {
    (row: Json) => if MeasureKept(row).Some? then g(MeasureKept(row).value) else None
  }

  lemma WorthAt<B>(row: Json, g: Measured -> Option<B>)
    ensures Worth(g)(row) == if MeasureKept(row).Some? then g(MeasureKept(row).value) else None
  {
  }

  lemma MeasuredWorth<B>(rows: seq<Json>, g: Measured -> Option<B>)
    ensures FilterMap(MeasuredRows(rows), g) == FilterMap(rows, Worth(g))
  {
    FilterMapTwice(rows, MeasureKept, g, Worth(g));
  }

  /** End-to-end rates of one case, and the repeats they are for. */
  function CaseRates(rows: seq<Json>, c: string): (r: seq<real>) { FilterMap(rows, Worth(RateIf(c))) }

  function CaseRepeats(rows: seq<Json>, c: string): (r: seq<Json>) { FilterMap(rows, Worth(RepeatIf(c))) }

  predicate KnownCase(row: Json) {
    ProseWarmup(row) || (row.Obj? && Get(row, "case").Str? && Get(row, "case").s in CASES)
  }

  /** Good rows of the three cases, and for each case every repeat exactly once. */
  ghost predicate ProseComplete(rows: seq<Json>, repeats: int) {
    && GoodProse(rows)
    && (forall i :: 0 <= i < |rows| ==> KnownCase(rows[i]))
    && forall c <- CASES :: EachOnce(CaseRepeats(rows, c), repeats)
  }

  lemma {:induction false} SameLength(rows: seq<Measured>, c: string)
    ensures |FilterMap(rows, RateIf(c))| == |FilterMap(rows, RepeatIf(c))|
  {
    if rows != [] {
      SameLength(rows[1..], c);
    }
  }

  lemma EachOnceSize(seen: seq<Json>, n: nat)
    requires EachOnce(seen, n)
    ensures |seen| == n
  {
    EachOnceInts(seen, n);
    assert |Ints(seen)| == |multiset(Ints(seen))| == |multiset(Range(n))| == n;
  }

  lemma CaseKnown(row: Json)
    requires ProseRowOk(row)
    ensures KnownCase(row) <==> MeasureKept(row).None? || CaseOk(MeasureKept(row).value)
  {
  }

  lemma CasesKnown(rows: seq<Json>)
    requires GoodProse(rows)
    ensures (forall i :: 0 <= i < |rows| ==> KnownCase(rows[i])) <==>
            forall i :: 0 <= i < |MeasuredRows(rows)| ==> CaseOk(MeasuredRows(rows)[i])
  {
    var ms := MeasuredRows(rows);
    forall row <- rows ensures KnownCase(row) <==> MeasureKept(row).None? || CaseOk(MeasureKept(row).value) {
      CaseKnown(row);
    }
    if forall i :: 0 <= i < |rows| ==> KnownCase(rows[i]) {
      FilterMapAllOutputs(rows, MeasureKept, CaseOk);
    } else {
      var i :| 0 <= i < |rows| && !KnownCase(rows[i]);
      var m := MeasureKept(rows[i]).value;
      FilterMapMembers(rows, MeasureKept, m);
      assert m in ms;
    }
  }

  /** The count checks pass exactly on complete rows. */
  lemma CountsExactly(rows: seq<Json>, repeats: int)
    requires GoodProse(rows)
    ensures CountsOk(MeasuredRows(rows), repeats) <==> repeats > 0 && ProseComplete(rows, repeats)
  {
    CasesKnown(rows);
    var ms := MeasuredRows(rows);
    forall c <- CASES
      ensures CaseCountsOk(ms, c, repeats) <==> repeats > 0 && EachOnce(CaseRepeats(rows, c), repeats)
    {
      CaseCountsExactly(rows, c, repeats);
    }
    assert "city_heat_water" in CASES;
  }

  lemma CaseCountsExactly(rows: seq<Json>, c: string, repeats: int)
    ensures
      CaseCountsOk(MeasuredRows(rows), c, repeats) <==> repeats > 0 && EachOnce(CaseRepeats(rows, c), repeats)
  {
    MeasuredWorth(rows, RepeatIf(c));
    SameLength(MeasuredRows(rows), c);
    if repeats >= 0 {
      RepeatsExactly(CaseRepeats(rows, c), repeats);
      if EachOnce(CaseRepeats(rows, c), repeats) {
        EachOnceSize(CaseRepeats(rows, c), repeats);
      }
    }
  }

  lemma RatesOfComplete(rows: seq<Json>, c: string, repeats: nat)
    requires ProseComplete(rows, repeats) && c in CASES
    ensures |CaseRates(rows, c)| == repeats
  {
    MeasuredWorth(rows, RateIf(c));
    MeasuredWorth(rows, RepeatIf(c));
    SameLength(MeasuredRows(rows), c);
    EachOnceSize(CaseRepeats(rows, c), repeats);
  }

  lemma RatesPositive(rows: seq<Json>, c: string)
    requires CaseRates(rows, c) != []
    ensures Median(CaseRates(rows, c)) > 0.0
  {
    var f := Worth(RateIf(c));
    forall row <- rows ensures f(row).Some? ==> f(row).value > 0.0 {
      WorthAt(row, RateIf(c));
    }
    FilterMapAllOutputs(rows, f, x => x > 0.0);
    SortedPositive(CaseRates(rows, c));
  }

  // ------------------------------------------------------------------
  // PASS, said of the rows
  // ------------------------------------------------------------------

  /** An upstream lane with both medians, the candidate's at least 5% higher. */
  predicate LaneGains(l: Lane) { l.Medians? && l.base != 0.0 && Gain(l.base, l.cand) >= THRESHOLD }

  /** A vision lever must reduce the median of its metric by 5%. */
  predicate LeverGains(visionLever: bool, metric: string, base: seq<Json>, cand: seq<Json>) {
    visionLever ==>
      var (b, c) := (MetricMedian(base, metric), MetricMedian(cand, metric));
      && (metric == "wall_s" || metric == "ttft_s")
      && b.Some? && c.Some? && b.value != 0.0 && (b.value - c.value) / b.value >= THRESHOLD
  }

  /** Every lane's rows are bound to the manifest, and it freezes 43 vision cases. */
  predicate EvidenceBound(side: Side)
    requires side.vision.Some?
  {
    && Bound(FilterMap(side.prose, NotWarm), side.proseCases, side.proseBound)
    && side.upstreamBound
    && Bound(side.vision.value, side.visionCases, side.visionBound) && |side.visionCases| == 43
  }

  ghost predicate ProsePasses(base: seq<Json>, cand: seq<Json>, repeats: int) {
    && repeats > 0
    && ProseComplete(base, repeats) && ProseComplete(cand, repeats)
    && forall c <- CASES :: CaseAhead(base, cand, c)
  }

  /** The candidate's median rate is at least 1.05 times the baseline's. */
  ghost predicate CaseAhead(base: seq<Json>, cand: seq<Json>, c: string) {
    var (b, d) := (CaseRates(base, c), CaseRates(cand, c));
    b != [] && d != [] && Ahead(Median(b), Median(d))
  }

  ghost predicate VisionPasses(base: seq<Json>, cand: seq<Json>) {
    SideOk(base) && SideOk(cand) && Paired(base, cand) && TimesHold(Ttfts(base), Ttfts(cand))
  }

  ghost predicate VisionLanePasses(x: Inputs) {
    && x.base.vision.Some? && x.cand.vision.Some?
    && VisionPasses(SelectedRows(x.base.vision), SelectedRows(x.cand.vision))
    && LeverGains(x.visionLever, x.metric, SelectedRows(x.base.vision), SelectedRows(x.cand.vision))
    && EvidenceBound(x.base) && EvidenceBound(x.cand)
  }

  ghost predicate RowsPass(x: Inputs) {
    && x.parity
    && ProsePasses(x.base.prose, x.cand.prose, x.repeats)
    && LaneGains(x.short) && LaneGains(x.medium)
    && VisionLanePasses(x)
  }

  lemma RowKept(row: Json)
    requires ProseRowOk(row)
    ensures Worth(RowOf)(row) == NotWarm(row)
  {
    WorthAt(row, RowOf);
  }

  lemma {:induction false} RowsOfMeasured(rows: seq<Json>, f: Json -> Option<Json>, g: Json -> Option<Json>)
    requires forall row <- rows :: f(row) == g(row)
    ensures FilterMap(rows, f) == FilterMap(rows, g)
  {
    if rows != [] {
      RowsOfMeasured(rows[1..], f, g);
    }
  }

  lemma EvidenceExactly(side: Side)
    requires GoodProse(side.prose) && side.vision.Some?
    ensures Evidence(side, MeasuredRows(side.prose)) <==> EvidenceBound(side)
  {
    MeasuredWorth(side.prose, RowOf);
    forall row <- side.prose ensures Worth(RowOf)(row) == NotWarm(row) {
      RowKept(row);
    }
    RowsOfMeasured(side.prose, Worth(RowOf), NotWarm);
  }

  lemma CaseGateExactly(base: seq<Json>, cand: seq<Json>, c: string)
    requires CaseRates(base, c) != [] && CaseRates(cand, c) != []
    ensures Rates(MeasuredRows(base), c) == CaseRates(base, c) && Rates(MeasuredRows(cand), c) == CaseRates(cand, c)
    ensures RatesGain(CaseRates(base, c), CaseRates(cand, c)) <==> CaseAhead(base, cand, c)
  {
    MeasuredWorth(base, RateIf(c));
    MeasuredWorth(cand, RateIf(c));
    RatesPositive(base, c);
    GainExactly(Median(CaseRates(base, c)), Median(CaseRates(cand, c)));
  }

  /** The prose gate opens exactly on complete rows whose medians are ahead. */
  lemma ProseGateExactly(base: seq<Json>, cand: seq<Json>, repeats: int)
    requires GoodProse(base) && GoodProse(cand)
    ensures ProseGate(MeasuredRows(base), MeasuredRows(cand), repeats) <==> ProsePasses(base, cand, repeats)
  {
    CountsExactly(base, repeats);
    CountsExactly(cand, repeats);
    if repeats > 0 && ProseComplete(base, repeats) && ProseComplete(cand, repeats) {
      forall c <- CASES ensures CaseGains(MeasuredRows(base), MeasuredRows(cand), c) <==> CaseAhead(base, cand, c) {
        RatesOfComplete(base, c, repeats);
        RatesOfComplete(cand, c, repeats);
        CaseGateExactly(base, cand, c);
      }
    }
  }

  /** No stage decides, so the last one says PASS. */
  predicate AllOpen(g: Gates) {
    g.prose && g.short.None? && g.medium.None? && g.vision.None? && g.complete && g.lever.None? && g.evidence
  }

  lemma GatesOpen(x: Inputs, a: seq<Measured>, b: seq<Measured>)
    ensures Stages(GatesOf(x, a, b)) == Pass <==> AllOpen(GatesOf(x, a, b))
  {
  }

  lemma LaneExactly(l: Lane)
    ensures ShortStep(l).None? && !l.Absent? <==> LaneGains(l)
    ensures MediumStep(l).None? && !l.Absent? <==> LaneGains(l)
  {
  }

  lemma VisionStepExactly(base: Option<seq<Json>>, cand: Option<seq<Json>>)
    requires base.Some? && cand.Some?
    ensures VisionStep(base, cand).None? <==> VisionPasses(SelectedRows(base), SelectedRows(cand))
  {
    VisionGateExactly(SelectedRows(base), SelectedRows(cand));
  }

  lemma LeverExactly(lever: bool, metric: string, base: seq<Json>, cand: seq<Json>)
    ensures LeverStep(lever, metric, MetricMedian(base, metric), MetricMedian(cand, metric)).None? <==>
            LeverGains(lever, metric, base, cand)
  {
  }

  lemma VisionLaneExactly(x: Inputs)
    requires GoodProse(x.base.prose) && GoodProse(x.cand.prose)
    requires x.base.vision.Some? && x.cand.vision.Some?
    ensures
      var g := GatesOf(x, MeasuredRows(x.base.prose), MeasuredRows(x.cand.prose));
      g.vision.None? && g.lever.None? && g.evidence <==> VisionLanePasses(x)
  {
    VisionStepExactly(x.base.vision, x.cand.vision);
    LeverExactly(x.visionLever, x.metric, SelectedRows(x.base.vision), SelectedRows(x.cand.vision));
    EvidenceExactly(x.base);
    EvidenceExactly(x.cand);
  }

  lemma GatesExactly(x: Inputs)
    requires GoodProse(x.base.prose) && GoodProse(x.cand.prose)
    ensures
      AllOpen(GatesOf(x, MeasuredRows(x.base.prose), MeasuredRows(x.cand.prose))) <==>
        && ProsePasses(x.base.prose, x.cand.prose, x.repeats)
        && LaneGains(x.short) && LaneGains(x.medium)
        && VisionLanePasses(x)
  {
    ProseGateExactly(x.base.prose, x.cand.prose, x.repeats);
    LaneExactly(x.short);
    LaneExactly(x.medium);
    if x.base.vision.Some? && x.cand.vision.Some? {
      VisionLaneExactly(x);
    }
  }

  /** PASS exactly when the rows pass. */
  lemma PassExactly(x: Inputs)
    ensures Verdict(x) == Pass <==> RowsPass(x)
  {
    if GoodProse(x.base.prose) && GoodProse(x.cand.prose) {
      GatesOpen(x, MeasuredRows(x.base.prose), MeasuredRows(x.cand.prose));
      GatesExactly(x);
    }
  }

  /** `compare`: rows that are no good or unlike manifests raise, and PASS is for rows that pass. */
  method CompareRuns(x: Inputs) returns (o: Outcome)
    ensures o == Verdict(x)
    ensures o == Pass <==> RowsPass(x)
    ensures !x.parity || !GoodProse(x.base.prose) || !GoodProse(x.cand.prose) ==> o == Raised
  {
    PassExactly(x);
    if !x.parity {
      return Raised;
    }
    var base := MeasuredProseRows(x.base.prose);
    if base.None? {
      return Raised;
    }
    var cand := MeasuredProseRows(x.cand.prose);
    if cand.None? {
      return Raised;
    }
    o := Stages(GatesOf(x, base.value, cand.value));
  }

  // ------------------------------------------------------------------
  // What PASS guarantees
  // ------------------------------------------------------------------

  /**
   PASS: every prose case has its exact repeats on both sides, and at least half of the candidate
   rates are each at least 1.05 times each of at least half of the baseline rates; a majority of
   each when the number of repeats is odd.
   */
  lemma PassMeansMajority(x: Inputs, c: string)
    requires c in CASES
    ensures Verdict(x) == Pass ==>
              var (base, cand) := (CaseRates(x.base.prose, c), CaseRates(x.cand.prose, c));
              && |base| == x.repeats && |cand| == x.repeats
              && HalfAhead(base, cand)
              && (x.repeats % 2 == 1 ==> MajorityAhead(base, cand))
  {
    PassExactly(x);
    ProseMeansMajority(x.base.prose, x.cand.prose, x.repeats, c);
  }

  lemma ProseMeansMajority(base: seq<Json>, cand: seq<Json>, repeats: int, c: string)
    requires c in CASES
    ensures ProsePasses(base, cand, repeats) ==>
              var (b, d) := (CaseRates(base, c), CaseRates(cand, c));
              && |b| == repeats && |d| == repeats
              && HalfAhead(b, d) && (repeats % 2 == 1 ==> MajorityAhead(b, d))
  {
    if ProsePasses(base, cand, repeats) {
      var (b, d) := (CaseRates(base, c), CaseRates(cand, c));
      RatesOfComplete(base, c, repeats);
      RatesOfComplete(cand, c, repeats);
      assert CaseAhead(base, cand, c);
      RatesPositive(base, c);
      GainExactly(Median(b), Median(d));
      GateBetween(b, d);
      if repeats % 2 == 1 {
        OddGateExactly(b, d);
      }
    }
  }

  /** At least 95% of the candidate times, less half a value, keep pace with over 5% of the baseline's. */
  ghost predicate MostKeepPace(base: seq<real>, cand: seq<real>) {
    exists c: set<nat>, b: set<nat> ::
      Across(KeepsPace, cand, c, base, b) && 20 * |c| >= 19 * |cand| - 9 && 20 * |b| >= |base| + 9
  }

  /**
   PASS: both sides have the same number of first-token times, and at least 95% of the candidate's,
   less half a value, are each at most 1.05 times each of over 5% of the baseline's.
   */
  lemma PassBoundsFirstToken(x: Inputs)
    ensures Verdict(x) == Pass ==>
              var (r, s) := (SelectedRows(x.base.vision), SelectedRows(x.cand.vision));
              SideOk(r) && SideOk(s) && |r| == |s| && MostKeepPace(Ttfts(r), Ttfts(s))
  {
    PassExactly(x);
    if RowsPass(x) {
      VisionBounds(SelectedRows(x.base.vision), SelectedRows(x.cand.vision));
    }
  }

  lemma VisionBounds(base: seq<Json>, cand: seq<Json>)
    requires VisionPasses(base, cand)
    ensures |cand| == |base| && MostKeepPace(Ttfts(base), Ttfts(cand))
  {
    var (b, c) := (Ttfts(base), Ttfts(cand));
    PairedSizes(base, cand);
    RankIsNear(|b|);
    var s, t :| Across(KeepsPace, c, s, b, t) && |s| >= Rank95(|c|) + 1 && |t| >= |b| - Rank95(|b|);
    assert Across(KeepsPace, c, s, b, t) && 20 * |s| >= 19 * |c| - 9 && 20 * |t| >= |b| + 9;
  }

  lemma PairedSizes(a: seq<Json>, b: seq<Json>)
    requires SideOk(a) && SideOk(b) && Paired(a, b)
    ensures |a| == |b|
  {
    var (s, t) := (FilterMap(a, IdentityOf), FilterMap(b, IdentityOf));
    FilterMapAll(a, IdentityOf);
    FilterMapAll(b, IdentityOf);
    assert |s| == |multiset(s)| == |multiset(t)| == |t|;
  }
}

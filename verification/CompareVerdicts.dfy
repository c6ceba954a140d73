/** When the comparison raises and when it just does not PASS, and what its gates ask of single fields. */
module CompareVerdicts {
  import opened Common
  import opened Json
  import opened Lists
  import opened Ranks
  import opened Compare
  import opened CompareFields
  import opened CompareMeaning
  import opened ComparePass

  // ------------------------------------------------------------------
  // The three outcomes
  // ------------------------------------------------------------------

  /** A lane that is there on one side only, or whose baseline median is zero, cannot be compared. */
  predicate LaneBroken(l: Lane) { l.OneSided? || (l.Medians? && l.base == 0.0) }

  /** A lane that lets the comparison go on: there on neither side, or gaining. */
  predicate LaneOpen(l: Lane) { l.Absent? || LaneGains(l) }

  /** A vision lever whose metric is not one of the two, or cannot be read off both sides. */
  predicate LeverBroken(x: Inputs) {
    && x.visionLever
    && var (b, c) := (
      MetricMedian(SelectedRows(x.base.vision), x.metric), MetricMedian(SelectedRows(x.cand.vision), x.metric));
    x.metric !in ["wall_s", "ttft_s"] || b.None? || c.None? || b.value == 0.0
  }

  /** Everything up to the lever is there and passes. */
  ghost predicate LanesPass(x: Inputs) {
    && LaneGains(x.short) && LaneGains(x.medium)
    && x.base.vision.Some? && x.cand.vision.Some?
    && VisionPasses(SelectedRows(x.base.vision), SelectedRows(x.cand.vision))
  }

  /** What makes a comparison of good rows raise: the first lane that neither passes nor fails. */
  ghost predicate LanesRaise(x: Inputs) {
    || LaneBroken(x.short)
    || (LaneOpen(x.short) && (LaneBroken(x.medium) || x.medium.LaneRejected?))
    || (LanesPass(x) && LeverBroken(x))
  }

  lemma ShortSteps(l: Lane)
    ensures ShortStep(l) == Some(Raised) <==> LaneBroken(l)
    ensures ShortStep(l).None? <==> LaneOpen(l)
  {
  }

  lemma MediumSteps(l: Lane)
    ensures MediumStep(l) == Some(Raised) <==> LaneBroken(l) || l.LaneRejected?
    ensures MediumStep(l).None? <==> LaneOpen(l)
  {
  }

  lemma VisionSteps(x: Inputs)
    ensures VisionStep(x.base.vision, x.cand.vision) != Some(Raised)
    ensures x.base.vision.Some? && x.cand.vision.Some? ==>
              (VisionStep(x.base.vision, x.cand.vision).None? <==>
               VisionPasses(SelectedRows(x.base.vision), SelectedRows(x.cand.vision)))
  {
    if x.base.vision.Some? && x.cand.vision.Some? {
      VisionStepExactly(x.base.vision, x.cand.vision);
    }
  }

  lemma LeverSteps(x: Inputs)
    ensures
      var step := LeverStep(
        x.visionLever, x.metric,
        MetricMedian(SelectedRows(x.base.vision), x.metric), MetricMedian(SelectedRows(x.cand.vision), x.metric));
      step == Some(Raised) <==> LeverBroken(x)
  {
  }

  /** Which stage raises. */
  lemma StagesRaise(g: Gates)
    requires g.vision != Some(Raised)
    ensures Stages(g) == Raised <==>
            && g.prose
            && (|| g.short == Some(Raised)
                || (g.short.None? && g.medium == Some(Raised))
                || (g.short.None? && g.medium.None? && g.vision.None? && g.complete && g.lever == Some(Raised)))
  {
  }

  /**
   The comparison raises exactly for unlike manifests, for a bad prose row, and, once the prose gate
   is open, at the first lane that can be neither passed nor failed. In all other cases it decides.
   */
  lemma RaisedExactly(x: Inputs)
    ensures Verdict(x) == Raised <==>
            || !x.parity || !GoodProse(x.base.prose) || !GoodProse(x.cand.prose)
            || (ProsePasses(x.base.prose, x.cand.prose, x.repeats) && LanesRaise(x))
  {
    if x.parity && GoodProse(x.base.prose) && GoodProse(x.cand.prose) {
      ProseGateExactly(x.base.prose, x.cand.prose, x.repeats);
      ShortSteps(x.short);
      MediumSteps(x.medium);
      VisionSteps(x);
      LeverSteps(x);
      StagesRaise(GatesOf(x, MeasuredRows(x.base.prose), MeasuredRows(x.cand.prose)));
    }
  }

  // ------------------------------------------------------------------
  // Single gates
  // ------------------------------------------------------------------

  /** 5% more is 1.05 times as much; 5% less is 0.95 times as much. */
  lemma LaneMeans(base: real, cand: real)
    requires base > 0.0
    ensures LaneGains(Medians(base, cand)) <==> cand >= 1.05 * base
  {
    GainExactly(base, cand);
  }

  lemma LeverMeans(base: real, cand: real)
    requires base > 0.0
    ensures LeverStep(true, "wall_s", Some(base), Some(cand)).None? <==> cand <= 0.95 * base
  {
    var cut := (base - cand) / base;
    assert cut * base == base - cand;
    if cut >= 0.05 {
      assert cut * base >= 0.05 * base;
    } else {
      assert cut * base < 0.05 * base;
    }
  }

  /** The metric of a vision lever is read off every row, as a positive number. */
  lemma MetricMedianIs(rows: seq<Json>, metric: string, xs: seq<real>)
    requires |xs| == |rows| > 0
    requires forall i :: 0 <= i < |rows| ==> rows[i].Obj? && IsNumber(Get(rows[i], metric), xs[i]) && xs[i] > 0.0
    ensures MetricMedian(rows, metric) == Some(Median(xs))
  {
    var f := MetricOf(metric);
    assert forall i :: 0 <= i < |rows| ==> f(rows[i]) == Some(xs[i]);
    FilterMapAll(rows, f);
    assert FilterMap(rows, f) == xs;
  }

  lemma MetricMedianNone(rows: seq<Json>, metric: string, i: nat)
    requires
      || rows == []
      || (i < |rows| && (rows[i].Obj? ==> forall x: real :: IsNumber(Get(rows[i], metric), x) ==> x <= 0.0))
    ensures MetricMedian(rows, metric).None?
  {
    if rows != [] && rows[i].Obj? {
      var j := Get(rows[i], metric);
      if j.Int? {
        assert IsNumber(j, j.n as real);
      } else if j.Float? {
        assert IsNumber(j, j.r);
      }
      assert MetricOf(metric)(rows[i]).None?;
    }
  }

  predicate Nearest(x: real, k: int) {
    -0.5 <= k as real - x <= 0.5 && (k as real - x == 0.5 || x - k as real == 0.5 ==> k % 2 == 0)
  }

  /** The rank of the percentile is the integer nearest to 95% of the last index, the even one of two. */
  lemma RankIs(n: nat, k: nat)
    requires n > 0
    ensures k == Rank95(n) <==> Nearest(0.95 * (n - 1) as real, k)
  {
    var x := 0.95 * (n - 1) as real;
    if Nearest(x, k) {
      NearestIsUnique(x, Rank95(n), k);
    }
  }

  lemma NearestIsUnique(x: real, a: int, b: int)
    requires Nearest(x, a) && Nearest(x, b)
    ensures a == b
  {
    assert -1.0 <= a as real - b as real <= 1.0;
  }

  /** One side of the vision gate: at least two rows, each good and identified, no case and repeat twice. */
  ghost predicate SideInFull(rows: seq<Json>) {
    && |rows| >= 2
    && (forall i :: 0 <= i < |rows| ==> Timed(rows[i]) && Identified(rows[i]))
    && (forall i, j :: 0 <= i < j < |rows| ==> !SameRun(rows[i], rows[j]))
  }

  ghost predicate Timed(row: Json) { exists t: real :: GoodVision(row, t) }

  predicate Identified(row: Json) {
    && row.Obj? && Get(row, "case_id").Str? && Get(row, "repeat").Int?
    && Get(row, "input_sha256").Str? && |Get(row, "input_sha256").s| == 64
  }

  predicate SameRun(a: Json, b: Json) {
    a.Obj? && b.Obj? && Get(a, "case_id") == Get(b, "case_id") && Get(a, "repeat") == Get(b, "repeat")
  }

  lemma TimedExactly(row: Json)
    ensures TtftOf(row).Some? <==> Timed(row)
    ensures IdentityOf(row).Some? <==> Identified(row)
  {
    if TtftOf(row).Some? {
      FirstTokenIs(row, TtftOf(row).value);
    }
    if Timed(row) {
      var t: real :| GoodVision(row, t);
      FirstTokenIs(row, t);
    }
  }

  lemma KeysExactly(rows: seq<Json>)
    requires forall i :: 0 <= i < |rows| ==> Identified(rows[i])
    ensures KeysDistinct(FilterMap(rows, IdentityOf)) <==>
            forall i, j :: 0 <= i < j < |rows| ==> !SameRun(rows[i], rows[j])
  {
    var ids := FilterMap(rows, IdentityOf);
    FilterMapAll(rows, IdentityOf);
    assert forall i, j :: 0 <= i < j < |rows| ==>
        (SameRun(rows[i], rows[j]) <==> ids[i].caseName == ids[j].caseName && ids[i].repeatId == ids[j].repeatId);
  }

  lemma SideExactly(rows: seq<Json>)
    ensures SideOk(rows) <==> SideInFull(rows)
  {
    forall row <- rows
      ensures TtftOf(row).Some? <==> Timed(row)
      ensures IdentityOf(row).Some? <==> Identified(row)
    {
      TimedExactly(row);
    }
    if forall i :: 0 <= i < |rows| ==> Identified(rows[i]) {
      KeysExactly(rows);
    }
  }

  /** Rows are bound to frozen cases: every row not marked true is bound, and their cases are the frozen ones. */
  ghost predicate BoundInFull(rows: seq<Json>, cases: set<Json>, bound: Json -> bool) {
    && cases != {}
    && (forall row <- rows :: Counts(row) ==> bound(row) && (row.Obj? ==> CaseNameOf(row) in cases))
    && (forall c <- cases :: exists row :: row in rows && Counts(row) && row.Obj? && CaseNameOf(row) == c)
  }

  predicate Counts(row: Json) { row.Obj? ==> Get(row, "warmup") != Bool(true) }

  /** The first of these that is there: `case_id`, `case`, and "batch". */
  function CaseNameOf(row: Json): (c: Json)
    requires row.Obj?
  {
    if "case_id" in row.fields then row.fields["case_id"]
    else if "case" in row.fields then row.fields["case"]
    else Str("batch")
  }

  lemma CaseMembers(rows: seq<Json>, c: Json)
    ensures c in FilterMap(FilterMap(rows, NotMarked), CaseOf) <==>
            exists row :: row in rows && Counts(row) && row.Obj? && CaseNameOf(row) == c
  {
    var kept := FilterMap(rows, NotMarked);
    FilterMapMembers(kept, CaseOf, c);
    forall row ensures row in kept <==> row in rows && Counts(row) {
      KeptMembers(rows, row);
    }
    forall row ensures CaseOf(row) == Some(c) <==> row.Obj? && CaseNameOf(row) == c {
      if row.Obj? {
        CaseNamed(row);
      }
    }
  }

  lemma KeptMembers(rows: seq<Json>, row: Json)
    ensures row in FilterMap(rows, NotMarked) <==> row in rows && Counts(row)
  {
    FilterMapMembers(rows, NotMarked, row);
  }

  lemma BoundExactly(rows: seq<Json>, cases: set<Json>, bound: Json -> bool)
    ensures Bound(rows, cases, bound) <==> BoundInFull(rows, cases, bound)
  {
    var kept := FilterMap(rows, NotMarked);
    forall row ensures row in kept <==> row in rows && Counts(row) {
      KeptMembers(rows, row);
    }
    forall c ensures c in FilterMap(kept, CaseOf) <==>
                     exists row :: row in rows && Counts(row) && row.Obj? && CaseNameOf(row) == c
    {
      CaseMembers(rows, c);
    }
    assert (forall i :: 0 <= i < |kept| ==> bound(kept[i])) <==> (forall row <- kept :: bound(row));
  }
}

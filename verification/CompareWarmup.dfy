/** Vision rows whose warmup mark is truthy but not `true`: the gate drops them, the evidence does not. */
module CompareWarmup {
  import opened Common
  import opened Json
  import opened Lists
  import opened Ranks
  import opened Cardinality
  import opened Compare
  import opened CompareMeaning
  import opened ComparePass
  import opened CompareWitness

  /** The vision gate drops the row, and the evidence check still counts it. */
  predicate HalfMarked(row: Json) { Selected(row).None? && NotMarked(row).Some? }

  /** The row's case is among the frozen ones, and the row is bound. */
  predicate CountsFor(side: Side, row: Json) {
    CaseOf(row).Some? && CaseOf(row).value in side.visionCases && side.visionBound(row)
  }

  /** The rows with one more among them. */
  ghost predicate WithRow(a: Side, b: Side, s: seq<Json>, row: Json, t: seq<Json>) {
    a.vision == Some(s + t) && b == a.(vision := Some(s + ([row] + t)))
  }

  /** One more row that counts as evidence leaves the lane bound exactly if its case is frozen and it is bound. */
  lemma BoundWithRow(s: seq<Json>, row: Json, t: seq<Json>, cases: set<Json>, bound: Json -> bool)
    requires NotMarked(row).Some? && row.Obj? && Bound(s + t, cases, bound)
    ensures Bound(s + ([row] + t), cases, bound) <==> CaseOf(row).value in cases && bound(row)
  {
    var (kept, more) := (FilterMap(s + t, NotMarked), FilterMap(s + ([row] + t), NotMarked));
    KeptWithRow(s, row, t);
    CasesWithRow(kept, more, row);
    BoundByMembers(kept, more, row, bound);
  }

  ghost predicate OneMore(kept: seq<Json>, more: seq<Json>, row: Json) {
    forall x :: x in more <==> x in kept || x == row
  }

  lemma KeptWithRow(s: seq<Json>, row: Json, t: seq<Json>)
    requires NotMarked(row).Some?
    ensures OneMore(FilterMap(s + t, NotMarked), FilterMap(s + ([row] + t), NotMarked), row)
  {
    var (kept, more) := (FilterMap(s + t, NotMarked), FilterMap(s + ([row] + t), NotMarked));
    FilterMapMiddle(s, row, t, NotMarked);
    forall x ensures x in more <==> x in kept || x == row {
      assert (x in more <==> x in multiset(more)) && (x in kept <==> x in multiset(kept));
    }
  }

  lemma CasesWithRow(kept: seq<Json>, more: seq<Json>, row: Json)
    requires OneMore(kept, more, row)
    requires CaseOf(row).Some?
    ensures (set x | x in FilterMap(more, CaseOf)) == (set x | x in FilterMap(kept, CaseOf)) + {CaseOf(row).value}
  {
    forall j ensures j in FilterMap(more, CaseOf) <==> j in FilterMap(kept, CaseOf) || CaseOf(row) == Some(j) {
      FilterMapMembers(more, CaseOf, j);
      FilterMapMembers(kept, CaseOf, j);
    }
  }

  lemma BoundByMembers(kept: seq<Json>, more: seq<Json>, row: Json, bound: Json -> bool)
    requires OneMore(kept, more, row)
    requires forall i :: 0 <= i < |kept| ==> bound(kept[i])
    ensures (forall i :: 0 <= i < |more| ==> bound(more[i])) <==> bound(row)
  {
    assert row in more;
    var r :| 0 <= r < |more| && more[r] == row;
    if bound(row) {
      forall i | 0 <= i < |more| ensures bound(more[i]) {
        assert more[i] in more;
      }
    }
  }

  lemma SelectedWithRow(s: seq<Json>, row: Json, t: seq<Json>)
    requires Selected(row).None?
    ensures FilterMap(s + ([row] + t), Selected) == FilterMap(s + t, Selected)
  {
    FilterMapAppend(s, t, Selected);
    FilterMapAppend(s, [row] + t, Selected);
    FilterMapAppend([row], t, Selected);
    FilterMapOne(row, Selected);
  }

  lemma EvidenceWithRow(a: Side, b: Side, s: seq<Json>, row: Json, t: seq<Json>)
    requires WithRow(a, b, s, row, t) && HalfMarked(row) && EvidenceBound(a)
    ensures EvidenceBound(b) <==> CountsFor(a, row)
    ensures SelectedRows(b.vision) == SelectedRows(a.vision)
  {
    BoundWithRow(s, row, t, a.visionCases, a.visionBound);
    SelectedWithRow(s, row, t);
  }

  lemma VisionLaneWithRow(x: Inputs, y: Inputs, s: seq<Json>, row: Json, t: seq<Json>)
    requires HalfMarked(row) && WithRow(x.base, y.base, s, row, t) && y == x.(base := y.base)
    requires VisionLanePasses(x)
    ensures VisionLanePasses(y) <==> CountsFor(x.base, row)
  {
    EvidenceWithRow(x.base, y.base, s, row, t);
  }

  /**
   A vision row whose warmup mark is truthy but not `true`, added to the baseline of a comparison
   that PASSes, leaves PASS exactly when its case is among the frozen ones and it is bound.
   */
  lemma HalfMarkedExactly(x: Inputs, y: Inputs, s: seq<Json>, row: Json, t: seq<Json>)
    requires HalfMarked(row) && WithRow(x.base, y.base, s, row, t) && y == x.(base := y.base)
    ensures Verdict(x) == Pass ==>
              (Verdict(y) == Pass <==> CountsFor(x.base, row))
  {
    PassExactly(x);
    PassExactly(y);
    if RowsPass(x) {
      VisionLaneWithRow(x, y, s, row, t);
    }
  }

  const UnnamedWarmup: Json := Obj(map["warmup" := Int(1)])

  lemma UnnamedIsHalfMarked(n: nat)
    ensures HalfMarked(UnnamedWarmup)
    ensures CaseOf(UnnamedWarmup) == Some(Str("batch")) && Str("batch") !in VisionCases(n)
  {
    KeysDiffer();
    forall i | i in Below(n) ensures CaseAt(i) != Str("batch") {
      if |VisionName(i)| == 5 {
        assert VisionName(i)[0] == 'v' && "batch"[0] == 'b';
      }
    }
  }

  lemma WithFront(side: Side, rows: seq<Json>, row: Json)
    requires side.vision == Some(rows)
    ensures WithRow(side, side.(vision := Some([row] + rows)), [], row, rows)
  {
    assert [] + rows == rows && [] + ([row] + rows) == [row] + rows;
  }

  /** A row that turns PASS away: its warmup mark is 1, and it names no case. */
  lemma HalfMarkedFails(base: seq<Pace>, cand: seq<Pace>, n: nat)
    requires AllGoing(base) && AllGoing(cand) && |base| == |cand| > 0 && n == 43
    requires Ahead(Median(RatesOf(base)), Median(RatesOf(cand)))
    ensures
      var x := Witness(base, cand, n);
      var y := x.(base := x.base.(vision := Some([UnnamedWarmup] + Vision(n))));
      Verdict(x) == Pass && Verdict(y) != Pass
  {
    var x := Witness(base, cand, n);
    var y := x.(base := x.base.(vision := Some([UnnamedWarmup] + Vision(n))));
    WitnessPasses(base, cand, n);
    WithFront(x.base, Vision(n), UnnamedWarmup);
    UnnamedIsHalfMarked(n);
    HalfMarkedExactly(x, y, [], UnnamedWarmup, Vision(n));
  }
}

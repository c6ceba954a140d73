/** Comparisons that pass: any rates whose medians are ahead come with inputs that PASS. */
module CompareWitness {
  import opened Common
  import opened Json
  import opened Lists
  import opened Ranks
  import opened Cardinality
  import opened Compare
  import opened CompareMeaning
  import opened ComparePass

  // ------------------------------------------------------------------
  // Prose rows with given rates
  // ------------------------------------------------------------------

  /** So many tokens in so many seconds. */
  datatype Pace = Pace(tokens: int, wall: real)

  predicate Going(p: Pace) { p.tokens > 0 && p.wall > 0.0 }

  function RateOf(p: Pace): (r: real)
    requires Going(p)
    ensures r > 0.0
  {
    p.tokens as real / p.wall
  }

  function ProseRow(c: string, k: int, p: Pace): (row: Json) {
    Obj(map[
      "case" := Str(c), "repeat" := Int(k), "valid" := Bool(true), "finish_reason" := Str("stop"),
      "usage" := Tokens(p.tokens), "wall_s" := Float(p.wall), "ttft_s" := Float(p.wall),
      "model" := Str(MODEL_ID), "ok" := Bool(true), "raw_events" := Arr([Null])])
  }

  function Tokens(n: int): (u: Json) {
    Obj(map["prompt_tokens" := Int(7), "completion_tokens" := Int(n), "total_tokens" := Int(7 + n)])
  }

  /** String literals that differ, told apart by length or by a character. */
  lemma KeysDiffer()
    ensures |"ok"| == 2 && |"case"| == 4 && |"raw_events"| == 10 && |"finish_reason"| == 13 && |"case_id"| == 7
    ensures |"valid"| == 5 && |"model"| == 5 && |"usage"| == 5 && |"error"| == 5 && |"e2erate"| == 7
    ensures |"repeat"| == 6 && |"wall_s"| == 6 && |"ttft_s"| == 6 && |"warmup"| == 6 && |"input_sha256"| == 12
    ensures "valid"[0] == 'v' && "model"[0] == 'm' && "usage"[0] == 'u' && "error"[0] == 'e'
    ensures "repeat"[0] == 'r' && "wall_s"[2] == 'l' && "ttft_s"[0] == 't' && "warmup"[2] == 'r'
    ensures "wall_s"[0] == 'w' && "warmup"[0] == 'w' && "case_id"[0] == 'c' && "e2erate"[0] == 'e'
  {
  }

  lemma ProseFields(c: string, k: int, p: Pace)
    ensures
      var row := ProseRow(c, k, p);
      && row.Obj?
      && Get(row, "case") == Str(c) && Get(row, "repeat") == Int(k) && Get(row, "valid") == Bool(true)
      && Get(row, "finish_reason") == Str("stop") && Get(row, "usage") == Tokens(p.tokens)
      && Get(row, "wall_s") == Float(p.wall) && Get(row, "ttft_s") == Float(p.wall)
  {
    KeysDiffer();
  }

  lemma ProseMarks(c: string, k: int, p: Pace)
    ensures
      var row := ProseRow(c, k, p);
      && Get(row, "model") == Str(MODEL_ID) && Get(row, "ok") == Bool(true)
      && Get(row, "raw_events") == Arr([Null])
      && Get(row, "error").Null? && Get(row, "e2erate").Null? && Get(row, "warmup").Null?
      && HasProseKeys(row) && "case_id" !in row.fields && "case" in row.fields
  {
    KeysDiffer();
  }

  lemma TokensCount(n: int)
    requires n > 0
    ensures CompletionOf(Tokens(n)) == Some(n as real)
  {
    assert |"prompt_tokens"| == 13 && |"completion_tokens"| == 17 && |"total_tokens"| == 12;
  }

  /** Such a row is measured at its rate. */
  lemma ProseMeasured(c: string, k: int, p: Pace)
    requires Going(p)
    ensures
      var row := ProseRow(c, k, p);
      !ProseWarmup(row) && MeasureProse(row) == Some(Measured(Str(c), Int(k), RateOf(p), row))
  {
    ProseFields(c, k, p);
    ProseMarks(c, k, p);
    TokensCount(p.tokens);
  }

  predicate AllGoing(paces: seq<Pace>) { forall i :: 0 <= i < |paces| ==> Going(paces[i]) }

  function RatesOf(paces: seq<Pace>): (rates: seq<real>)
    requires AllGoing(paces)
    ensures |rates| == |paces| && forall i :: 0 <= i < |rates| ==> rates[i] > 0.0
  {
    seq(|paces|, i requires 0 <= i < |paces| => RateOf(paces[i]))
  }

  function CaseRows(c: string, paces: seq<Pace>): (rows: seq<Json>)
    ensures |rows| == |paces|
  {
    seq(|paces|, k requires 0 <= k < |paces| => ProseRow(c, k, paces[k]))
  }

  const CITY := "city_heat_water"
  const INDEX := "db_index_write_read"
  const COMPRESSION := "compression_vs_random_access"

  /** The same paces for each of the three cases. */
  function Prose(paces: seq<Pace>): (rows: seq<Json>)
  {
    CaseRows(CITY, paces) + (CaseRows(INDEX, paces) + CaseRows(COMPRESSION, paces))
  }

  lemma CaseNames()
    ensures CITY != INDEX && INDEX != COMPRESSION && CITY != COMPRESSION
    ensures CASES == {CITY, INDEX, COMPRESSION}
  {
    assert |CITY| == 15 && |INDEX| == 19 && |COMPRESSION| == 28;
  }

  /** What the rows of one case are worth. */
  lemma CaseRowsWorth<B>(c: string, paces: seq<Pace>, g: Measured -> Option<B>, values: seq<Option<B>>)
    requires AllGoing(paces) && |values| == |paces|
    requires forall k :: 0 <= k < |paces| ==>
               g(Measured(Str(c), Int(k), RateOf(paces[k]), ProseRow(c, k, paces[k]))) == values[k]
    ensures forall k :: 0 <= k < |paces| ==> Worth(g)(CaseRows(c, paces)[k]) == values[k]
  {
    forall k | 0 <= k < |paces| ensures Worth(g)(CaseRows(c, paces)[k]) == values[k] {
      ProseMeasured(c, k, paces[k]);
      WorthAt(ProseRow(c, k, paces[k]), g);
    }
  }

  function Ids(n: nat): (r: seq<Json>) { seq(n, k => Int(k)) }

  lemma OwnRates(c: string, paces: seq<Pace>)
    requires AllGoing(paces)
    ensures CaseRates(CaseRows(c, paces), c) == RatesOf(paces) && CaseRepeats(CaseRows(c, paces), c) == Ids(|paces|)
  {
    var (n, rows) := (|paces|, CaseRows(c, paces));
    CaseRowsWorth(c, paces, RateIf(c), seq(n, k requires 0 <= k < n => Some(RateOf(paces[k]))));
    CaseRowsWorth(c, paces, RepeatIf(c), seq(n, k => Some(Int(k))));
    FilterMapAll(rows, Worth(RateIf(c)));
    FilterMapAll(rows, Worth(RepeatIf(c)));
  }

  lemma OtherRates(c: string, other: string, paces: seq<Pace>)
    requires AllGoing(paces) && c != other
    ensures CaseRates(CaseRows(other, paces), c) == [] && CaseRepeats(CaseRows(other, paces), c) == []
  {
    var (n, rows) := (|paces|, CaseRows(other, paces));
    CaseRowsWorth(other, paces, RateIf(c), seq(n, _ => None));
    CaseRowsWorth(other, paces, RepeatIf(c), seq(n, _ => None));
    FilterMapNone(rows, Worth(RateIf(c)));
    FilterMapNone(rows, Worth(RepeatIf(c)));
  }

  lemma ThreeParts<B>(paces: seq<Pace>, g: Json -> Option<B>)
    requires AllGoing(paces)
    ensures FilterMap(Prose(paces), g) ==
            FilterMap(CaseRows(CITY, paces), g)
            + (FilterMap(CaseRows(INDEX, paces), g) + FilterMap(CaseRows(COMPRESSION, paces), g))
  {
    var (a, b, d) := (CaseRows(CITY, paces), CaseRows(INDEX, paces), CaseRows(COMPRESSION, paces));
    FilterMapAppend(a, b + d, g);
    FilterMapAppend(b, d, g);
  }

  /** Every case has exactly the given rates, in order of repeat. */
  lemma ProseRates(paces: seq<Pace>, c: string)
    requires AllGoing(paces) && c in CASES
    ensures CaseRates(Prose(paces), c) == RatesOf(paces) && CaseRepeats(Prose(paces), c) == Ids(|paces|)
  {
    CaseNames();
    ThreeParts(paces, Worth(RateIf(c)));
    ThreeParts(paces, Worth(RepeatIf(c)));
    OwnRates(c, paces);
    if c != CITY { OtherRates(c, CITY, paces); }
    if c != INDEX { OtherRates(c, INDEX, paces); }
    if c != COMPRESSION { OtherRates(c, COMPRESSION, paces); }
  }

  lemma IdsEachOnce(n: nat)
    ensures EachOnce(Ids(n), n)
  {
    var ids := Ids(n);
    assert Ints(ids) == Range(n);
    SortedRange(Ints(ids), n);
    RepeatsExactly(ids, n);
  }

  // ------------------------------------------------------------------
  // What every prose row is
  // ------------------------------------------------------------------

  ghost predicate IsProse(row: Json, c: string) {
    exists k: int, p: Pace :: Going(p) && row == ProseRow(c, k, p)
  }

  ghost predicate AnyProse(row: Json) { exists c :: c in CASES && IsProse(row, c) }

  lemma ProseRowFacts(row: Json, c: string)
    requires c in CASES && IsProse(row, c)
    ensures ProseRowOk(row) && KnownCase(row)
    ensures NotWarm(row) == Some(row) && NotMarked(row) == Some(row) && CaseOf(row) == Some(Str(c))
  {
    var k: int, p: Pace :| Going(p) && row == ProseRow(c, k, p);
    ProseMeasured(c, k, p);
    ProseFields(c, k, p);
    ProseMarks(c, k, p);
  }

  lemma CaseRowsAre(c: string, paces: seq<Pace>)
    requires AllGoing(paces)
    ensures forall row <- CaseRows(c, paces) :: IsProse(row, c)
  {
    forall row <- CaseRows(c, paces) ensures IsProse(row, c) {
      var k :| 0 <= k < |paces| && CaseRows(c, paces)[k] == row;
      assert row == ProseRow(c, k, paces[k]);
    }
  }

  lemma ProseRowsAre(paces: seq<Pace>)
    requires AllGoing(paces)
    ensures forall row <- Prose(paces) :: AnyProse(row)
  {
    CaseNames();
    CaseRowsAre(CITY, paces);
    CaseRowsAre(INDEX, paces);
    CaseRowsAre(COMPRESSION, paces);
    forall row <- Prose(paces) ensures AnyProse(row) {
      if row in CaseRows(CITY, paces) {
        assert IsProse(row, CITY);
      } else if row in CaseRows(INDEX, paces) {
        assert IsProse(row, INDEX);
      } else {
        assert IsProse(row, COMPRESSION);
      }
    }
  }

  lemma ProseIsComplete(paces: seq<Pace>)
    requires AllGoing(paces)
    ensures ProseComplete(Prose(paces), |paces|)
  {
    var rows := Prose(paces);
    ProseRowsAre(paces);
    forall i | 0 <= i < |rows| ensures ProseRowOk(rows[i]) && KnownCase(rows[i]) {
      assert AnyProse(rows[i]);
      var c :| c in CASES && IsProse(rows[i], c);
      ProseRowFacts(rows[i], c);
    }
    forall c <- CASES ensures EachOnce(CaseRepeats(rows, c), |paces|) {
      ProseRates(paces, c);
      IdsEachOnce(|paces|);
    }
  }

  /** The cases a manifest freezes for these rows. */
  const PROSE_CASES: set<Json> := {Str(CITY), Str(INDEX), Str(COMPRESSION)}

  predicate Always(row: Json) { true }

  ghost predicate HasCase(rows: seq<Json>, j: Json) { exists row :: row in rows && CaseOf(row) == Some(j) }

  predicate Plain(row: Json, cases: set<Json>) {
    NotMarked(row) == Some(row) && CaseOf(row).Some? && CaseOf(row).value in cases
  }

  /** Unmarked rows that show exactly the frozen cases are bound, when every row is. */
  lemma ShownIsBound(rows: seq<Json>, cases: set<Json>)
    requires cases != {} && forall row <- rows :: Plain(row, cases)
    requires forall j <- cases :: HasCase(rows, j)
    ensures Bound(rows, cases, Always)
  {
    FilterMapId(rows, NotMarked);
    forall j ensures j in FilterMap(rows, CaseOf) <==> j in cases {
      FilterMapMembers(rows, CaseOf, j);
      if j in cases {
        assert HasCase(rows, j);
      }
    }
  }

  lemma AnyProsePlain(row: Json)
    requires AnyProse(row)
    ensures NotWarm(row) == Some(row) && Plain(row, PROSE_CASES)
  {
    var c :| c in CASES && IsProse(row, c);
    ProseRowFacts(row, c);
    FrozenCase(c);
  }

  lemma FrozenCase(c: string)
    requires c in CASES
    ensures Str(c) in PROSE_CASES
  {
    CaseNames();
  }

  lemma ProsePlain(paces: seq<Pace>)
    requires AllGoing(paces)
    ensures forall row <- Prose(paces) :: NotWarm(row) == Some(row) && Plain(row, PROSE_CASES)
  {
    ProseRowsAre(paces);
    forall row <- Prose(paces) ensures NotWarm(row) == Some(row) && Plain(row, PROSE_CASES) {
      AnyProsePlain(row);
    }
  }

  lemma ProseIsBound(paces: seq<Pace>)
    requires AllGoing(paces) && paces != []
    ensures Bound(FilterMap(Prose(paces), NotWarm), PROSE_CASES, Always)
  {
    ProsePlain(paces);
    FilterMapId(Prose(paces), NotWarm);
    CaseNames();
    FirstOfCase(paces, CITY);
    FirstOfCase(paces, INDEX);
    FirstOfCase(paces, COMPRESSION);
    ShownIsBound(Prose(paces), PROSE_CASES);
  }

  lemma FirstOfCase(paces: seq<Pace>, c: string)
    requires AllGoing(paces) && paces != [] && c in CASES
    ensures HasCase(Prose(paces), Str(c))
  {
    CaseNames();
    var row := CaseRows(c, paces)[0];
    assert row in CaseRows(c, paces) && row in Prose(paces);
    CaseRowsAre(c, paces);
    ProseRowFacts(row, c);
  }

  // ------------------------------------------------------------------
  // Vision rows
  // ------------------------------------------------------------------

  function Hash(): (s: string)
    ensures |s| == 64
  {
    seq(64, i => '0')
  }

  /** Names told apart by their length. */
  function VisionName(i: nat): (s: string)
    ensures |s| == i
  {
    seq(i, k => 'v')
  }

  function VisionRow(i: nat): (row: Json) {
    Obj(map[
      "case_id" := Str(VisionName(i)), "repeat" := Int(0), "input_sha256" := Str(Hash()), "valid" := Bool(true),
      "finish_reason" := Str("stop"), "ttft_s" := Int(1)])
  }

  lemma VisionFields(i: nat)
    ensures
      var row := VisionRow(i);
      && row.Obj? && Get(row, "case_id") == Str(VisionName(i)) && Get(row, "repeat") == Int(0)
      && Get(row, "input_sha256") == Str(Hash()) && Get(row, "valid") == Bool(true)
      && Get(row, "finish_reason") == Str("stop") && Get(row, "ttft_s") == Int(1)
      && Get(row, "error").Null? && Get(row, "warmup").Null?
  {
    KeysDiffer();
  }

  lemma VisionRowFacts(i: nat)
    ensures
      var row := VisionRow(i);
      && TtftOf(row) == Some(1.0) && IdentityOf(row) == Some(Identity(VisionName(i), 0, Hash()))
      && Selected(row) == Some(row) && NotMarked(row) == Some(row) && CaseOf(row) == Some(Str(VisionName(i)))
  {
    VisionFields(i);
  }

  function Vision(n: nat): (rows: seq<Json>)
    ensures |rows| == n
  {
    seq(n, i requires 0 <= i => VisionRow(i))
  }

  function CaseAt(i: nat): (j: Json) { Str(VisionName(i)) }

  ghost function VisionCases(n: nat): (r: set<Json>) { Image(Below(n), CaseAt) }

  lemma VisionCasesSize(n: nat)
    ensures |VisionCases(n)| == n
  {
    forall i, j | i in Below(n) && j in Below(n) && CaseAt(i) == CaseAt(j) ensures i == j {
      assert |VisionName(i)| == |VisionName(j)|;
    }
    ImageSize(Below(n), CaseAt);
  }

  lemma VisionSideOk(n: nat)
    requires n >= 2
    ensures SideOk(Vision(n))
  {
    var rows := Vision(n);
    forall i | 0 <= i < n
      ensures TtftOf(rows[i]).Some? && IdentityOf(rows[i]) == Some(Identity(VisionName(i), 0, Hash()))
    {
      VisionRowFacts(i);
    }
    FilterMapAll(rows, IdentityOf);
    var ids := FilterMap(rows, IdentityOf);
    forall i, j | 0 <= i < j < |ids|
      ensures !(ids[i].caseName == ids[j].caseName && ids[i].repeatId == ids[j].repeatId)
    {
      assert |ids[i].caseName| == i && |ids[j].caseName| == j;
    }
  }

  lemma VisionSelected(n: nat)
    ensures SelectedRows(Some(Vision(n))) == Vision(n)
    ensures forall row <- Vision(n) :: Selected(row) == Some(row)
  {
    var rows := Vision(n);
    forall row <- rows ensures Selected(row) == Some(row) {
      var i :| 0 <= i < n && rows[i] == row;
      VisionRowFacts(i);
    }
    FilterMapId(rows, Selected);
  }

  lemma VisionIsBound(n: nat)
    requires n > 0
    ensures Bound(Vision(n), VisionCases(n), Always)
  {
    var (rows, cases) := (Vision(n), VisionCases(n));
    forall row <- rows ensures Plain(row, cases) {
      var i :| 0 <= i < n && rows[i] == row;
      VisionRowFacts(i);
      assert i in Below(n) && CaseAt(i) in cases;
    }
    forall j <- cases ensures HasCase(rows, j) {
      var i :| i in Below(n) && CaseAt(i) == j;
      VisionRowFacts(i);
      assert rows[i] in rows;
    }
    assert CaseAt(0) in cases by {
      assert 0 in Below(n);
    }
    ShownIsBound(rows, cases);
  }

  lemma VisionHolds(n: nat)
    requires n >= 2
    ensures VisionPasses(Vision(n), Vision(n))
  {
    VisionSideOk(n);
    TtftsPositive(Vision(n));
    VisionGateExactly(Vision(n), Vision(n));
  }

  // ------------------------------------------------------------------
  // The whole comparison
  // ------------------------------------------------------------------

  ghost function WitnessSide(paces: seq<Pace>, n: nat): (side: Side)
    requires AllGoing(paces)
  {
    Side(Prose(paces), Some(Vision(n)), PROSE_CASES, VisionCases(n), Always, Always, true)
  }

  /** A comparison of the given rates, with everything else in order. */
  ghost function Witness(base: seq<Pace>, cand: seq<Pace>, n: nat): (x: Inputs)
    requires AllGoing(base) && AllGoing(cand)
  {
    Inputs(true, WitnessSide(base, n), WitnessSide(cand, n), |base|, Medians(1.0, 2.0), Medians(1.0, 2.0), false, "")
  }

  lemma WitnessEvidence(paces: seq<Pace>, n: nat)
    requires AllGoing(paces) && paces != [] && n == 43
    ensures EvidenceBound(WitnessSide(paces, n))
  {
    ProseIsBound(paces);
    VisionIsBound(n);
    VisionCasesSize(n);
  }

  lemma WitnessProse(base: seq<Pace>, cand: seq<Pace>)
    requires AllGoing(base) && AllGoing(cand) && |base| == |cand| > 0
    requires Ahead(Median(RatesOf(base)), Median(RatesOf(cand)))
    ensures ProsePasses(Prose(base), Prose(cand), |base|)
  {
    ProseIsComplete(base);
    ProseIsComplete(cand);
    forall c <- CASES ensures CaseAhead(Prose(base), Prose(cand), c) {
      ProseRates(base, c);
      ProseRates(cand, c);
    }
  }

  lemma WitnessVision(base: seq<Pace>, cand: seq<Pace>, n: nat)
    requires AllGoing(base) && AllGoing(cand) && base != [] && cand != [] && n == 43
    ensures VisionLanePasses(Witness(base, cand, n))
  {
    WitnessEvidence(base, n);
    WitnessEvidence(cand, n);
    VisionSelected(n);
    VisionHolds(n);
  }

  lemma WitnessRowsPass(base: seq<Pace>, cand: seq<Pace>, n: nat)
    requires AllGoing(base) && AllGoing(cand) && |base| == |cand| > 0 && n == 43
    requires Ahead(Median(RatesOf(base)), Median(RatesOf(cand)))
    ensures RowsPass(Witness(base, cand, n))
  {
    WitnessProse(base, cand);
    WitnessVision(base, cand, n);
  }

  /** Any paces whose median rates are 5% ahead are those of a comparison that PASSes. */
  lemma WitnessPasses(base: seq<Pace>, cand: seq<Pace>, n: nat)
    requires AllGoing(base) && AllGoing(cand) && |base| == |cand| > 0 && n == 43
    requires Ahead(Median(RatesOf(base)), Median(RatesOf(cand)))
    ensures Verdict(Witness(base, cand, n)) == Pass
  {
    WitnessRowsPass(base, cand, n);
    PassExactly(Witness(base, cand, n));
  }

  /** Whatever the number of repeats, some comparison PASSes. */
  lemma PassReachable(repeats: nat)
    requires repeats > 0
    ensures exists x: Inputs :: x.repeats == repeats && Verdict(x) == Pass
  {
    var base, cand := Steady(repeats, 50), Steady(repeats, 100);
    SteadyMedian(repeats, 50);
    SteadyMedian(repeats, 100);
    WitnessPasses(base, cand, 43);
    assert Witness(base, cand, 43).repeats == repeats;
  }

  /** The same pace every time, over two seconds. */
  function Steady(n: nat, tokens: int): (r: seq<Pace>)
    ensures |r| == n && (tokens > 0 ==> AllGoing(r))
  {
    seq(n, i => Pace(tokens, 2.0))
  }

  lemma SteadyMedian(n: nat, tokens: int)
    requires n > 0 && tokens > 0
    ensures Median(RatesOf(Steady(n, tokens))) == tokens as real / 2.0
  {
    SortedAlready(RatesOf(Steady(n, tokens)));
  }

  // ------------------------------------------------------------------
  // PASS means a majority exactly for odd repeats
  // ------------------------------------------------------------------

  /** If this comparison PASSes, a majority of its rates for the case is ahead of a majority. */
  ghost predicate MajorityIfPass(x: Inputs, c: string) {
    Verdict(x) == Pass ==> MajorityAhead(CaseRates(x.base.prose, c), CaseRates(x.cand.prose, c))
  }

  /** `half` slow repeats and `half` fast ones, of ten seconds each. */
  function TwoPaces(half: nat, slow: nat, fast: nat): (r: seq<Pace>)
    ensures |r| == 2 * half
  {
    seq(2 * half, i requires 0 <= i => Pace(if i < half then slow else fast, 10.0))
  }

  lemma TwoPacesRates(half: nat, slow: nat, fast: nat)
    requires slow > 0 && fast > 0
    ensures AllGoing(TwoPaces(half, slow, fast))
    ensures RatesOf(TwoPaces(half, slow, fast)) == TwoSpeeds(half, slow as real / 10.0, fast as real / 10.0)
  {
  }

  /** For every even number of repeats some comparison PASSes with no majority ahead in any case. */
  lemma EvenPassFails(half: nat) returns (x: Inputs)
    requires half > 0
    ensures x.repeats == 2 * half && Verdict(x) == Pass
    ensures forall c <- CASES :: !MajorityIfPass(x, c)
  {
    var base, cand := TwoPaces(half, 10, 30), TwoPaces(half, 12, 32);
    TwoPacesRates(half, 10, 30);
    TwoPacesRates(half, 12, 32);
    EvenGateFails(half);
    GainExactly(Median(RatesOf(base)), Median(RatesOf(cand)));
    WitnessPasses(base, cand, 43);
    x := Witness(base, cand, 43);
    forall c <- CASES ensures !MajorityIfPass(x, c) {
      ProseRates(base, c);
      ProseRates(cand, c);
    }
  }

  lemma OddPassHolds(x: Inputs, c: string)
    requires x.repeats % 2 == 1 && c in CASES
    ensures MajorityIfPass(x, c)
  {
    PassMeansMajority(x, c);
  }

  /** A comparison with this many repeats and a case for which PASS does not mean a majority. */
  ghost predicate Misleading(x: Inputs, c: string, repeats: nat) {
    x.repeats == repeats && c in CASES && !MajorityIfPass(x, c)
  }

  /** PASS means a majority ahead of a majority in every case exactly when the number of repeats is odd. */
  lemma PassMajorityExactly(repeats: nat)
    requires repeats > 0
    ensures repeats % 2 == 1 <==> forall x, c :: !Misleading(x, c, repeats)
  {
    if repeats % 2 == 1 {
      forall x, c ensures !Misleading(x, c, repeats) {
        if x.repeats == repeats && c in CASES {
          OddPassHolds(x, c);
        }
      }
    } else {
      var x := EvenPassFails(repeats / 2);
      CaseNames();
      assert Misleading(x, CITY, repeats);
    }
  }
}

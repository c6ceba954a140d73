/** The fail-closed comparison reducer (scripts/compare.py); rates and times are reals. */
module Compare {
  import opened Common
  import opened Json
  import opened Lists
  import opened Ranks
  import Sorting

  const THRESHOLD := 0.05

  const CASES: set<string> := {"db_index_write_read", "city_heat_water", "compression_vs_random_access"}

  /** A number other than a boolean. */
  function Number(j: Json): (r: Option<real>) {
    match j
    case Int(n) => Some(n as real)
    case Float(x) => Some(x)
    case _ => None
  }

  function Positive(j: Json): (r: Option<real>)
    ensures r.Some? ==> r.value > 0.0
  {
    var n := Number(j);
    if n.Some? && n.value > 0.0 then n else None
  }

  // ------------------------------------------------------------------
  // Prose rows
  // ------------------------------------------------------------------

  datatype Measured = Measured(caseName: Json, repeatId: Json, rate: real, row: Json)

  predicate ProseWarmup(row: Json) {
    row.Obj? && (Get(row, "warmup") == Bool(true) || Get(row, "repeat") == Str("warmup"))
  }

  predicate HasProseKeys(row: Json)
    requires row.Obj?
  {
    forall k <- ["case", "repeat", "valid", "finish_reason", "usage", "wall_s", "ttft_s"] :: k in row.fields
  }

  /** The row's usage adds up and yields a positive completion count. */
  function CompletionOf(u: Json): (r: Option<real>) {
    if !u.Obj? then None
    else
      var (p, c, t) := (Get(u, "prompt_tokens"), Get(u, "completion_tokens"), Get(u, "total_tokens"));
      if p.Int? && c.Int? && t.Int? && p.n >= 0 && t.n == p.n + c.n && c.n > 0 then Some(c.n as real) else None
  }

  predicate RateStated(row: Json, rate: real)
    requires row.Obj?
  {
    var e := Get(row, "e2erate");
    var stated := if e.Bool? then Some(if e.b then 1.0 else 0.0) else Number(e);
    e.Null? ||
    (stated.Some? &&
     var d := stated.value - rate;
     var tolerance := if 0.01 * rate > 0.000001 then 0.01 * rate else 0.000001;
     -tolerance <= d <= tolerance)
  }

  /** One measured row, or None where the source rejects it. */
  function MeasureProse(row: Json): (r: Option<Measured>)
    ensures r.Some? ==> r.value.rate > 0.0 && r.value.row == row
  {
    if !row.Obj? || !HasProseKeys(row) || Get(row, "valid") != Bool(true) then None
    else if Get(row, "model") != Str(MODEL_ID) || Get(row, "finish_reason") != Str("stop") then None
    else
      var tokens := CompletionOf(Get(row, "usage"));
      var (wall, ttft) := (Positive(Get(row, "wall_s")), Positive(Get(row, "ttft_s")));
      if tokens.None? || wall.None? || ttft.None? || ttft.value > wall.value || tokens.value <= 0.0 then None
      else if Get(row, "ok") != Bool(true) || !Get(row, "error").Null? || !Truthy(Get(row, "raw_events")) then None
      else
        var rate := tokens.value / wall.value;
        if RateStated(row, rate) then Some(Measured(Get(row, "case"), Get(row, "repeat"), rate, row)) else None
  }

  function NotWarm(row: Json): (r: Option<Json>) { if ProseWarmup(row) then None else Some(row) }

  predicate ProseRowOk(row: Json) { ProseWarmup(row) || MeasureProse(row).Some? }

  /** Every row that is not a warmup is complete, valid and consistent. */
  predicate GoodProse(rows: seq<Json>) { forall i :: 0 <= i < |rows| ==> ProseRowOk(rows[i]) }

  /** What a row contributes. */
  function MeasureKept(row: Json): (r: Option<Measured>)
    ensures r.Some? ==> r.value.rate > 0.0 && r.value.row == row
  {
    if ProseWarmup(row) then None else MeasureProse(row)
  }

  /** The measured rows of a list, in order. */
  function MeasuredRows(rows: seq<Json>): (r: seq<Measured>) { FilterMap(rows, MeasureKept) }

  /** The loop that keeps complete measured rows and rejects at the first bad one. */
  method MeasuredProseRows(rows: seq<Json>) returns (r: Option<seq<Measured>>)
    ensures r.Some? <==> GoodProse(rows)
    ensures r.Some? ==> r.value == MeasuredRows(rows)
  {
    var out: seq<Measured> := [];
    for i := 0 to |rows|
      invariant GoodProse(rows[..i])
      invariant out == MeasuredRows(rows[..i])
    {
      var row := rows[i];
      assert rows[..i + 1] == rows[..i] + [row];
      FilterMapAppend(rows[..i], [row], MeasureKept);
      FilterMapOne(row, MeasureKept);
      if ProseWarmup(row) {
        continue;
      }
      var m := MeasureProse(row);
      if m.None? {
        return None;
      }
      out := out + [m.value];
    }
    assert rows[..|rows|] == rows;
    r := Some(out);
  }

  // ------------------------------------------------------------------
  // Counts and the prose gate
  // ------------------------------------------------------------------

  function RateIf(c: string): (f: Measured -> Option<real>) {
    (m: Measured) => if m.caseName == Str(c) then Some(m.rate) else None
  }

  function RepeatIf(c: string): (f: Measured -> Option<Json>) {
    (m: Measured) => if m.caseName == Str(c) then Some(m.repeatId) else None
  }

  function Rates(rows: seq<Measured>, c: string): (r: seq<real>) { FilterMap(rows, RateIf(c)) }

  predicate AllInts(js: seq<Json>) { forall i :: 0 <= i < |js| ==> js[i].Int? }

  function Ints(js: seq<Json>): (r: seq<int>)
    requires AllInts(js)
    ensures |r| == |js|
  {
    seq(|js|, i requires 0 <= i < |js| => js[i].n)
  }

  predicate NoRepeats<T(==)>(s: seq<T>) { forall i, j :: 0 <= i < j < |s| ==> s[i] != s[j] }

  function Range(n: nat): (r: seq<int>) { seq(n, i => i) }

  predicate IntLeq(a: int, b: int) { a <= b }

  /** The tests on the repeat identities of one case. */
  predicate RepeatsOk(seen: seq<Json>, n: int) {
    && AllInts(seen)
    && NoRepeats(seen)
    && |seen| == n
    && Sorting.Sort(Ints(seen), IntLeq) == Range(n)
  }

  predicate CaseOk(m: Measured) { m.caseName.Str? && m.caseName.s in CASES }

  predicate CaseCountsOk(rows: seq<Measured>, c: string, repeats: int) {
    Rates(rows, c) != [] && RepeatsOk(FilterMap(rows, RepeatIf(c)), repeats)
  }

  /** Exactly the three cases, each with exactly the expected repeats. */
  predicate CountsOk(rows: seq<Measured>, repeats: int) {
    && (forall i :: 0 <= i < |rows| ==> CaseOk(rows[i]))
    && (forall c <- CASES :: CaseCountsOk(rows, c, repeats))
  }

  function Gain(base: real, cand: real): (g: real)
    requires base != 0.0
  {
    (cand - base) / base
  }

  /** The gate on one prose case: the medians gain at least 5%. */
  predicate RatesGain(base: seq<real>, cand: seq<real>)
    requires base != [] && cand != []
  {
    Median(base) > 0.0 && Gain(Median(base), Median(cand)) >= THRESHOLD
  }

  predicate CaseGains(base: seq<Measured>, cand: seq<Measured>, c: string) {
    var (b, d) := (Rates(base, c), Rates(cand, c));
    b != [] && d != [] && RatesGain(b, d)
  }

  predicate ProseGate(base: seq<Measured>, cand: seq<Measured>, repeats: int) {
    && CountsOk(base, repeats) && CountsOk(cand, repeats)
    && forall c <- CASES :: CaseGains(base, cand, c)
  }

  // ------------------------------------------------------------------
  // Vision rows
  // ------------------------------------------------------------------

  function Selected(row: Json): (r: Option<Json>) {
    if row.Obj? && Truthy(Get(row, "warmup")) then None else Some(row)
  }

  /** Identity of a vision row and its input hash. */
  datatype Identity = Identity(caseName: string, repeatId: int, hash: string)

  function IdentityOf(row: Json): (r: Option<Identity>) {
    if !row.Obj? then None
    else
      var (c, k, h) := (Get(row, "case_id"), Get(row, "repeat"), Get(row, "input_sha256"));
      if c.Str? && k.Int? && h.Str? && |h.s| == 64 then Some(Identity(c.s, k.n, h.s)) else None
  }

  function TtftOf(row: Json): (r: Option<real>) {
    if && row.Obj? && Get(row, "error").Null?
       && Get(row, "valid") == Bool(true) && Get(row, "finish_reason") == Str("stop")
    then Positive(Get(row, "ttft_s")) else None
  }

  predicate AllSome<B>(rows: seq<Json>, f: Json -> Option<B>) { forall i :: 0 <= i < |rows| ==> f(rows[i]).Some? }

  /** No two rows share case and repeat. */
  predicate KeysDistinct(ids: seq<Identity>) {
    forall i, j :: 0 <= i < j < |ids| ==> !(ids[i].caseName == ids[j].caseName && ids[i].repeatId == ids[j].repeatId)
  }

  predicate SideOk(rows: seq<Json>) {
    && AllSome(rows, TtftOf) && |rows| >= 2
    && AllSome(rows, IdentityOf) && KeysDistinct(FilterMap(rows, IdentityOf))
  }

  /** `round`: to the nearest integer, halves to the even one. */
  function RoundHalfEven(x: real): (n: int)
    ensures (n as real) - 0.5 <= x <= (n as real) + 0.5
    ensures x == n as real - 0.5 || x == n as real + 0.5 ==> n % 2 == 0
  {
    var f := x.Floor;
    var d := x - f as real;
    if d < 0.5 || (d == 0.5 && f % 2 == 0) then f else f + 1
  }

  /** Index of the 95th percentile among `n` sorted values. */
  function Rank95(n: nat): (k: nat)
    requires n > 0
    ensures k < n
  {
    var k := RoundHalfEven(0.95 * (n - 1) as real);
    var low := if k < 0 then 0 else k;
    if low < n - 1 then low else n - 1
  }

  /** The 95th percentile by nearest rank. */
  function P95(xs: seq<real>): (r: real)
    requires xs != []
  {
    Sorted(xs)[Rank95(|xs|)]
  }

  lemma {:induction false} FilterMapAll<A, B>(s: seq<A>, f: A -> Option<B>)
    requires forall i :: 0 <= i < |s| ==> f(s[i]).Some?
    ensures |FilterMap(s, f)| == |s|
    ensures forall i :: 0 <= i < |s| ==> FilterMap(s, f)[i] == f(s[i]).value
  {
    if s != [] {
      FilterMapAll(s[1..], f);
    }
  }

  function Identities(rows: seq<Json>): (r: set<Identity>) { set x | x in FilterMap(rows, IdentityOf) }

  function SideP95(rows: seq<Json>): (r: real)
    requires SideOk(rows)
  {
    FilterMapAll(rows, TtftOf);
    P95(FilterMap(rows, TtftOf))
  }

  /** The paired gate on first-token time; rows are the selected ones. */
  predicate VisionGate(base: seq<Json>, cand: seq<Json>) {
    && SideOk(base) && SideOk(cand)
    && Identities(base) == Identities(cand)
    && SideP95(base) > 0.0 && Gain(SideP95(base), SideP95(cand)) <= THRESHOLD
  }

  // ------------------------------------------------------------------
  // The verdict
  // ------------------------------------------------------------------

  /** An upstream lane: absent on both sides, on one side only, rejected, or two medians. */
  datatype Lane = Absent | OneSided | LaneRejected | Medians(base: real, cand: real)

  /** One side: its rows, and its manifest's frozen cases and per-row binding for each lane. */
  datatype Side = Side(
    prose: seq<Json>, vision: Option<seq<Json>>,
    proseCases: set<Json>, visionCases: set<Json>,
    proseBound: Json -> bool, visionBound: Json -> bool, upstreamBound: bool)

  datatype Inputs = Inputs(
    parity: bool, base: Side, cand: Side, repeats: int, short: Lane, medium: Lane,
    visionLever: bool, metric: string)

  datatype Outcome = Raised | NotOptimized | Pass

  function CaseOf(row: Json): (r: Option<Json>) {
    if !row.Obj? then None
    else if "case_id" in row.fields then Some(row.fields["case_id"])
    else if "case" in row.fields then Some(row.fields["case"])
    else Some(Str("batch"))
  }

  function NotMarked(row: Json): (r: Option<Json>) {
    if row.Obj? && Get(row, "warmup") == Bool(true) then None else Some(row)
  }

  function RowOf(m: Measured): (r: Option<Json>) { Some(m.row) }

  /** Rows of a lane bind to the manifest: same cases, and every row bound. */
  predicate Bound(rows: seq<Json>, cases: set<Json>, bound: Json -> bool) {
    var kept := FilterMap(rows, NotMarked);
    && cases != {}
    && (set x | x in FilterMap(kept, CaseOf)) == cases
    && forall i :: 0 <= i < |kept| ==> bound(kept[i])
  }

  predicate Evidence(side: Side, measured: seq<Measured>) {
    && side.vision.Some?
    && Bound(FilterMap(measured, RowOf), side.proseCases, side.proseBound)
    && side.upstreamBound
    && Bound(side.vision.value, side.visionCases, side.visionBound) && |side.visionCases| == 43
  }

  function MetricOf(metric: string): (f: Json -> Option<real>) {
    (row: Json) => if row.Obj? then Positive(Get(row, metric)) else None
  }

  /** Relative reduction of the metric's median on the vision rows. */
  function LeverStep(visionLever: bool, metric: string, base: Option<real>, cand: Option<real>): (r: Option<Outcome>)
    ensures r != Some(Pass)
  {
    if !visionLever then None
    else if metric != "wall_s" && metric != "ttft_s" then Some(Raised)
    else if base.None? || cand.None? || base.value == 0.0 then Some(Raised)
    else if (base.value - cand.value) / base.value < THRESHOLD then Some(NotOptimized) else None
  }

  /** Median of a metric over selected rows; None where the source raises. */
  function MetricMedian(rows: seq<Json>, metric: string): (r: Option<real>) {
    if rows == [] || !AllSome(rows, MetricOf(metric)) then None
    else
      FilterMapAll(rows, MetricOf(metric));
      Some(Median(FilterMap(rows, MetricOf(metric))))
  }

  /** The rows of a lane that are not warmups; none when the lane is missing. */
  function SelectedRows(rows: Option<seq<Json>>): (r: seq<Json>) {
    if rows.None? then [] else FilterMap(rows.value, Selected)
  }

  function ShortStep(l: Lane): (r: Option<Outcome>)
    ensures r != Some(Pass)
  {
    match l
    case Absent => None
    case OneSided => Some(Raised)
    case LaneRejected => Some(NotOptimized)
    case Medians(b, c) => if b == 0.0 then Some(Raised) else if Gain(b, c) < THRESHOLD then Some(NotOptimized) else None
  }

  function MediumStep(l: Lane): (r: Option<Outcome>)
    ensures r != Some(Pass)
  {
    match l
    case Absent => None
    case OneSided => Some(Raised)
    case LaneRejected => Some(Raised)
    case Medians(b, c) => if b == 0.0 then Some(Raised) else if Gain(b, c) < THRESHOLD then Some(NotOptimized) else None
  }

  function VisionStep(b: Option<seq<Json>>, c: Option<seq<Json>>): (r: Option<Outcome>)
    ensures r != Some(Pass)
  {
    if b.None? && c.None? then None
    else if b.None? || c.None? then Some(NotOptimized)
    else if VisionGate(SelectedRows(b), SelectedRows(c)) then None
    else Some(NotOptimized)
  }

  /** What each stage of the decision found; Some is a stage that decides. */
  datatype Gates = Gates(
    prose: bool, short: Option<Outcome>, medium: Option<Outcome>, vision: Option<Outcome>,
    complete: bool, lever: Option<Outcome>, evidence: bool)

  /** Stage after stage: a stage that decides ends it, and PASS comes last. */
  function Stages(g: Gates): (o: Outcome) {
    if !g.prose then NotOptimized
    else if g.short.Some? then g.short.value
    else if g.medium.Some? then g.medium.value
    else if g.vision.Some? then g.vision.value
    else if !g.complete then NotOptimized
    else if g.lever.Some? then g.lever.value
    else if g.evidence then Pass
    else NotOptimized
  }

  function GatesOf(x: Inputs, base: seq<Measured>, cand: seq<Measured>): (g: Gates) {
    Gates(
      ProseGate(base, cand, x.repeats), ShortStep(x.short), MediumStep(x.medium),
      VisionStep(x.base.vision, x.cand.vision),
      !x.short.Absent? && !x.medium.Absent? && x.base.vision.Some? && x.cand.vision.Some?,
      LeverStep(x.visionLever, x.metric,
                MetricMedian(SelectedRows(x.base.vision), x.metric),
                MetricMedian(SelectedRows(x.cand.vision), x.metric)),
      Evidence(x.base, base) && Evidence(x.cand, cand))
  }

  function Verdict(x: Inputs): (o: Outcome) {
    if !x.parity || !GoodProse(x.base.prose) || !GoodProse(x.cand.prose) then Raised
    else Stages(GatesOf(x, MeasuredRows(x.base.prose), MeasuredRows(x.cand.prose)))
  }
}

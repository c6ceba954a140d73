/** What the comparison reads off its rows, said of their fields. */
module CompareFields {
  import opened Common
  import opened Json
  import opened Compare
  import opened CompareMeaning

  /** A JSON number, not a boolean. */
  predicate IsNumber(j: Json, x: real) { (j.Int? && x == j.n as real) || (j.Float? && x == j.r) }

  /** A stated rate may also be a boolean, which counts as 1 or 0. */
  predicate IsStated(j: Json, x: real) { IsNumber(j, x) || (j.Bool? && x == if j.b then 1.0 else 0.0) }

  /** The usage adds up, with `n` completion tokens. */
  predicate UsageSays(u: Json, n: int) {
    && u.Obj?
    && Get(u, "prompt_tokens").Int? && Get(u, "prompt_tokens").n >= 0
    && Get(u, "completion_tokens") == Int(n) && n > 0
    && Get(u, "total_tokens") == Int(Get(u, "prompt_tokens").n + n)
  }

  /** `n` tokens in `w` seconds, the first of them no later than the last. */
  predicate TimesSay(row: Json, w: real)
    requires row.Obj?
  {
    && IsNumber(Get(row, "wall_s"), w) && w > 0.0
    && var t := Get(row, "ttft_s");
    (t.Int? && 0.0 < t.n as real <= w) || (t.Float? && 0.0 < t.r <= w)
  }

  /** A stated rate is within 1% of the measured one, or within a millionth. */
  predicate StatedNear(row: Json, rate: real)
    requires row.Obj?
  {
    var e := Get(row, "e2erate");
    || e.Null?
    || (var x := if e.Bool? then (if e.b then 1.0 else 0.0)
                 else if e.Int? then e.n as real else if e.Float? then e.r else 0.0;
        IsStated(e, x) &&
        (-0.01 * rate <= x - rate <= 0.01 * rate || -0.000001 <= x - rate <= 0.000001))
  }

  /** The marks of a good row. */
  predicate MarkedGood(row: Json)
    requires row.Obj?
  {
    && Get(row, "valid") == Bool(true) && Get(row, "ok") == Bool(true) && Get(row, "error").Null?
    && Get(row, "model") == Str(MODEL_ID) && Get(row, "finish_reason") == Str("stop")
    && "case" in row.fields && "repeat" in row.fields
    && Truthy(Get(row, "raw_events"))
  }

  /** A prose row of `n` tokens in `w` seconds, good in every respect. */
  predicate GoodRow(row: Json, n: int, w: real) {
    && row.Obj? && MarkedGood(row)
    && UsageSays(Get(row, "usage"), n) && TimesSay(row, w)
    && StatedNear(row, n as real / w)
  }

  lemma KeysThere(row: Json, n: int, w: real)
    requires GoodRow(row, n, w)
    ensures HasProseKeys(row)
  {
  }

  lemma StatedExactly(row: Json, rate: real)
    requires row.Obj? && rate > 0.0
    ensures RateStated(row, rate) <==> StatedNear(row, rate)
  {
  }

  lemma UsageExactly(u: Json, n: int)
    ensures UsageSays(u, n) <==> CompletionOf(u) == Some(n as real)
  {
  }

  /** A good row of `n` tokens in `w` seconds is measured at `n / w`. */
  lemma RateIsTokensPerSecond(row: Json, n: int, w: real)
    requires GoodRow(row, n, w)
    ensures MeasureProse(row) == Some(Measured(Get(row, "case"), Get(row, "repeat"), n as real / w, row))
  {
    KeysThere(row, n, w);
    UsageExactly(Get(row, "usage"), n);
    assert n as real / w > 0.0;
    StatedExactly(row, n as real / w);
  }

  /** And only good rows are measured. */
  lemma MeasuredIsGood(row: Json) returns (n: int, w: real)
    requires MeasureProse(row).Some?
    ensures GoodRow(row, n, w)
  {
    var u := Get(row, "usage");
    n := Get(u, "completion_tokens").n;
    w := Number(Get(row, "wall_s")).value;
    UsageExactly(u, n);
    assert n as real / w > 0.0;
    StatedExactly(row, n as real / w);
  }

  ghost predicate SomeGoodRow(row: Json) { exists n: int, w: real :: GoodRow(row, n, w) }

  /** A row is accepted exactly when it is good. */
  lemma AcceptedExactly(row: Json)
    ensures MeasureProse(row).Some? <==> SomeGoodRow(row)
  {
    if MeasureProse(row).Some? {
      var n, w := MeasuredIsGood(row);
    }
    if SomeGoodRow(row) {
      var n: int, w: real :| GoodRow(row, n, w);
      RateIsTokensPerSecond(row, n, w);
    }
  }

  // ------------------------------------------------------------------
  // Vision rows
  // ------------------------------------------------------------------

  /** A good vision row with its first-token time. */
  predicate GoodVision(row: Json, t: real) {
    && row.Obj? && Get(row, "error").Null? && Get(row, "valid") == Bool(true)
    && Get(row, "finish_reason") == Str("stop") && IsNumber(Get(row, "ttft_s"), t) && t > 0.0
  }

  lemma FirstTokenIs(row: Json, t: real)
    ensures TtftOf(row) == Some(t) <==> GoodVision(row, t)
  {
  }

  /** Its identity: case, repeat and the hash of its input. */
  lemma IdentityIs(row: Json, c: string, k: int, h: string)
    ensures IdentityOf(row) == Some(Identity(c, k, h)) <==>
            && row.Obj? && |h| == 64
            && Get(row, "case_id") == Str(c) && Get(row, "repeat") == Int(k) && Get(row, "input_sha256") == Str(h)
  {
  }

  /** Which rows are warmups: marked true or repeat "warmup" in prose, marked at all in vision. */
  lemma WarmupsAre(row: Json)
    requires row.Obj?
    ensures NotWarm(row).None? <==> Get(row, "warmup") == Bool(true) || Get(row, "repeat") == Str("warmup")
    ensures Selected(row).None? <==> Truthy(Get(row, "warmup"))
    ensures NotMarked(row).None? <==> Get(row, "warmup") == Bool(true)
  {
  }

  /** A case that a row of evidence names: its `case_id`, else its `case`, else "batch". */
  lemma CaseNamed(row: Json)
    requires row.Obj?
    ensures "case_id" in row.fields ==> CaseOf(row) == Some(row.fields["case_id"])
    ensures "case_id" !in row.fields && "case" in row.fields ==> CaseOf(row) == Some(row.fields["case"])
    ensures "case_id" !in row.fields && "case" !in row.fields ==> CaseOf(row) == Some(Str("batch"))
  {
  }
}

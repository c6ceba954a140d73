/** What a valid capture says about the calls that were made, in whatever order. */
module CaptureMeaning {
  import opened Common
  import opened Json
  import opened Capture

  // ------------------------------------------------------------------
  // The calls, taken apart
  // ------------------------------------------------------------------

  /** Bytes that arrived. */
  function Wire(calls: seq<Call>): (r: Bytes) {
    if calls == [] then []
    else
      var c := calls[|calls| - 1];
      Wire(calls[..|calls| - 1]) + if c.Chunk? then c.raw else []
  }

  /** The value an event carries at one place, or null. */
  function UsageOf(c: Call): (j: Json) {
    if c.Event? && c.data.Obj? then Get(c.data, "usage") else Null
  }

  /** The extension, as far as the event is looked at. */
  function ExtensionOf(c: Call): (j: Json) {
    if c.Event? && c.data.Obj? && !IndexRaises(Get(c.data, "choices")) then Get(c.data, "sglext") else Null
  }

  function DetailsOf(c: Call): (j: Option<Json>) {
    var x := ExtensionOf(c);
    if x.Obj? && "cached_tokens_details" in x.fields then Some(x.fields["cached_tokens_details"]) else None
  }

  function Usages(calls: seq<Call>): (r: seq<Json>) {
    if calls == [] then []
    else
      var u := UsageOf(calls[|calls| - 1]);
      Usages(calls[..|calls| - 1]) + if u.Null? then [] else [u]
  }

  function Details(calls: seq<Call>): (r: seq<Json>) {
    if calls == [] then []
    else
      var d := DetailsOf(calls[|calls| - 1]);
      Details(calls[..|calls| - 1]) + if d.None? then [] else [d.value]
  }

  predicate AllUsagesOk(us: seq<Json>) { forall i :: 0 <= i < |us| ==> UsageOk(us[i]) }

  predicate NonDecreasing(us: seq<Json>)
    requires AllUsagesOk(us)
  {
    forall i, j :: 0 <= i <= j < |us| ==> Completion(us[i]) <= Completion(us[j])
  }

  predicate Constant(ds: seq<Json>) { forall i, j :: 0 <= i < |ds| && 0 <= j < |ds| ==> ds[i] == ds[j] }

  /** An event that is an object, and whose extension is one or absent. */
  predicate ShapeOk(c: Call) {
    (c.Event? ==> c.data.Obj?) && (ExtensionOf(c).Null? || ExtensionOf(c).Obj?)
  }

  /** Nothing to complain about in the whole sequence of calls. */
  ghost predicate Clean(calls: seq<Call>) {
    && |Wire(calls)| <= MAX_WIRE_BYTES
    && (forall i :: 0 <= i < |calls| ==> ShapeOk(calls[i]))
    && AllUsagesOk(Usages(calls)) && NonDecreasing(Usages(calls))
    && Constant(Details(calls))
  }

  function LastOf(s: seq<Json>): (r: Option<Json>) { if s == [] then None else Some(s[|s| - 1]) }

  function Prefix(s: Bytes, n: nat): (r: Bytes) { if |s| <= n then s else s[..n] }

  // ------------------------------------------------------------------
  // The record follows the calls
  // ------------------------------------------------------------------

  /** The fields a call cannot touch are as they were. */
  predicate SameWire(r: Record, r': Record) { r'.received == r.received && r'.stored == r.stored }

  lemma StepFacts(r: Record, c: Call)
    requires Sane(r)
    ensures
      var r' := Step(r, c);
      && (!c.Chunk? ==> SameWire(r, r'))
      && (r'.requested <==> r.requested || c == Request(true))
      && (r'.done <==> r.done || c.DoneCall?)
      && r'.details == (if DetailsOf(c).Some? then DetailsOf(c) else r.details)
      && (UsageOf(c).Null? ==> r'.usage == r.usage)
      && (UsageOk(UsageOf(c)) ==> r'.usage == Some(UsageOf(c)))
  {
    if c.Event? && c.data.Obj? {
      EventFacts(r, c.data);
    }
  }

  lemma EventFacts(r: Record, e: Json)
    requires Sane(r) && e.Obj?
    ensures
      var (r', u) := (StepEvent(r, e), Get(e, "usage"));
      && SameWire(r, r') && r'.requested == r.requested && r'.done == r.done
      && r'.usage == (if UsageOk(u) then Some(u) else r.usage)
      && r'.details == (if DetailsOf(Event(e)).Some? then DetailsOf(Event(e)) else r.details)
  {
    var (u, choices) := (Get(e, "usage"), Get(e, "choices"));
    var r0 := StepModel(r, Get(e, "model"));
    UsageFacts(r0, u);
    UsageFacts(r, u);
    if !IndexRaises(choices) {
      var r2 := StepFinish(StepUsage(r0, u), choices);
      ExtensionFacts(r2, Get(e, "sglext"));
    }
  }

  lemma UsageFacts(r: Record, u: Json)
    requires Sane(r)
    ensures
      var r' := StepUsage(r, u);
      && SameWire(r, r') && r'.requested == r.requested && r'.done == r.done && r'.details == r.details
      && r'.usage == (if UsageOk(u) then Some(u) else r.usage)
  {
  }

  lemma ExtensionFacts(r: Record, x: Json)
    ensures
      var r' := StepExtension(r, x);
      && SameWire(r, r') && r'.requested == r.requested && r'.done == r.done && r'.usage == r.usage
      && r'.details == (if x.Obj? && "cached_tokens_details" in x.fields
                        then Some(x.fields["cached_tokens_details"]) else r.details)
  {
  }

  /** A call adds a complaint exactly when something is wrong with it. */
  predicate CallOk(r: Record, c: Call)
    requires Sane(r)
  {
    && ShapeOk(c)
    && (c.Chunk? ==> r.received + |c.raw| <= MAX_WIRE_BYTES)
    && (UsageOf(c).Null? || UsageOk(UsageOf(c)))
    && (UsageOk(UsageOf(c)) && r.usage.Some? ==> Completion(r.usage.value) <= Completion(UsageOf(c)))
    && (DetailsOf(c).Some? && r.details.Some? ==> DetailsOf(c) == r.details)
  }

  lemma StepErrors(r: Record, c: Call)
    requires Sane(r)
    ensures Step(r, c).errors == [] <==> r.errors == [] && CallOk(r, c)
  {
    if c.Event? && c.data.Obj? {
      EventErrors(r, c.data);
    }
  }

  lemma EventErrors(r: Record, e: Json)
    requires Sane(r) && e.Obj?
    ensures StepEvent(r, e).errors == [] <==> r.errors == [] && CallOk(r, Event(e))
  {
    var (u, choices, x) := (Get(e, "usage"), Get(e, "choices"), Get(e, "sglext"));
    var r0 := StepModel(r, Get(e, "model"));
    var r1 := StepUsage(r0, u);
    UsageErrors(r0, u);
    if !IndexRaises(choices) {
      var r2 := StepFinish(r1, choices);
      assert r2.errors == r1.errors && r2.details == r.details;
      ExtensionErrors(r2, x);
    }
  }

  lemma UsageErrors(r: Record, u: Json)
    requires Sane(r)
    ensures StepUsage(r, u).errors == [] <==>
              && r.errors == [] && (u.Null? || UsageOk(u))
              && (UsageOk(u) && r.usage.Some? ==> Completion(r.usage.value) <= Completion(u))
    ensures StepUsage(r, u).details == r.details
  {
  }

  lemma ExtensionErrors(r: Record, x: Json)
    ensures StepExtension(r, x).errors == [] <==>
              && r.errors == [] && (x.Null? || x.Obj?)
              && (x.Obj? && "cached_tokens_details" in x.fields && r.details.Some? ==>
                    Some(x.fields["cached_tokens_details"]) == r.details)
  {
  }

  /** The record after the calls, said in terms of the calls. */
  ghost predicate Tracks(r: Record, calls: seq<Call>) {
    && Sane(r)
    && r.received == |Wire(calls)|
    && r.stored == Prefix(Wire(calls), MAX_WIRE_BYTES)
    && (r.requested <==> Request(true) in calls)
    && (r.done <==> DoneCall in calls)
    && r.details == LastOf(Details(calls))
    && (r.errors == [] <==> Clean(calls))
    && (Clean(calls) ==> r.usage == LastOf(Usages(calls)))
  }

  /** One more call is clean exactly when the calls were and the record finds nothing wrong. */
  lemma CleanMore(past: seq<Call>, c: Call, r: Record)
    requires Tracks(r, past)
    ensures Clean(past + [c]) <==> Clean(past) && CallOk(r, c)
  {
    var all := past + [c];
    assert all[..|past|] == past && all[|past|] == c;
    if Clean(past) {
      UsagesMore(Usages(past), UsageOf(c));
      DetailsMore(Details(past), DetailsOf(c));
      assert forall i :: 0 <= i < |past| ==> all[i] == past[i];
    } else if Clean(all) {
      FewerClean(past, c);
    }
  }

  lemma FewerClean(past: seq<Call>, c: Call)
    requires Clean(past + [c])
    ensures Clean(past)
  {
    var all := past + [c];
    assert all[..|past|] == past;
    assert forall i :: 0 <= i < |past| ==> all[i] == past[i];
    var (us, vs) := (Usages(past), Usages(all));
    assert forall i :: 0 <= i < |us| ==> us[i] == vs[i];
    var (ds, es) := (Details(past), Details(all));
    assert forall i :: 0 <= i < |ds| ==> ds[i] == es[i];
  }

  lemma UsagesMore(us: seq<Json>, u: Json)
    requires AllUsagesOk(us) && NonDecreasing(us)
    ensures
      var vs := us + if u.Null? then [] else [u];
      (AllUsagesOk(vs) && NonDecreasing(vs)) <==>
        && (u.Null? || UsageOk(u))
        && (UsageOk(u) && us != [] ==> Completion(us[|us| - 1]) <= Completion(u))
  {
    if !u.Null? {
      var vs := us + [u];
      assert vs[|us|] == u;
      assert forall i :: 0 <= i < |us| ==> vs[i] == us[i];
    } else {
      assert us + [] == us;
    }
  }

  lemma DetailsMore(ds: seq<Json>, d: Option<Json>)
    requires Constant(ds)
    ensures
      Constant(ds + if d.None? then [] else [d.value]) <==> d.None? || ds == [] || d == LastOf(ds)
  {
    if d.Some? {
      var es := ds + [d.value];
      assert es[|ds|] == d.value;
      assert forall i :: 0 <= i < |ds| ==> es[i] == ds[i];
      if ds != [] {
        assert es[|ds| - 1] == ds[|ds| - 1];
      }
    } else {
      assert ds + [] == ds;
    }
  }

  lemma ChunkKeepsPrefix(r: Record, wire: Bytes, raw: Bytes)
    requires r.received == |wire| && r.stored == Prefix(wire, MAX_WIRE_BYTES)
    ensures StepChunk(r, raw).received == |wire + raw|
    ensures StepChunk(r, raw).stored == Prefix(wire + raw, MAX_WIRE_BYTES)
  {
  }

  lemma StepTracks(past: seq<Call>, c: Call, r: Record)
    requires Tracks(r, past)
    ensures Tracks(Step(r, c), past + [c])
  {
    var (all, r') := (past + [c], Step(r, c));
    assert all[..|past|] == past && all[|past|] == c;
    StepFacts(r, c);
    StepErrors(r, c);
    CleanMore(past, c, r);
    if c.Chunk? {
      ChunkKeepsPrefix(r, Wire(past), c.raw);
    } else {
      assert Wire(past) + [] == Wire(past);
    }
    assert r'.details == LastOf(Details(all));
    assert Clean(all) ==> r'.usage == LastOf(Usages(all));
  }

  lemma {:induction false} ReplayTracks(calls: seq<Call>)
    ensures Tracks(Replay(calls), calls)
  {
    if calls != [] {
      var (past, c) := (calls[..|calls| - 1], calls[|calls| - 1]);
      ReplayTracks(past);
      StepTracks(past, c, Replay(past));
      assert past + [c] == calls;
    } else {
      assert Tracks(Fresh, []);
    }
  }

  /** Whatever arrives, the bytes on file are the first ones that arrived, up to the bound. */
  lemma StoredIsPrefix(calls: seq<Call>)
    ensures Replay(calls).stored == Prefix(Wire(calls), 4194304)
    ensures Replay(calls).received == |Wire(calls)|
  {
    ReplayTracks(calls);
  }

  // ------------------------------------------------------------------
  // Exactly when a capture is valid
  // ------------------------------------------------------------------

  /** The model names that object events carried. */
  function Models(calls: seq<Call>): (r: set<string>) {
    if calls == [] then {}
    else
      var c := calls[|calls| - 1];
      Models(calls[..|calls| - 1])
      + if c.Event? && c.data.Obj? && Get(c.data, "model").Str? then {Get(c.data, "model").s} else {}
  }

  /** The finish reason of an event's first choice, or null. */
  function FinishOf(c: Call): (j: Json) {
    if c.Event? && c.data.Obj? && Truthy(Get(c.data, "choices")) && !IndexRaises(Get(c.data, "choices"))
    then Get(FirstObject(Get(c.data, "choices")), "finish_reason") else Null
  }

  /** The last finish reason that is not null. */
  function LastFinish(calls: seq<Call>): (j: Json) {
    if calls == [] then Null
    else if !FinishOf(calls[|calls| - 1]).Null? then FinishOf(calls[|calls| - 1])
    else LastFinish(calls[..|calls| - 1])
  }

  lemma LabelsKept(r: Record, u: Json, x: Json)
    requires Sane(r)
    ensures StepUsage(r, u).models == r.models && StepUsage(r, u).finish == r.finish
    ensures StepExtension(r, x).models == r.models && StepExtension(r, x).finish == r.finish
  {
  }

  lemma EventLabels(r: Record, e: Json)
    requires Sane(r) && e.Obj?
    ensures
      var r' := StepEvent(r, e);
      && r'.models == r.models + (if Get(e, "model").Str? then {Get(e, "model").s} else {})
      && r'.finish == if FinishOf(Event(e)).Null? then r.finish else FinishOf(Event(e))
  {
    var (u, choices, x) := (Get(e, "usage"), Get(e, "choices"), Get(e, "sglext"));
    var r0 := StepModel(r, Get(e, "model"));
    LabelsKept(r0, u, x);
    if !IndexRaises(choices) {
      LabelsKept(StepFinish(StepUsage(r0, u), choices), u, x);
    }
  }

  lemma {:induction false} ReplayLabels(calls: seq<Call>)
    ensures Replay(calls).models == Models(calls) && Replay(calls).finish == LastFinish(calls)
  {
    if calls != [] {
      var (past, c) := (calls[..|calls| - 1], calls[|calls| - 1]);
      ReplayLabels(past);
      if c.Event? && c.data.Obj? {
        EventLabels(Replay(past), c.data);
      }
    }
  }

  /** The cached count, read off the calls: what the details say, or zero when they are elided. */
  function CachedBy(calls: seq<Call>, x: Expected): (n: Option<nat>) {
    var ds := Details(calls);
    if ds != [] then ExplicitCached(Some(ds[|ds| - 1]))
    else if x.zeroElision && x.wantsDetails then Some(0) else None
  }

  /** The final usage object reports the frozen lengths. */
  predicate FrozenLengths(u: Json, x: Expected) {
    && UsageOk(u)
    && Get(u, "prompt_tokens").n == x.promptLen
    && Completion(u) == x.maxTokens
    && Get(u, "total_tokens").n == x.promptLen + x.maxTokens
  }

  /** It reports no other cached count. */
  predicate SameCount(u: Json, cached: nat) {
    u.Obj? && Get(u, "prompt_tokens_details").Obj? ==>
      Get(Get(u, "prompt_tokens_details"), "cached_tokens") in {Null, Int(cached)}
  }

  ghost predicate GoodWire(calls: seq<Call>, x: Expected) {
    && Clean(calls)
    && Request(true) in calls && DoneCall in calls
    && Wire(calls) != []
    && Models(calls) == {MODEL_ID} && LastFinish(calls) == Str("length")
    && LastOf(Usages(calls)).Some? && FrozenLengths(LastOf(Usages(calls)).value, x)
  }

  lemma WireGoodExactly(calls: seq<Call>, x: Expected)
    ensures WireGood(Replay(calls), x) <==> GoodWire(calls, x)
    ensures GoodWire(calls, x) ==> Replay(calls).usage == LastOf(Usages(calls))
  {
    ReplayTracks(calls);
    ReplayLabels(calls);
  }

  /** Everything a valid capture asks for, said of the calls alone. */
  ghost predicate GoodCalls(calls: seq<Call>, x: Expected) {
    && GoodWire(calls, x)
    && var cached := CachedBy(calls, x);
    && cached.Some? && (cached.value == 0 || x.warmup)
    && SameCount(LastOf(Usages(calls)).value, cached.value)
  }

  lemma CachedExactly(calls: seq<Call>, x: Expected)
    requires GoodWire(calls, x)
    ensures Cached(Replay(calls), x, true) == CachedBy(calls, x)
  {
    ReplayTracks(calls);
    WireGoodExactly(calls, x);
  }

  lemma AggregateExactly(r: Record, cached: nat)
    requires Sane(r) && r.usage.Some?
    ensures AggregateAgrees(r, Some(cached)) <==> SameCount(r.usage.value, cached)
  {
  }

  /**
   Whatever the order of the calls, the verdict is exactly the condition on the calls; and a valid
   capture has the whole wire on file.
   */
  lemma ValidExactly(calls: seq<Call>, x: Expected, success: bool)
    ensures Valid(Replay(calls), x, success) <==> success && GoodCalls(calls, x)
    ensures Valid(Replay(calls), x, success) ==> Replay(calls).stored == Wire(calls)
  {
    WireGoodExactly(calls, x);
    StoredIsPrefix(calls);
    if success && GoodWire(calls, x) {
      CachedExactly(calls, x);
      var cached := CachedBy(calls, x);
      if cached.Some? {
        AggregateExactly(Replay(calls), cached.value);
      }
    }
  }

  // ------------------------------------------------------------------
  // What is read off usage and details
  // ------------------------------------------------------------------

  lemma UsageIs(u: Json)
    ensures UsageOk(u) <==>
            && u.Obj?
            && Get(u, "prompt_tokens").Int? && Get(u, "prompt_tokens").n >= 0
            && Get(u, "completion_tokens").Int? && Get(u, "completion_tokens").n >= 0
            && Get(u, "total_tokens").Int? && Get(u, "total_tokens").n >= 0
    ensures UsageOk(u) ==> Completion(u) == Get(u, "completion_tokens").n
  {
  }

  /** Cache details report the sum of device, host and storage tokens, storage being optional. */
  lemma CachedIs(d: Json, n: nat)
    ensures ExplicitCached(Some(d)) == Some(n) <==>
            && d.Obj?
            && Get(d, "device").Int? && Get(d, "device").n >= 0 && Get(d, "host").Int? && Get(d, "host").n >= 0
            && var storage := Get(d, "storage");
            || (storage.Null? && n == Get(d, "device").n + Get(d, "host").n)
            || (storage.Int? && storage.n >= 0 && n == Get(d, "device").n + Get(d, "host").n + storage.n)
  {
  }

  /** Without details nothing is reported explicitly. */
  lemma NoDetails()
    ensures ExplicitCached(None).None?
  {
  }
}

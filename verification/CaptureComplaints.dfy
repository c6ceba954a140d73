/** Which complaints a capture makes, call by call and at its end. */
module CaptureComplaints {
  import opened Common
  import opened Json
  import opened Capture
  import opened CaptureMeaning

  /** What is wrong with a usage object, given the one before it. */
  function UsageComplaints(last: Option<Json>, u: Json): (ps: seq<Problem>)
    requires last.Some? ==> UsageOk(last.value)
  {
    if u.Null? then []
    else if !UsageOk(u) then [InvalidUsage]
    else if last.Some? && Get(u, "completion_tokens").n < Get(last.value, "completion_tokens").n then [DecreasingUsage]
    else []
  }

  /** What is wrong with an extension, given the details before it. */
  function ExtensionComplaints(last: Option<Json>, x: Json): (ps: seq<Problem>) {
    if x.Null? then []
    else if !x.Obj? then [InvalidExtension]
    else if "cached_tokens_details" in x.fields && last.Some? && last != Some(Get(x, "cached_tokens_details"))
    then [ChangingDetails]
    else []
  }

  /** What one call adds to the complaints. */
  lemma CallComplaints(r: Record, c: Call)
    requires Sane(r)
    ensures Step(r, c).errors == r.errors +
            match c
            case Chunk(raw) => if r.received + |raw| > 4194304 then [WireLimit] else []
            case Event(e) =>
              if !e.Obj? then [NonObject]
              else UsageComplaints(r.usage, Get(e, "usage")) + ExtensionComplaints(r.details, ExtensionOf(c))
            case _ => []
  {
    if c.Event? && c.data.Obj? {
      EventComplaints(r, c.data);
    }
  }

  lemma UsageAdds(r: Record, u: Json)
    requires Sane(r)
    ensures StepUsage(r, u).errors == r.errors + UsageComplaints(r.usage, u)
    ensures StepUsage(r, u).details == r.details
  {
  }

  lemma ExtensionAdds(r: Record, x: Json)
    ensures StepExtension(r, x).errors == r.errors + ExtensionComplaints(r.details, x)
  {
  }

  lemma EventComplaints(r: Record, e: Json)
    requires Sane(r) && e.Obj?
    ensures StepEvent(r, e).errors ==
            r.errors + (UsageComplaints(r.usage, Get(e, "usage"))
                        + ExtensionComplaints(r.details, ExtensionOf(Event(e))))
  {
    var (u, choices, x) := (Get(e, "usage"), Get(e, "choices"), Get(e, "sglext"));
    var r0 := StepModel(r, Get(e, "model"));
    var r1 := StepUsage(r0, u);
    UsageAdds(r0, u);
    if IndexRaises(choices) {
      assert ExtensionComplaints(r.details, Null) == [];
    } else {
      ExtensionAdds(StepFinish(r1, choices), x);
      Assoc(r.errors, UsageComplaints(r.usage, u), ExtensionComplaints(r.details, x));
    }
  }

  /** A complaint that a call makes, before the end. */
  predicate Early(p: Problem) {
    || p.WireLimit? || p.NonObject? || p.InvalidUsage? || p.DecreasingUsage?
    || p.InvalidExtension? || p.ChangingDetails?
  }

  predicate AllEarly(ps: seq<Problem>) { forall i :: 0 <= i < |ps| ==> Early(ps[i]) }

  lemma CallIsEarly(r: Record, c: Call)
    requires Sane(r) && AllEarly(r.errors)
    ensures AllEarly(Step(r, c).errors)
  {
    CallComplaints(r, c);
  }

  lemma {:induction false} CallsAreEarly(calls: seq<Call>)
    ensures AllEarly(Replay(calls).errors)
  {
    if calls != [] {
      CallsAreEarly(calls[..|calls| - 1]);
      CallIsEarly(Replay(calls[..|calls| - 1]), calls[|calls| - 1]);
    }
  }

  lemma Four(
    p: Problem, past: seq<Problem>, a: bool, b: bool, c: bool, d: bool, q: (Problem, Problem, Problem, Problem))
    ensures p in past + If(a, q.0) + If(b, q.1) + If(c, q.2) + If(d, q.3) <==>
            p in past || (a && p == q.0) || (b && p == q.1) || (c && p == q.2) || (d && p == q.3)
  {
  }

  /** Which complaints there are about what was not observed, besides those made before. */
  lemma ObservedMembers(p: Problem, r: Record)
    ensures p in ObservedProblems(r) <==>
            || p in r.errors
            || (p.RequestNotObserved? && !r.requested)
            || (p.WireNotObserved? && r.stored == [])
            || (p.WrongModel? && r.models != {"nvidia/Qwen3.8-Flash-Next-NVFP4"})
            || (p.MissingDone? && !r.done)
  {
    Four(p, r.errors, !r.requested, r.stored == [], r.models != {MODEL_ID}, !r.done,
         (RequestNotObserved, WireNotObserved, WrongModel, MissingDone));
  }

  /** And which about finish and usage. */
  lemma WireMembers(p: Problem, r: Record, x: Expected)
    requires Sane(r)
    ensures p in WireProblems(r, x) <==>
            || p in ObservedProblems(r)
            || (p.InvalidFinish? && r.finish != Str("length"))
            || (p.MissingUsage? && r.usage.None?)
            || (p.UsageLength? && r.usage.Some?
                && !(Get(r.usage.value, "prompt_tokens").n == x.promptLen
                     && Get(r.usage.value, "completion_tokens").n == x.maxTokens))
            || (p.UsageTotal? && r.usage.Some?
                && Get(r.usage.value, "total_tokens").n !=
                     Get(r.usage.value, "prompt_tokens").n + Get(r.usage.value, "completion_tokens").n)
  {
    Four(p, ObservedProblems(r), r.finish != Str("length"), r.usage.None?,
         r.usage.Some? && !LengthsMatch(r.usage.value, x), r.usage.Some? && !TotalMatches(r.usage.value),
         (InvalidFinish, MissingUsage, UsageLength, UsageTotal));
  }

  /** And which about the cache and the request. */
  lemma CacheMembers(
    p: Problem, past: seq<Problem>, agrees: bool, cached: Option<nat>, warmup: bool, success: bool)
    ensures p in CacheProblems(past, agrees, cached, warmup, success) <==>
            || p in past
            || (p.ContradictoryCache? && !agrees)
            || (p.CacheMissing? && cached.None?)
            || (p.ColdCacheHit? && cached.Some? && cached.value > 0 && !warmup)
            || (p.RequestFailed? && !success)
  {
    Four(p, past, !agrees, cached.None?, cached.Some? && cached.value != 0 && !warmup, !success,
         (ContradictoryCache, CacheMissing, ColdCacheHit, RequestFailed));
  }

  /** The complaints about the request as a whole. */
  predicate OfRequest(p: Problem) {
    || p.RequestNotObserved? || p.WireNotObserved? || p.WrongModel?
    || p.MissingDone? || p.InvalidFinish? || p.RequestFailed?
  }

  lemma NotYet(p: Problem, ps: seq<Problem>)
    requires OfRequest(p) && AllEarly(ps)
    ensures p !in ps
  {
  }

  lemma RecordComplaints(p: Problem, r: Record, x: Expected, success: bool)
    requires Sane(r) && OfRequest(p) && p !in r.errors
    ensures p in AllProblems(r, x, success) <==>
            match p
            case RequestNotObserved => !r.requested
            case WireNotObserved => r.stored == []
            case WrongModel => r.models != {"nvidia/Qwen3.8-Flash-Next-NVFP4"}
            case MissingDone => !r.done
            case InvalidFinish => r.finish != Str("length")
            case _ => !success
  {
    var cached := Cached(r, x, success);
    ObservedMembers(p, r);
    WireMembers(p, r, x);
    CacheMembers(p, WireProblems(r, x), AggregateAgrees(r, cached), cached, x.warmup, success);
  }

  /** When they are made, said of the calls. */
  lemma FinalComplaints(p: Problem, calls: seq<Call>, x: Expected, success: bool)
    requires OfRequest(p)
    ensures p in AllProblems(Replay(calls), x, success) <==>
            match p
            case RequestNotObserved => Request(true) !in calls
            case WireNotObserved => Wire(calls) == []
            case WrongModel => Models(calls) != {"nvidia/Qwen3.8-Flash-Next-NVFP4"}
            case MissingDone => DoneCall !in calls
            case InvalidFinish => LastFinish(calls) != Str("length")
            case _ => !success
  {
    RequestFacts(calls);
    CallsAreEarly(calls);
    NotYet(p, Replay(calls).errors);
    RecordComplaints(p, Replay(calls), x, success);
  }

  lemma RequestFacts(calls: seq<Call>)
    ensures
      var r := Replay(calls);
      && (r.requested <==> Request(true) in calls) && (r.done <==> DoneCall in calls)
      && (r.stored == [] <==> Wire(calls) == [])
      && r.models == Models(calls) && r.finish == LastFinish(calls)
  {
    ReplayTracks(calls);
    ReplayLabels(calls);
  }
}

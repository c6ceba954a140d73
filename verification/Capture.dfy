/** The wire-capture record of one upstream request (scripts/upstream_capture.py). */
module Capture {
  import opened Common
  import opened Json

  const MAX_WIRE_BYTES := 4194304

  /** What the record is created with. */
  datatype Expected = Expected(promptLen: nat, maxTokens: int, wantsDetails: bool, warmup: bool, zeroElision: bool)

  /** One call on the record; a request says whether its payload is the frozen one. */
  datatype Call = Request(matches: bool) | Chunk(raw: Bytes) | Event(data: Json) | DoneCall

  datatype Problem =
    | WireLimit | NonObject | InvalidUsage | DecreasingUsage | InvalidExtension | ChangingDetails
    | RequestNotObserved | WireNotObserved | WrongModel | MissingDone | InvalidFinish
    | MissingUsage | UsageLength | UsageTotal
    | ContradictoryCache | CacheMissing | ColdCacheHit | RequestFailed

  datatype Record = Record(
    requested: bool, usage: Option<Json>, finish: Json, models: set<string>, details: Option<Json>,
    done: bool, errors: seq<Problem>, received: nat, stored: Bytes)

  const Fresh: Record := Record(false, None, Null, {}, None, false, [], 0, [])

  // ------------------------------------------------------------------
  // The calls
  // ------------------------------------------------------------------

  predicate UsageOk(u: Json) {
    && u.Obj?
    && IsCount(Get(u, "prompt_tokens")) && IsCount(Get(u, "completion_tokens")) && IsCount(Get(u, "total_tokens"))
  }

  function Completion(u: Json): (n: nat)
    requires UsageOk(u)
  {
    Get(u, "completion_tokens").n
  }

  /** The record's own usage, once there is one, is well formed. */
  predicate Sane(r: Record) { r.usage.Some? ==> UsageOk(r.usage.value) }

  function Complain(r: Record, p: Problem): (r': Record) { r.(errors := r.errors + [p]) }

  function StepChunk(r: Record, raw: Bytes): (r': Record) {
    var room := if |r.stored| < MAX_WIRE_BYTES then MAX_WIRE_BYTES - |r.stored| else 0;
    var kept := if |raw| <= room then raw else raw[..room];
    var r1 := r.(received := r.received + |raw|, stored := r.stored + kept);
    if r1.received > MAX_WIRE_BYTES then Complain(r1, WireLimit) else r1
  }

  function StepUsage(r: Record, u: Json): (r': Record)
    requires Sane(r)
    ensures Sane(r')
  {
    if u.Null? then r
    else if !UsageOk(u) then Complain(r, InvalidUsage)
    else
      var r1 := if r.usage.Some? && Completion(u) < Completion(r.usage.value) then Complain(r, DecreasingUsage) else r;
      r1.(usage := Some(u))
  }

  function StepFinish(r: Record, choices: Json): (r': Record)
    requires !IndexRaises(choices)
  {
    if Truthy(choices) && !Get(FirstObject(choices), "finish_reason").Null?
    then r.(finish := Get(FirstObject(choices), "finish_reason")) else r
  }

  function StepExtension(r: Record, x: Json): (r': Record) {
    if x.Null? then r
    else if !x.Obj? then Complain(r, InvalidExtension)
    else if "cached_tokens_details" !in x.fields then r
    else
      var d := x.fields["cached_tokens_details"];
      var r1 := if r.details.Some? && d != r.details.value then Complain(r, ChangingDetails) else r;
      r1.(details := Some(d))
  }

  function StepModel(r: Record, m: Json): (r': Record) {
    if m.Str? then r.(models := r.models + {m.s}) else r
  }

  /** One event; indexing `choices` may raise, and then the rest of the event is not looked at. */
  function StepEvent(r: Record, e: Json): (r': Record)
    requires Sane(r)
    ensures Sane(r')
  {
    if !e.Obj? then Complain(r, NonObject)
    else
      var r1 := StepUsage(StepModel(r, Get(e, "model")), Get(e, "usage"));
      var choices := Get(e, "choices");
      if IndexRaises(choices) then r1
      else StepExtension(StepFinish(r1, choices), Get(e, "sglext"))
  }

  function Step(r: Record, c: Call): (r': Record)
    requires Sane(r)
    ensures Sane(r')
  {
    match c
    case Request(ok) => if ok then r.(requested := true) else r
    case Chunk(raw) => StepChunk(r, raw)
    case Event(e) => StepEvent(r, e)
    case DoneCall => r.(done := true)
  }

  function Replay(calls: seq<Call>): (r: Record)
    ensures Sane(r)
  {
    if calls == [] then Fresh else Step(Replay(calls[..|calls| - 1]), calls[|calls| - 1])
  }

  // ------------------------------------------------------------------
  // The verdict
  // ------------------------------------------------------------------

  /** The cached-token count that explicit details report, if they report one. */
  function ExplicitCached(details: Option<Json>): (n: Option<nat>) {
    if details.None? || !details.value.Obj? then None
    else
      var d := details.value;
      var (device, host, storage) := (Get(d, "device"), Get(d, "host"), Get(d, "storage"));
      if !IsCount(device) || !IsCount(host) || !(storage.Null? || IsCount(storage)) then None
      else Some(device.n + host.n + if storage.Int? then storage.n else 0)
  }

  /** Everything but the cache observation. */
  predicate WireGood(r: Record, x: Expected)
    requires Sane(r)
  {
    && r.errors == [] && r.requested && r.stored != [] && r.models == {MODEL_ID} && r.done
    && r.finish == Str("length")
    && r.usage.Some?
    && Get(r.usage.value, "prompt_tokens").n == x.promptLen
    && Completion(r.usage.value) == x.maxTokens
    && Get(r.usage.value, "total_tokens").n == x.promptLen + x.maxTokens
  }

  function Cached(r: Record, x: Expected, success: bool): (n: Option<nat>)
    requires Sane(r)
  {
    var explicit := ExplicitCached(r.details);
    if explicit.Some? then explicit
    else if r.details.None? && x.zeroElision && x.wantsDetails && WireGood(r, x) && success then Some(0)
    else None
  }

  /** The aggregate count in the usage object, when there is one, must be the same number. */
  predicate AggregateAgrees(r: Record, cached: Option<nat>)
    requires Sane(r)
  {
    r.usage.Some? && Get(r.usage.value, "prompt_tokens_details").Obj? ==>
      var a := Get(Get(r.usage.value, "prompt_tokens_details"), "cached_tokens");
      a.Null? || (IsCount(a) && cached == Some(a.n))
  }

  predicate Valid(r: Record, x: Expected, success: bool)
    requires Sane(r)
  {
    var cached := Cached(r, x, success);
    && WireGood(r, x)
    && AggregateAgrees(r, cached)
    && cached.Some? && (cached.value == 0 || x.warmup)
    && success
  }

  // ------------------------------------------------------------------
  // The complaints behind the verdict
  // ------------------------------------------------------------------

  function If(wrong: bool, p: Problem): (r: seq<Problem>) { if wrong then [p] else [] }

  /** The complaints so far and those about what was not observed. */
  function ObservedProblems(r: Record): (ps: seq<Problem>) {
    r.errors
    + If(!r.requested, RequestNotObserved) + If(r.stored == [], WireNotObserved)
    + If(r.models != {MODEL_ID}, WrongModel) + If(!r.done, MissingDone)
  }

  /** All that `finalize` adds before it looks at the cache. */
  function WireProblems(r: Record, x: Expected): (ps: seq<Problem>)
    requires Sane(r)
  {
    ObservedProblems(r)
    + If(r.finish != Str("length"), InvalidFinish)
    + If(r.usage.None?, MissingUsage)
    + If(r.usage.Some? && !LengthsMatch(r.usage.value, x), UsageLength)
    + If(r.usage.Some? && !TotalMatches(r.usage.value), UsageTotal)
  }

  predicate LengthsMatch(u: Json, x: Expected)
    requires UsageOk(u)
  {
    Get(u, "prompt_tokens").n == x.promptLen && Completion(u) == x.maxTokens
  }

  predicate TotalMatches(u: Json)
    requires UsageOk(u)
  {
    Get(u, "total_tokens").n == Get(u, "prompt_tokens").n + Completion(u)
  }

  /** What `finalize` adds about the cache and the request's own success. */
  function CacheProblems(past: seq<Problem>, agrees: bool, cached: Option<nat>, warmup: bool, success: bool)
    : (ps: seq<Problem>)
  {
    past + If(!agrees, ContradictoryCache)
    + If(cached.None?, CacheMissing) + If(cached.Some? && cached.value != 0 && !warmup, ColdCacheHit)
    + If(!success, RequestFailed)
  }

  /** All complaints, in the order in which they are made. */
  function AllProblems(r: Record, x: Expected, success: bool): (ps: seq<Problem>)
    requires Sane(r)
  {
    var cached := Cached(r, x, success);
    CacheProblems(WireProblems(r, x), AggregateAgrees(r, cached), cached, x.warmup, success)
  }

  lemma NoWireProblems(r: Record, x: Expected)
    requires Sane(r)
    ensures WireGood(r, x) <==> WireProblems(r, x) == []
  {
  }

  /** Valid means that there is nothing to complain about. */
  lemma NoProblems(r: Record, x: Expected, success: bool)
    requires Sane(r)
    ensures Valid(r, x, success) <==> AllProblems(r, x, success) == []
  {
    NoWireProblems(r, x);
  }

  // ------------------------------------------------------------------
  // The object
  // ------------------------------------------------------------------

  class CaptureRecord {
    const expected: Expected
    var requested: bool
    var usage: Option<Json>
    var finish: Json
    var models: set<string>
    var details: Option<Json>
    var done: bool
    var errors: seq<Problem>
    var received: nat
    var stored: Bytes

    function View(): (r: Record)
      reads this
    {
      Record(requested, usage, finish, models, details, done, errors, received, stored)
    }

    constructor (x: Expected)
      ensures View() == Fresh && expected == x
    {
      expected := x;
      requested, usage, finish, models, details := false, None, Null, {}, None;
      done, errors, received, stored := false, [], 0, [];
    }

    method ObserveRequest(matches: bool) returns (raised: bool)
      modifies this
      ensures raised == (old(requested) || !matches)
      ensures View() == if matches then old(View()).(requested := true) else old(View())
    {
      raised := requested || !matches;
      if !raised {
        requested := true;
      }
    }

    method ObserveChunk(raw: Bytes) returns (raised: bool)
      modifies this
      ensures View() == StepChunk(old(View()), raw)
      ensures raised == (received > MAX_WIRE_BYTES)
    {
      received := received + |raw|;
      var room := if |stored| < MAX_WIRE_BYTES then MAX_WIRE_BYTES - |stored| else 0;
      var retained := if |raw| <= room then raw else raw[..room];
      stored := stored + retained;
      raised := received > MAX_WIRE_BYTES;
      if raised {
        errors := errors + [WireLimit];
      }
    }

    method ObserveUsage(u: Json)
      requires Sane(View())
      modifies this
      ensures View() == StepUsage(old(View()), u)
    {
      if !u.Null? {
        if !UsageOk(u) {
          errors := errors + [InvalidUsage];
        } else {
          if usage.Some? && Completion(u) < Completion(usage.value) {
            errors := errors + [DecreasingUsage];
          }
          usage := Some(u);
        }
      }
    }

    method ObserveExtension(x: Json)
      modifies this
      ensures View() == StepExtension(old(View()), x)
    {
      if !x.Null? {
        if !x.Obj? {
          errors := errors + [InvalidExtension];
        } else if "cached_tokens_details" in x.fields {
          var d := x.fields["cached_tokens_details"];
          if details.Some? && d != details.value {
            errors := errors + [ChangingDetails];
          }
          details := Some(d);
        }
      }
    }

    method ObserveEvent(e: Json) returns (raised: bool)
      requires Sane(View())
      modifies this
      ensures View() == StepEvent(old(View()), e)
      ensures raised == (e.Obj? && IndexRaises(Get(e, "choices")))
    {
      raised := false;
      if !e.Obj? {
        errors := errors + [NonObject];
        return;
      }
      if Get(e, "model").Str? {
        models := models + {Get(e, "model").s};
      }
      ObserveUsage(Get(e, "usage"));
      var choices := Get(e, "choices");
      if IndexRaises(choices) {
        return true;
      }
      if Truthy(choices) && !Get(FirstObject(choices), "finish_reason").Null? {
        finish := Get(FirstObject(choices), "finish_reason");
      }
      ObserveExtension(Get(e, "sglext"));
    }

    method ComplainIf(wrong: bool, p: Problem)
      modifies this`errors
      ensures errors == old(errors) + If(wrong, p)
    {
      if wrong {
        errors := errors + [p];
      }
    }

    /** Complaints about the request, the wire, the model, the end and the usage. */
    method FinalizeWire()
      requires Sane(View())
      modifies this`errors
      ensures errors == WireProblems(old(View()), expected)
    {
      ComplainIf(!requested, RequestNotObserved);
      ComplainIf(stored == [], WireNotObserved);
      ComplainIf(models != {MODEL_ID}, WrongModel);
      ComplainIf(!done, MissingDone);
      ComplainIf(finish != Str("length"), InvalidFinish);
      ComplainIf(usage.None?, MissingUsage);
      ComplainIf(usage.Some? && !LengthsMatch(usage.value, expected), UsageLength);
      ComplainIf(usage.Some? && !TotalMatches(usage.value), UsageTotal);
    }

    /** Complaints about the cache and the request's own success, and the cached count. */
    method FinalizeCache(ghost r: Record, success: bool) returns (cached: Option<nat>)
      requires Sane(r) && r == View().(errors := r.errors)
      requires errors == WireProblems(r, expected)
      modifies this`errors
      ensures cached == Cached(r, expected, success)
      ensures errors == AllProblems(r, expected, success)
    {
      NoWireProblems(r, expected);
      cached := ExplicitCached(details);
      if cached.None? && details.None? && expected.zeroElision && expected.wantsDetails && errors == [] && success {
        cached := Some(0);
      }
      ComplainIf(!AggregateAgrees(View(), cached), ContradictoryCache);
      ComplainIf(cached.None?, CacheMissing);
      ComplainIf(cached.Some? && cached.value != 0 && !expected.warmup, ColdCacheHit);
      ComplainIf(!success, RequestFailed);
    }

    /** `finalize`: all complaints in order, the verdict, the cached count and the lengths it reports. */
    method Finalize(success: bool) returns (valid: bool, cached: Option<nat>, outputLen: int, promptLen: int)
      requires Sane(View())
      modifies this`errors
      ensures View() == old(View()).(errors := AllProblems(old(View()), expected, success))
      ensures valid == Valid(old(View()), expected, success)
      ensures cached == Cached(old(View()), expected, success)
      ensures valid ==> outputLen == expected.maxTokens && promptLen == expected.promptLen
      ensures !valid ==> outputLen == 0 && promptLen == 0
    {
      ghost var r := View();
      NoProblems(r, expected, success);
      FinalizeWire();
      cached := FinalizeCache(r, success);
      valid := errors == [];
      outputLen, promptLen := 0, 0;
      if valid {
        outputLen, promptLen := Completion(usage.value), Get(usage.value, "prompt_tokens").n;
      }
    }
  }
}

/** The reducer that turns decoded events into one stream result (scripts/http_client.py). */
module StreamReducer {
  import opened Common
  import opened Json
  import opened SseDecoder

  /** The bytes of `[DONE]`. */
  const DONE: seq<Byte> := [91, 68, 79, 78, 69, 93]

  datatype Usage = Usage(prompt: nat, completion: nat, total: nat)

  datatype ErrorKind = StreamFormat | InvalidUsage | MissingDone | MissingUsage

  datatype FragmentKind = Content | Reasoning

  datatype RawEvent = Unparseable(line: seq<Byte>) | Event(value: Json)

  datatype Result = Result(
    content: string,
    reasoning: string,
    finishReason: Option<Json>,
    usage: Option<Usage>,
    model: Option<string>,
    error: Option<ErrorKind>,
    ttft: Option<real>,
    firstKind: Option<FragmentKind>,
    eventCount: nat,
    sawDone: bool,
    rawEvents: seq<RawEvent>)
  {
    /** The fields that are not measurements of time. */
    function Untimed(): (r: Result) {
      this.(ttft := None)
    }
  }

  const Fresh: Result := Result("", "", None, None, None, None, None, None, 0, false, [])

  /** What the reducer is run with: a JSON parser, a clock read per event, and flags. */
  datatype Env = Env(parse: seq<Byte> -> Option<Json>, clock: nat -> real, t0: real, captureRaw: bool)

  // ------------------------------------------------------------------
  // One line of one event
  // ------------------------------------------------------------------

  function ValidateUsage(u: Json): (r: Option<Usage>) {
    if && u.Obj?
       && IsCount(Get(u, "prompt_tokens"))
       && IsCount(Get(u, "completion_tokens"))
       && IsCount(Get(u, "total_tokens"))
    then Some(Usage(Get(u, "prompt_tokens").n, Get(u, "completion_tokens").n, Get(u, "total_tokens").n))
    else None
  }

  function WithUsage(r: Result, u: Json): (r': Result) {
    if u.Null? then r
    else match ValidateUsage(u)
         case Some(v) => r.(usage := Some(v))
         case None => r.(error := Some(InvalidUsage))
  }

  function Delta(choice: Json): (d: Json)
    requires choice.Obj?
    ensures d.Obj?
  {
    var d := Get(choice, "delta");
    if d.Obj? then d else Obj(map[])
  }

  function Text(j: Json): (s: string) {
    if j.Str? then j.s else ""
  }

  function ContentPiece(delta: Json): (s: string)
    requires delta.Obj?
  {
    Text(Get(delta, "content"))
  }

  /** The first non-empty reasoning field wins. */
  function ReasoningPiece(delta: Json): (s: string)
    requires delta.Obj?
  {
    var first := Text(Get(delta, "reasoning_content"));
    if first != "" then first else Text(Get(delta, "reasoning"))
  }

  function WithFirst(r: Result, piece: string, kind: FragmentKind, now: real): (r': Result) {
    if piece != "" && r.ttft.None? then r.(ttft := Some(now), firstKind := Some(kind)) else r
  }

  function WithDelta(r: Result, delta: Json, now: real): (r': Result)
    requires delta.Obj?
  {
    var c := ContentPiece(delta);
    var g := ReasoningPiece(delta);
    var r1 := WithFirst(r, c, Content, now);
    var r2 := WithFirst(r1.(content := r1.content + c), g, Reasoning, now);
    r2.(reasoning := r2.reasoning + g)
  }

  function WithChoice(r: Result, choice: Json, now: real): (r': Result)
    requires choice.Obj?
  {
    var f := Get(choice, "finish_reason");
    WithDelta(if Truthy(f) then r.(finishReason := Some(f)) else r, Delta(choice), now)
  }

  /** The part of an object event that cannot raise. */
  function WithHeader(r: Result, evt: Json, env: Env): (r': Result)
    requires evt.Obj?
  {
    var r1 := r.(
      eventCount := r.eventCount + 1,
      rawEvents := if env.captureRaw then r.rawEvents + [Event(evt)] else r.rawEvents,
      model := if Get(evt, "model").Str? then Some(Get(evt, "model").s) else r.model);
    WithUsage(r1, Get(evt, "usage"))
  }

  function ConsumeObject(r: Result, evt: Json, env: Env): (out: (Result, bool))
    requires evt.Obj?
  {
    var r1 := WithHeader(r, evt, env);
    var choices := Get(evt, "choices");
    if !Truthy(choices) then (r1, false)
    else if IndexRaises(choices) then (r1, true)
    else (WithChoice(r1, FirstObject(choices), env.clock(r.eventCount) - env.t0), false)
  }

  /** One data line: the sentinel, an unparseable line, a non-object, or an object. */
  function ConsumeLine(r: Result, line: seq<Byte>, env: Env): (out: (Result, bool)) {
    if line == DONE then (r.(sawDone := true), false)
    else match env.parse(line)
         case None =>
           (r.(rawEvents := r.rawEvents + [Unparseable(line)],
               error := if r.error.None? then Some(StreamFormat) else r.error), false)
         case Some(evt) => if evt.Obj? then ConsumeObject(r, evt, env) else (r, false)
  }

  // ------------------------------------------------------------------
  // Events and whole streams
  // ------------------------------------------------------------------

  /** The data lines of one event; empty lines count only when they are the whole event. */
  function DataLines(payload: seq<Byte>): (r: seq<Line>) {
    if Lacks(payload, LF) then [payload] else NonEmpty(Split(payload))
  }

  function NonEmpty(ls: seq<Line>): (r: seq<Line>) {
    if ls == [] then [] else (if ls[0] == [] then [] else [ls[0]]) + NonEmpty(ls[1..])
  }

  /** Consumes lines in order; a raise ends it. */
  function Fold(r: Result, lines: seq<Line>, env: Env): (out: (Result, bool))
    decreases |lines|
  {
    if lines == [] then (r, false)
    else
      var (r1, raised) := ConsumeLine(r, lines[0], env);
      if raised then (r1, true) else Fold(r1, lines[1..], env)
  }

  /** Consumes events until one leaves the sentinel seen, or one raises. */
  function Reduce(r: Result, events: seq<seq<Byte>>, env: Env): (out: (Result, bool))
    decreases |events|
  {
    if events == [] || r.sawDone then (r, false)
    else
      var (r1, raised) := Fold(r, DataLines(events[0]), env);
      if raised then (r1, true) else Reduce(r1, events[1..], env)
  }

  function Finish(r: Result): (r': Result) {
    if !r.sawDone then r.(error := Some(MissingDone))
    else if r.error == Some(InvalidUsage) then r
    else if r.usage.None? then r.(error := Some(MissingUsage))
    else r
  }

  /** How reading ended: end of file, or a failed read. */
  datatype ReadEnd = Eof | ReadFailed

  /** The events a stream of these bytes delivers. */
  function Delivered(bytes: seq<Byte>, end: ReadEnd): (r: seq<seq<Byte>>) {
    if end.Eof? then Parse(bytes) else FeedStep(Start, bytes).0
  }

  /** The result of a stream that delivers these events. */
  function Conclude(events: seq<seq<Byte>>, end: ReadEnd, env: Env): (r: Result) {
    var (r, raised) := Reduce(Fresh, events, env);
    if raised || (end.ReadFailed? && !r.sawDone) then r.(error := Some(StreamFormat)) else Finish(r)
  }

  /** The result of a stream as a function of its bytes, cut nowhere. */
  function Outcome(bytes: seq<Byte>, end: ReadEnd, env: Env): (r: Result) {
    Conclude(Delivered(bytes, end), end, env)
  }

  /** The result object the client fills in place. */
  class StreamResult {
    var content: string
    var reasoning: string
    var finishReason: Option<Json>
    var usage: Option<Usage>
    var model: Option<string>
    var error: Option<ErrorKind>
    var ttft: Option<real>
    var firstKind: Option<FragmentKind>
    var eventCount: nat
    var sawDone: bool
    var rawEvents: seq<RawEvent>

    function View(): (r: Result)
      reads this
    {
      Result(content, reasoning, finishReason, usage, model, error, ttft, firstKind, eventCount, sawDone, rawEvents)
    }

    constructor ()
      ensures View() == Fresh
    {
      content, reasoning, finishReason, usage, model, error := "", "", None, None, None, None;
      ttft, firstKind, eventCount, sawDone, rawEvents := None, None, 0, false, [];
    }

    /** Marks the first fragment and appends the pieces of one delta. */
    method ConsumeDelta(delta: Json, now: real)
      requires delta.Obj?
      modifies this
      ensures View() == WithDelta(old(View()), delta, now)
    {
      var piece := ContentPiece(delta);
      if piece != "" {
        if ttft.None? {
          ttft, firstKind := Some(now), Some(Content);
        }
        content := content + piece;
      }
      piece := ReasoningPiece(delta);
      if piece != "" {
        if ttft.None? {
          ttft, firstKind := Some(now), Some(Reasoning);
        }
        reasoning := reasoning + piece;
      }
    }

    method ConsumeHeader(evt: Json, env: Env)
      requires evt.Obj?
      modifies this
      ensures View() == WithHeader(old(View()), evt, env)
    {
      eventCount := eventCount + 1;
      if env.captureRaw {
        rawEvents := rawEvents + [Event(evt)];
      }
      if Get(evt, "model").Str? {
        model := Some(Get(evt, "model").s);
      }
      var u := Get(evt, "usage");
      if !u.Null? {
        var v := ValidateUsage(u);
        if v.Some? {
          usage := v;
        } else {
          error := Some(InvalidUsage);
        }
      }
    }

    method ConsumeObjectEvent(evt: Json, env: Env) returns (raised: bool)
      requires evt.Obj?
      modifies this
      ensures (View(), raised) == ConsumeObject(old(View()), evt, env)
    {
      var now := env.clock(eventCount) - env.t0;
      ConsumeHeader(evt, env);
      var choices := Get(evt, "choices");
      if !Truthy(choices) {
        return false;
      }
      if IndexRaises(choices) {
        return true;
      }
      var choice := FirstObject(choices);
      if Truthy(Get(choice, "finish_reason")) {
        finishReason := Some(Get(choice, "finish_reason"));
      }
      ConsumeDelta(Delta(choice), now);
      raised := false;
    }

    method ConsumeEvent(payload: seq<Byte>, env: Env) returns (raised: bool)
      modifies this
      ensures (View(), raised) == Fold(old(View()), DataLines(payload), env)
      decreases |payload|, 1
    {
      if Lacks(payload, LF) {
        FoldOne(View(), payload, env);
        raised := ConsumeOne(payload, env);
        return;
      }
      var subs := Split(payload);
      ghost var all := Fold(View(), DataLines(payload), env);
      raised := false;
      assert subs[0..] == subs;
      for i := 0 to |subs|
        invariant !raised
        invariant Fold(View(), NonEmpty(subs[i..]), env) == all
      {
        assert subs[i..][1..] == subs[i + 1..];
        assert NonEmpty(subs[i..]) ==
            if subs[i] == [] then NonEmpty(subs[i + 1..]) else [subs[i]] + NonEmpty(subs[i + 1..]);
        if subs[i] != [] {
          FoldCons(View(), subs[i], NonEmpty(subs[i + 1..]), env);
          raised := ConsumeOne(subs[i], env);
          if raised {
            return;
          }
        }
      }
    }

    method ConsumeOne(line: seq<Byte>, env: Env) returns (raised: bool)
      modifies this
      ensures (View(), raised) == ConsumeLine(old(View()), line, env)
    {
      raised := false;
      if line == DONE {
        sawDone := true;
        return;
      }
      var parsed := env.parse(line);
      if parsed.None? {
        rawEvents := rawEvents + [Unparseable(line)];
        if error.None? {
          error := Some(StreamFormat);
        }
      } else if parsed.value.Obj? {
        raised := ConsumeObjectEvent(parsed.value, env);
      }
    }
  }

  lemma FoldOne(r: Result, line: Line, env: Env)
    ensures Fold(r, [line], env) == ConsumeLine(r, line, env)
  {
    assert [line][1..] == [];
  }

  lemma FoldCons(r: Result, line: Line, rest: seq<Line>, env: Env)
    ensures
      var (r1, raised) := ConsumeLine(r, line, env);
      Fold(r, [line] + rest, env) == if raised then (r1, true) else Fold(r1, rest, env)
  {
    assert ([line] + rest)[1..] == rest;
  }

  lemma {:induction false} ReduceAppend(r: Result, a: seq<seq<Byte>>, b: seq<seq<Byte>>, env: Env)
    ensures
      var (r1, raised) := Reduce(r, a, env);
      Reduce(r, a + b, env) == if raised then (r1, true) else Reduce(r1, b, env)
    decreases |a|
  {
    if a == [] {
      assert a + b == b;
    } else if !r.sawDone {
      assert (a + b)[1..] == a[1..] + b;
      var (r1, raised) := Fold(r, DataLines(a[0]), env);
      if !raised {
        ReduceAppend(r1, a[1..], b, env);
      }
    } else {
      assert Reduce(r, b, env) == (r, false);
    }
  }

  /** Consumes events as the read loop does: stop as soon as the sentinel is seen. */
  method ConsumeAll(res: StreamResult, events: seq<seq<Byte>>, env: Env) returns (raised: bool)
    modifies res
    ensures (res.View(), raised) == Reduce(old(res.View()), events, env)
  {
    ghost var all := Reduce(res.View(), events, env);
    raised := false;
    assert events[0..] == events;
    for i := 0 to |events|
      invariant Reduce(res.View(), events[i..], env) == all
    {
      if res.sawDone {
        return;
      }
      assert events[i..][1..] == events[i + 1..];
      raised := res.ConsumeEvent(events[i], env);
      if raised {
        return;
      }
    }
  }

  /** The request loop over whatever chunks arrive; its result is a function of the bytes. */
  method StreamRequest(chunks: seq<seq<Byte>>, end: ReadEnd, env: Env) returns (result: Result)
    ensures result == Outcome(Flatten(chunks), end, env)
  {
    var res := new StreamResult();
    var decoder := new Decoder();
    ghost var (events, last) := FeedAll(Start, chunks);
    ghost var all := Reduce(Fresh, events, env);
    FeedFacts(chunks, end, env);
    var i, raised := 0, false;
    assert chunks[0..] == chunks;
    while i < |chunks| && !res.sawDone
      invariant 0 <= i <= |chunks|
      invariant Reduce(res.View(), FeedAll(decoder.View(), chunks[i..]).0, env) == all
      invariant FeedAll(decoder.View(), chunks[i..]).1 == last
    {
      assert chunks[i..][1..] == chunks[i + 1..];
      ghost var later := FeedAll(FeedStep(decoder.View(), chunks[i]).1, chunks[i + 1..]).0;
      var es := decoder.Feed(chunks[i]);
      ReduceAppend(res.View(), es, later, env);
      raised := ConsumeAll(res, es, env);
      i := i + 1;
      if raised {
        return res.View().(error := Some(StreamFormat));
      }
    }
    if !res.sawDone {
      if end.ReadFailed? {
        return res.View().(error := Some(StreamFormat));
      }
      var es := decoder.Close();
      raised := ConsumeAll(res, es, env);
      if raised {
        return res.View().(error := Some(StreamFormat));
      }
    }
    result := Finish(res.View());
  }

  // ------------------------------------------------------------------
  // What a result means
  // ------------------------------------------------------------------

  /** The data lines actually consumed: up to the end of the first event that holds the sentinel. */
  function ConsumedLines(events: seq<seq<Byte>>): (r: seq<Line>) {
    if events == [] then []
    else if DONE in DataLines(events[0]) then DataLines(events[0])
    else DataLines(events[0]) + ConsumedLines(events[1..])
  }

  /** The object a line carries, if it carries one. */
  function ObjectOf(line: Line, env: Env): (r: Option<Json>) {
    if line == DONE then None
    else match env.parse(line)
         case Some(j) => if j.Obj? then Some(j) else None
         case None => None
  }

  predicate Parses(line: Line, env: Env) { line == DONE || env.parse(line).Some? }

  predicate UsageAccepted(line: Line, env: Env) {
    var o := ObjectOf(line, env);
    o.Some? && ValidateUsage(Get(o.value, "usage")).Some?
  }

  predicate UsageRejected(line: Line, env: Env) {
    var o := ObjectOf(line, env);
    o.Some? && !Get(o.value, "usage").Null? && ValidateUsage(Get(o.value, "usage")).None?
  }

  predicate Raises(line: Line, env: Env) {
    var o := ObjectOf(line, env);
    o.Some? && IndexRaises(Get(o.value, "choices"))
  }

  /** A line that leaves no error behind. */
  predicate Clean(line: Line, env: Env) {
    Parses(line, env) && !UsageRejected(line, env) && !Raises(line, env)
  }

  lemma {:induction false} FoldAppend(r: Result, a: seq<Line>, b: seq<Line>, env: Env)
    ensures
      var (r1, raised) := Fold(r, a, env);
      Fold(r, a + b, env) == if raised then (r1, true) else Fold(r1, b, env)
    decreases |a|
  {
    if a == [] {
      assert a + b == b;
    } else {
      assert (a + b)[1..] == a[1..] + b;
      var (r1, raised) := ConsumeLine(r, a[0], env);
      if !raised {
        FoldAppend(r1, a[1..], b, env);
      }
    }
  }

  lemma LineFacts(r: Result, line: Line, env: Env)
    ensures
      var (r1, raised) := ConsumeLine(r, line, env);
      && raised == Raises(line, env)
      && r1.sawDone == (r.sawDone || line == DONE)
      && r1.usage.Some? == (r.usage.Some? || UsageAccepted(line, env))
      && (r1.error.None? <==> r.error.None? && Parses(line, env) && !UsageRejected(line, env))
  {
    var o := ObjectOf(line, env);
    if o.Some? {
      HeaderFacts(r, o.value, env);
      ObjectKeepsHeader(r, o.value, env);
    }
  }

  lemma HeaderFacts(r: Result, evt: Json, env: Env)
    requires evt.Obj?
    ensures
      var (r1, u) := (WithHeader(r, evt, env), Get(evt, "usage"));
      && r1.sawDone == r.sawDone
      && r1.eventCount == r.eventCount + 1
      && r1.ttft == r.ttft && r1.firstKind == r.firstKind
      && r1.usage.Some? == (r.usage.Some? || ValidateUsage(u).Some?)
      && (r1.error.None? <==> r.error.None? && (u.Null? || ValidateUsage(u).Some?))
  {
  }

  /** The choice of an event changes text, finish reason and first-token fields only. */
  lemma ObjectKeepsHeader(r: Result, evt: Json, env: Env)
    requires evt.Obj?
    ensures
      var (r1, h) := (ConsumeObject(r, evt, env).0, WithHeader(r, evt, env));
      && r1.sawDone == h.sawDone && r1.usage == h.usage && r1.error == h.error
      && r1.eventCount == h.eventCount
      && ConsumeObject(r, evt, env).1 == IndexRaises(Get(evt, "choices"))
  {
    var (h, choices) := (WithHeader(r, evt, env), Get(evt, "choices"));
    if Truthy(choices) && !IndexRaises(choices) {
      ChoiceFacts(h, FirstObject(choices), env.clock(r.eventCount) - env.t0);
    }
  }

  lemma ChoiceFacts(r: Result, choice: Json, now: real)
    requires choice.Obj?
    ensures
      var (r1, d) := (WithChoice(r, choice, now), Delta(choice));
      && r1.sawDone == r.sawDone && r1.usage == r.usage && r1.error == r.error
      && r1.eventCount == r.eventCount
      && (r.ttft.Some? || (ContentPiece(d) == "" && ReasoningPiece(d) == "") ==>
            r1.ttft == r.ttft && r1.firstKind == r.firstKind)
      && (r.ttft.None? && ContentPiece(d) != "" ==>
            r1.ttft == Some(now) && r1.firstKind == Some(Content))
      && (r.ttft.None? && ContentPiece(d) == "" && ReasoningPiece(d) != "" ==>
            r1.ttft == Some(now) && r1.firstKind == Some(Reasoning))
  {
  }

  lemma {:induction false} FoldFacts(r: Result, lines: seq<Line>, env: Env)
    ensures
      var (r1, raised) := Fold(r, lines, env);
      && (raised <==> exists l <- lines :: Raises(l, env))
      && (!raised ==> r1.sawDone == (r.sawDone || DONE in lines))
      && (!raised ==> (r1.usage.Some? <==> r.usage.Some? || exists l <- lines :: UsageAccepted(l, env)))
      && (!raised ==> (r1.error.None? <==>
            r.error.None? && forall l <- lines :: Parses(l, env) && !UsageRejected(l, env)))
    decreases |lines|
  {
    if lines != [] {
      LineFacts(r, lines[0], env);
      var (r1, raised) := ConsumeLine(r, lines[0], env);
      if !raised {
        FoldFacts(r1, lines[1..], env);
        assert forall l :: l in lines <==> l == lines[0] || l in lines[1..];
      }
    }
  }

  /** Reducing events is folding the consumed lines. */
  lemma {:induction false} ReduceIsFold(r: Result, events: seq<seq<Byte>>, env: Env)
    requires !r.sawDone
    ensures Reduce(r, events, env) == Fold(r, ConsumedLines(events), env)
    decreases |events|
  {
    if events != [] {
      var lines := DataLines(events[0]);
      var (r1, raised) := Fold(r, lines, env);
      FoldFacts(r, lines, env);
      if !raised {
        if r1.sawDone {
          assert Reduce(r1, events[1..], env) == (r1, false);
        } else {
          ReduceIsFold(r1, events[1..], env);
          FoldAppend(r, lines, ConsumedLines(events[1..]), env);
        }
      } else {
        FoldAppend(r, lines, ConsumedLines(events[1..]), env);
      }
    }
  }

  /** Exactly when a stream result is ok. */
  lemma OkExactly(events: seq<seq<Byte>>, end: ReadEnd, env: Env)
    ensures
      var lines := ConsumedLines(events);
      Conclude(events, end, env).error.None? <==>
        && DONE in lines
        && (exists l <- lines :: UsageAccepted(l, env))
        && (forall l <- lines :: Clean(l, env))
  {
    ReduceIsFold(Fresh, events, env);
    FoldFacts(Fresh, ConsumedLines(events), env);
  }

  // ------------------------------------------------------------------
  // Timing
  // ------------------------------------------------------------------

  /** The fragment a line starts the token clock with, if it carries one. */
  function FragmentOf(line: Line, env: Env): (r: Option<FragmentKind>) {
    var o := ObjectOf(line, env);
    if o.None? || !Truthy(Get(o.value, "choices")) || IndexRaises(Get(o.value, "choices")) then None
    else
      var d := Delta(FirstObject(Get(o.value, "choices")));
      if ContentPiece(d) != "" then Some(Content)
      else if ReasoningPiece(d) != "" then Some(Reasoning) else None
  }

  /** The first line with a fragment: how many object events came before it, and its kind. */
  function FirstToken(lines: seq<Line>, before: nat, env: Env): (r: Option<(nat, FragmentKind)>)
    decreases |lines|
  {
    if lines == [] then None
    else
      var f := FragmentOf(lines[0], env);
      if f.Some? then Some((before, f.value))
      else FirstToken(lines[1..], before + (if ObjectOf(lines[0], env).Some? then 1 else 0), env)
  }

  predicate ClockReads(r: Result, first: Option<(nat, FragmentKind)>, env: Env) {
    match first
    case None => r.ttft.None? && r.firstKind.None?
    case Some((n, kind)) => r.ttft == Some(env.clock(n) - env.t0) && r.firstKind == Some(kind)
  }

  /** Lines up to the first one that raises, which is the last one looked at. */
  function Reached(lines: seq<Line>, env: Env): (r: seq<Line>) {
    if lines == [] then []
    else if Raises(lines[0], env) then [lines[0]]
    else [lines[0]] + Reached(lines[1..], env)
  }

  lemma {:induction false} FoldKeepsClock(r: Result, lines: seq<Line>, env: Env)
    requires r.ttft.Some?
    ensures Fold(r, lines, env).0.ttft == r.ttft && Fold(r, lines, env).0.firstKind == r.firstKind
    decreases |lines|
  {
    if lines != [] {
      LineClock(r, lines[0], env);
      FoldKeepsClock(ConsumeLine(r, lines[0], env).0, lines[1..], env);
    }
  }

  lemma {:induction false} FoldStartsClock(r: Result, lines: seq<Line>, env: Env)
    requires r.ttft.None? && r.firstKind.None?
    ensures ClockReads(Fold(r, lines, env).0, FirstToken(Reached(lines, env), r.eventCount, env), env)
    decreases |lines|
  {
    if lines != [] {
      var r1 := ConsumeLine(r, lines[0], env).0;
      var reached := Reached(lines, env);
      LineClock(r, lines[0], env);
      LineFacts(r, lines[0], env);
      if Raises(lines[0], env) {
        assert reached[1..] == [];
      } else {
        assert reached[1..] == Reached(lines[1..], env);
        if FragmentOf(lines[0], env).Some? {
          FoldKeepsClock(r1, lines[1..], env);
        } else {
          FoldStartsClock(r1, lines[1..], env);
        }
      }
    }
  }

  lemma LineClock(r: Result, line: Line, env: Env)
    ensures
      var r1 := ConsumeLine(r, line, env).0;
      && r1.eventCount == r.eventCount + (if ObjectOf(line, env).Some? then 1 else 0)
      && (r.ttft.Some? || FragmentOf(line, env).None? ==> r1.ttft == r.ttft && r1.firstKind == r.firstKind)
      && (r.ttft.None? && FragmentOf(line, env).Some? ==>
            && r1.ttft == Some(env.clock(r.eventCount) - env.t0)
            && r1.firstKind == FragmentOf(line, env))
  {
    var o := ObjectOf(line, env);
    if o.Some? {
      var choices := Get(o.value, "choices");
      HeaderFacts(r, o.value, env);
      if Truthy(choices) && !IndexRaises(choices) {
        ChoiceFacts(WithHeader(r, o.value, env), FirstObject(choices), env.clock(r.eventCount) - env.t0);
      }
    }
  }

  /** First-token time and kind come from the first non-empty fragment among the lines looked at. */
  lemma FirstTokenExactly(events: seq<seq<Byte>>, end: ReadEnd, env: Env)
    ensures ClockReads(Conclude(events, end, env), FirstToken(Reached(ConsumedLines(events), env), 0, env), env)
  {
    ReduceIsFold(Fresh, events, env);
    FoldStartsClock(Fresh, ConsumedLines(events), env);
  }

  lemma ChoiceIgnoresClock(r: Result, r': Result, choice: Json, now: real, now': real)
    requires choice.Obj?
    requires r.Untimed() == r'.Untimed() && r.ttft.None? == r'.ttft.None?
    ensures
      var (a, b) := (WithChoice(r, choice, now), WithChoice(r', choice, now'));
      a.Untimed() == b.Untimed() && a.ttft.None? == b.ttft.None?
  {
  }

  lemma HeaderIgnoresClock(r: Result, r': Result, evt: Json, env: Env, env': Env)
    requires evt.Obj?
    requires r.Untimed() == r'.Untimed() && r.ttft.None? == r'.ttft.None?
    requires env'.captureRaw == env.captureRaw
    ensures
      var (a, b) := (WithHeader(r, evt, env), WithHeader(r', evt, env'));
      a.Untimed() == b.Untimed() && a.ttft.None? == b.ttft.None?
  {
  }

  lemma ObjectIgnoresClock(r: Result, r': Result, evt: Json, env: Env, env': Env)
    requires evt.Obj?
    requires r.Untimed() == r'.Untimed() && r.ttft.None? == r'.ttft.None?
    requires env'.captureRaw == env.captureRaw
    ensures
      var (a, ra) := ConsumeObject(r, evt, env);
      var (b, rb) := ConsumeObject(r', evt, env');
      ra == rb && a.Untimed() == b.Untimed() && a.ttft.None? == b.ttft.None?
  {
    var (h, h') := (WithHeader(r, evt, env), WithHeader(r', evt, env'));
    var choices := Get(evt, "choices");
    HeaderIgnoresClock(r, r', evt, env, env');
    if Truthy(choices) && !IndexRaises(choices) {
      var (now, now') := (env.clock(r.eventCount) - env.t0, env'.clock(r'.eventCount) - env'.t0);
      ChoiceIgnoresClock(h, h', FirstObject(choices), now, now');
    }
  }

  lemma LineIgnoresClock(r: Result, r': Result, line: Line, env: Env, env': Env)
    requires r.Untimed() == r'.Untimed() && r.ttft.None? == r'.ttft.None?
    requires env'.parse == env.parse && env'.captureRaw == env.captureRaw
    ensures
      var (a, ra) := ConsumeLine(r, line, env);
      var (b, rb) := ConsumeLine(r', line, env');
      ra == rb && a.Untimed() == b.Untimed() && a.ttft.None? == b.ttft.None?
  {
    var o := ObjectOf(line, env);
    if o.Some? {
      ObjectIgnoresClock(r, r', o.value, env, env');
    }
  }

  lemma {:induction false} FoldIgnoresClock(r: Result, r': Result, lines: seq<Line>, env: Env, env': Env)
    requires r.Untimed() == r'.Untimed() && r.ttft.None? == r'.ttft.None?
    requires env'.parse == env.parse && env'.captureRaw == env.captureRaw
    ensures
      var (a, ra) := Fold(r, lines, env);
      var (b, rb) := Fold(r', lines, env');
      ra == rb && a.Untimed() == b.Untimed()
    decreases |lines|
  {
    if lines != [] {
      LineIgnoresClock(r, r', lines[0], env, env');
      FoldIgnoresClock(ConsumeLine(r, lines[0], env).0, ConsumeLine(r', lines[0], env').0, lines[1..], env, env');
    }
  }

  lemma ConcludeIgnoresClock(events: seq<seq<Byte>>, end: ReadEnd, env: Env, env': Env)
    requires env'.parse == env.parse && env'.captureRaw == env.captureRaw
    ensures Conclude(events, end, env).Untimed() == Conclude(events, end, env').Untimed()
  {
    ReduceIsFold(Fresh, events, env);
    ReduceIsFold(Fresh, events, env');
    FoldIgnoresClock(Fresh, Fresh, ConsumedLines(events), env, env');
  }

  /** Two runs over the same bytes differ in their times only, however they were timed or cut. */
  lemma UntimedFieldsDependOnBytes(bytes: seq<Byte>, end: ReadEnd, env: Env, env': Env)
    requires env'.parse == env.parse && env'.captureRaw == env.captureRaw
    ensures Outcome(bytes, end, env).Untimed() == Outcome(bytes, end, env').Untimed()
  {
    ConcludeIgnoresClock(Delivered(bytes, end), end, env, env');
  }

  /** Relates a chunked session to the events the bytes deliver. */
  lemma FeedFacts(chunks: seq<seq<Byte>>, end: ReadEnd, env: Env)
    ensures
      var (events, last) := FeedAll(Start, chunks);
      var (r, raised) := Reduce(Fresh, events, env);
      Reduce(Fresh, Delivered(Flatten(chunks), end), env) ==
        if raised || end.ReadFailed? then (r, raised) else Reduce(r, CloseStep(last), env)
  {
    var (events, last) := FeedAll(Start, chunks);
    if end.Eof? {
      ChunkedDecodeIsParse(chunks);
      ReduceAppend(Fresh, events, CloseStep(last), env);
    } else {
      FeedAllIsOneFeed(Start, chunks);
    }
  }
}

/** What the fields of a stream result say about the whole stream. */
module StreamFields {
  import opened Common
  import opened Json
  import opened SseDecoder
  import opened StreamReducer

  // ------------------------------------------------------------------
  // What one line carries
  // ------------------------------------------------------------------

  /** The choice of a line that carries one. */
  function ChoiceOf(line: Line, env: Env): (r: Option<Json>)
    ensures r.Some? ==> r.value.Obj?
  {
    var o := ObjectOf(line, env);
    if o.None? || !Truthy(Get(o.value, "choices")) || IndexRaises(Get(o.value, "choices")) then None
    else Some(FirstObject(Get(o.value, "choices")))
  }

  function ContentIn(line: Line, env: Env): (s: string) {
    var c := ChoiceOf(line, env);
    if c.Some? then ContentPiece(Delta(c.value)) else ""
  }

  function ReasoningIn(line: Line, env: Env): (s: string) {
    var c := ChoiceOf(line, env);
    if c.Some? then ReasoningPiece(Delta(c.value)) else ""
  }

  function FinishIn(line: Line, env: Env): (r: Option<Json>) {
    var c := ChoiceOf(line, env);
    if c.Some? && Truthy(Get(c.value, "finish_reason")) then Some(Get(c.value, "finish_reason")) else None
  }

  function ModelIn(line: Line, env: Env): (r: Option<string>) {
    var o := ObjectOf(line, env);
    if o.Some? && Get(o.value, "model").Str? then Some(Get(o.value, "model").s) else None
  }

  function UsageIn(line: Line, env: Env): (r: Option<Usage>) {
    var o := ObjectOf(line, env);
    if o.Some? then ValidateUsage(Get(o.value, "usage")) else None
  }

  // ------------------------------------------------------------------
  // What a list of lines carries
  // ------------------------------------------------------------------

  /** All pieces, one after the other. */
  function Joined(lines: seq<Line>, piece: Line -> string): (s: string) {
    if lines == [] then "" else piece(lines[0]) + Joined(lines[1..], piece)
  }

  /** The last value that is there. */
  function Latest<T>(lines: seq<Line>, value: Line -> Option<T>): (r: Option<T>) {
    if lines == [] then None
    else if value(lines[|lines| - 1]).Some? then value(lines[|lines| - 1])
    else Latest(lines[..|lines| - 1], value)
  }

  function OrElse<T>(a: Option<T>, b: Option<T>): (r: Option<T>) { if a.Some? then a else b }

  lemma {:induction false} LatestCons<T>(lines: seq<Line>, value: Line -> Option<T>)
    requires lines != []
    ensures Latest(lines, value) == OrElse(Latest(lines[1..], value), value(lines[0]))
    decreases |lines|
  {
    var n := |lines| - 1;
    if n > 0 {
      assert lines[1..][n - 1] == lines[n] && lines[1..][..n - 1] == lines[..n][1..];
      LatestCons(lines[..n], value);
    }
  }

  function Objects(lines: seq<Line>, env: Env): (n: nat) {
    if lines == [] then 0 else (if ObjectOf(lines[0], env).Some? then 1 else 0) + Objects(lines[1..], env)
  }

  // ------------------------------------------------------------------
  // One line
  // ------------------------------------------------------------------

  lemma HeaderFields(r: Result, evt: Json, env: Env)
    requires evt.Obj?
    ensures
      var (h, u) := (WithHeader(r, evt, env), ValidateUsage(Get(evt, "usage")));
      && h.eventCount == r.eventCount + 1
      && h.content == r.content && h.reasoning == r.reasoning && h.finishReason == r.finishReason
      && h.model == (if Get(evt, "model").Str? then Some(Get(evt, "model").s) else r.model)
      && h.usage == OrElse(u, r.usage)
  {
  }

  lemma ChoiceFields(r: Result, choice: Json, now: real)
    requires choice.Obj?
    ensures
      var (t, f) := (WithChoice(r, choice, now), Get(choice, "finish_reason"));
      && t.eventCount == r.eventCount && t.model == r.model && t.usage == r.usage
      && t.content == r.content + ContentPiece(Delta(choice))
      && t.reasoning == r.reasoning + ReasoningPiece(Delta(choice))
      && t.finishReason == if Truthy(f) then Some(f) else r.finishReason
  {
  }

  predicate SameFields(t: Result, r: Result) {
    && t.content == r.content && t.reasoning == r.reasoning && t.finishReason == r.finishReason
    && t.model == r.model && t.usage == r.usage && t.eventCount == r.eventCount
  }

  /** A line does nothing to these fields, or what its header does, or that and what its choice does. */
  lemma LineIs(r: Result, line: Line, env: Env)
    ensures
      var (t, o, c) := (ConsumeLine(r, line, env).0, ObjectOf(line, env), ChoiceOf(line, env));
      if o.None? then SameFields(t, r)
      else if c.None? then t == WithHeader(r, o.value, env)
      else t == WithChoice(WithHeader(r, o.value, env), c.value, env.clock(r.eventCount) - env.t0)
  {
  }

  lemma LineFields(r: Result, line: Line, env: Env)
    ensures
      var t := ConsumeLine(r, line, env).0;
      && t.content == r.content + ContentIn(line, env)
      && t.reasoning == r.reasoning + ReasoningIn(line, env)
      && t.finishReason == OrElse(FinishIn(line, env), r.finishReason)
      && t.eventCount == r.eventCount + (if ObjectOf(line, env).Some? then 1 else 0)
      && t.model == OrElse(ModelIn(line, env), r.model)
      && t.usage == OrElse(UsageIn(line, env), r.usage)
  {
    var (o, c) := (ObjectOf(line, env), ChoiceOf(line, env));
    LineIs(r, line, env);
    if o.Some? {
      HeaderFields(r, o.value, env);
      if c.Some? {
        ChoiceFields(WithHeader(r, o.value, env), c.value, env.clock(r.eventCount) - env.t0);
      }
    }
  }

  // ------------------------------------------------------------------
  // The whole stream
  // ------------------------------------------------------------------

  /** The text and count fields are those of the lines, added to what was there. */
  ghost predicate Carries(t: Result, r: Result, lines: seq<Line>, env: Env) {
    && t.content == r.content + Joined(lines, l => ContentIn(l, env))
    && t.reasoning == r.reasoning + Joined(lines, l => ReasoningIn(l, env))
    && t.finishReason == OrElse(Latest(lines, l => FinishIn(l, env)), r.finishReason)
    && t.model == OrElse(Latest(lines, l => ModelIn(l, env)), r.model)
    && t.usage == OrElse(Latest(lines, l => UsageIn(l, env)), r.usage)
    && t.eventCount == r.eventCount + Objects(lines, env)
  }

  lemma JoinedCons(before: string, lines: seq<Line>, piece: Line -> string)
    requires lines != []
    ensures before + piece(lines[0]) + Joined(lines[1..], piece) == before + Joined(lines, piece)
  {
    Assoc(before, piece(lines[0]), Joined(lines[1..], piece));
  }

  lemma LatestStep<T>(before: Option<T>, lines: seq<Line>, value: Line -> Option<T>)
    requires lines != []
    ensures OrElse(Latest(lines[1..], value), OrElse(value(lines[0]), before)) ==
            OrElse(Latest(lines, value), before)
  {
    LatestCons(lines, value);
  }

  lemma CarriesCons(t: Result, s: Result, r: Result, lines: seq<Line>, env: Env)
    requires lines != [] && s == ConsumeLine(r, lines[0], env).0
    requires Carries(t, s, lines[1..], env)
    ensures Carries(t, r, lines, env)
  {
    LineFields(r, lines[0], env);
    JoinedCons(r.content, lines, l => ContentIn(l, env));
    JoinedCons(r.reasoning, lines, l => ReasoningIn(l, env));
    LatestStep(r.finishReason, lines, l => FinishIn(l, env));
    LatestStep(r.model, lines, l => ModelIn(l, env));
    LatestStep(r.usage, lines, l => UsageIn(l, env));
  }

  lemma {:induction false} FoldCarries(r: Result, lines: seq<Line>, env: Env)
    ensures Carries(Fold(r, lines, env).0, r, Reached(lines, env), env)
    decreases |lines|
  {
    if lines != [] {
      var (s, raised) := ConsumeLine(r, lines[0], env);
      var reached := Reached(lines, env);
      LineFacts(r, lines[0], env);
      if raised {
        assert reached[1..] == [];
        assert Carries(s, s, [], env);
        CarriesCons(s, s, r, reached, env);
      } else {
        assert reached[1..] == Reached(lines[1..], env);
        FoldCarries(s, lines[1..], env);
        CarriesCons(Fold(s, lines[1..], env).0, s, r, reached, env);
      }
    }
  }

  /**
   Over a whole stream: content and reasoning are the fragments of the lines looked at, one after
   the other; model, usage and finish reason are the last ones accepted; the count is the number
   of object events.
   */
  lemma FieldsExactly(events: seq<seq<Byte>>, end: ReadEnd, env: Env)
    ensures Carries(Conclude(events, end, env), Fresh, Reached(ConsumedLines(events), env), env)
  {
    ReduceIsFold(Fresh, events, env);
    FoldCarries(Fresh, ConsumedLines(events), env);
  }

  // ------------------------------------------------------------------
  // Opening the stream
  // ------------------------------------------------------------------

  /** How opening the request went. */
  datatype Opening = Opened(status: nat) | HttpError(code: nat) | OpenFailed(timedOut: bool)

  datatype StreamError = HttpStatus(code: nat) | TimedOut | Transport | InStream(kind: ErrorKind)

  /** The result with what is known of the connection. */
  datatype Response = Response(result: Result, error: Option<StreamError>, httpStatus: Option<nat>, wall: real)

  /** Everything that was consumed, and whether it makes a good stream. */
  ghost predicate GoodStream(lines: seq<Line>, env: Env) {
    && DONE in lines
    && (exists l <- lines :: UsageAccepted(l, env))
    && (forall l <- lines :: Clean(l, env))
  }

  /**
   The whole request. It is ok exactly when the stream was opened and the lines consumed make a
   good stream; a request that could not be opened has an empty result; `finish` is the last
   reading of the clock.
   */
  method RequestStream(opening: Opening, chunks: seq<seq<Byte>>, end: ReadEnd, env: Env, finish: real)
    returns (r: Response)
    ensures r.error.None? <==>
              opening.Opened? && GoodStream(ConsumedLines(Delivered(Flatten(chunks), end)), env)
    ensures r.result == if opening.Opened? then Outcome(Flatten(chunks), end, env) else Fresh
    ensures r.wall == finish - env.t0
    ensures r.httpStatus ==
            match opening case Opened(s) => Some(s) case HttpError(c) => Some(c) case OpenFailed(_) => None
    ensures opening.HttpError? ==> r.error == Some(HttpStatus(opening.code))
    ensures opening.OpenFailed? ==> r.error == Some(if opening.timedOut then TimedOut else Transport)
    ensures opening.Opened? && r.error.Some? ==>
              r.result.error.Some? && r.error == Some(InStream(r.result.error.value))
  {
    match opening
    case HttpError(code) =>
      r := Response(Fresh, Some(HttpStatus(code)), Some(code), finish - env.t0);
    case OpenFailed(timedOut) =>
      r := Response(Fresh, Some(if timedOut then TimedOut else Transport), None, finish - env.t0);
    case Opened(status) =>
      var result := StreamRequest(chunks, end, env);
      OkExactly(Delivered(Flatten(chunks), end), end, env);
      var error := if result.error.None? then None else Some(InStream(result.error.value));
      r := Response(result, error, Some(status), finish - env.t0);
  }
}

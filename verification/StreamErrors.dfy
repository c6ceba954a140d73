/** Which error a stream ends with, and which raw events it keeps. */
module StreamErrors {
  import opened Common
  import opened Json
  import opened SseDecoder
  import opened StreamReducer
  import opened StreamFields

  // ------------------------------------------------------------------
  // The error
  // ------------------------------------------------------------------

  /** A rejected usage object replaces any error; an unparseable line is only noted if there is none. */
  function ErrorAfter(before: Option<ErrorKind>, rejected: bool, unparsed: bool): (e: Option<ErrorKind>) {
    if rejected then Some(InvalidUsage)
    else if before.None? && unparsed then Some(StreamFormat)
    else before
  }

  lemma LineError(r: Result, line: Line, env: Env)
    ensures ConsumeLine(r, line, env).0.error == ErrorAfter(r.error, UsageRejected(line, env), !Parses(line, env))
  {
    var o := ObjectOf(line, env);
    if o.Some? {
      HeaderError(r, o.value, env);
      ObjectKeepsHeader(r, o.value, env);
    }
  }

  lemma HeaderError(r: Result, evt: Json, env: Env)
    requires evt.Obj?
    ensures
      var u := Get(evt, "usage");
      WithHeader(r, evt, env).error == if u.Null? || ValidateUsage(u).Some? then r.error else Some(InvalidUsage)
  {
  }

  ghost predicate SomeRejected(lines: seq<Line>, env: Env) { exists l <- lines :: UsageRejected(l, env) }

  ghost predicate SomeUnparsed(lines: seq<Line>, env: Env) { exists l <- lines :: !Parses(l, env) }

  lemma HeadAndRest(lines: seq<Line>, env: Env)
    requires lines != []
    ensures SomeRejected(lines, env) <==> UsageRejected(lines[0], env) || SomeRejected(lines[1..], env)
    ensures SomeUnparsed(lines, env) <==> !Parses(lines[0], env) || SomeUnparsed(lines[1..], env)
  {
    assert lines == [lines[0]] + lines[1..];
  }

  lemma {:induction false} FoldError(r: Result, lines: seq<Line>, env: Env)
    requires !Fold(r, lines, env).1
    ensures Fold(r, lines, env).0.error == ErrorAfter(r.error, SomeRejected(lines, env), SomeUnparsed(lines, env))
    decreases |lines|
  {
    if lines != [] {
      LineError(r, lines[0], env);
      HeadAndRest(lines, env);
      FoldError(ConsumeLine(r, lines[0], env).0, lines[1..], env);
    }
  }

  /**
   The error of a stream, in this order: an event that raises, or a read that fails before the
   sentinel; a stream that ends without the sentinel; a usage object that was rejected; none that
   was accepted; a line that does not parse.
   */
  lemma ErrorExactly(events: seq<seq<Byte>>, end: ReadEnd, env: Env)
    ensures
      var lines := ConsumedLines(events);
      Conclude(events, end, env).error ==
        if (exists l <- lines :: Raises(l, env)) || (end.ReadFailed? && DONE !in lines) then Some(StreamFormat)
        else if DONE !in lines then Some(MissingDone)
        else if SomeRejected(lines, env) then Some(InvalidUsage)
        else if !exists l <- lines :: UsageAccepted(l, env) then Some(MissingUsage)
        else if SomeUnparsed(lines, env) then Some(StreamFormat)
        else None
  {
    var lines := ConsumedLines(events);
    ReduceIsFold(Fresh, events, env);
    FoldFacts(Fresh, lines, env);
    if !Fold(Fresh, lines, env).1 {
      FoldError(Fresh, lines, env);
    }
  }

  // ------------------------------------------------------------------
  // The raw events
  // ------------------------------------------------------------------

  /** An unparseable line is always kept, an object only if asked for, and nothing else. */
  function RawOf(line: Line, env: Env): (r: seq<RawEvent>) {
    if line == DONE then []
    else match env.parse(line)
         case None => [Unparseable(line)]
         case Some(j) => if j.Obj? && env.captureRaw then [RawEvent.Event(j)] else []
  }

  function RawsOf(lines: seq<Line>, env: Env): (r: seq<RawEvent>) {
    if lines == [] then [] else RawOf(lines[0], env) + RawsOf(lines[1..], env)
  }

  lemma LineRaw(r: Result, line: Line, env: Env)
    ensures ConsumeLine(r, line, env).0.rawEvents == r.rawEvents + RawOf(line, env)
  {
    var (o, c) := (ObjectOf(line, env), ChoiceOf(line, env));
    LineIs(r, line, env);
    if o.Some? {
      HeaderRaw(r, o.value, env);
      if c.Some? {
        ChoiceRaw(WithHeader(r, o.value, env), c.value, env.clock(r.eventCount) - env.t0);
      }
    }
  }

  lemma HeaderRaw(r: Result, evt: Json, env: Env)
    requires evt.Obj?
    ensures WithHeader(r, evt, env).rawEvents ==
            if env.captureRaw then r.rawEvents + [RawEvent.Event(evt)] else r.rawEvents
  {
  }

  lemma ChoiceRaw(r: Result, choice: Json, now: real)
    requires choice.Obj?
    ensures WithChoice(r, choice, now).rawEvents == r.rawEvents
  {
  }

  lemma {:induction false} FoldRaw(r: Result, lines: seq<Line>, env: Env)
    ensures Fold(r, lines, env).0.rawEvents == r.rawEvents + RawsOf(Reached(lines, env), env)
    decreases |lines|
  {
    if lines != [] {
      var (s, raised) := ConsumeLine(r, lines[0], env);
      var reached := Reached(lines, env);
      LineRaw(r, lines[0], env);
      LineFacts(r, lines[0], env);
      if raised {
        assert reached[1..] == [] && RawsOf([], env) == [];
      } else {
        assert reached[1..] == Reached(lines[1..], env);
        FoldRaw(s, lines[1..], env);
        Assoc(r.rawEvents, RawOf(lines[0], env), RawsOf(reached[1..], env));
      }
    }
  }

  /** The raw events of a stream are those of the lines looked at, in order. */
  lemma RawEventsAre(events: seq<seq<Byte>>, end: ReadEnd, env: Env)
    ensures Conclude(events, end, env).rawEvents == RawsOf(Reached(ConsumedLines(events), env), env)
  {
    ReduceIsFold(Fresh, events, env);
    FoldRaw(Fresh, ConsumedLines(events), env);
  }
}

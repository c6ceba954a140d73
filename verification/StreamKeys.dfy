/** Which field of an event feeds which field of the result. */
module StreamKeys {
  import opened Common
  import opened Json
  import opened SseDecoder
  import opened SseLines
  import opened StreamReducer
  import opened StreamFields

  lemma DoneSpelled()
    ensures DONE == Ascii("[DONE]")
  {
  }

  /** A usage object is accepted exactly when its three counts are non-negative integers, and read as they are. */
  lemma UsageExactly(u: Json, p: nat, c: nat, t: nat)
    ensures ValidateUsage(u) == Some(Usage(p, c, t)) <==>
            && u.Obj? && Get(u, "prompt_tokens") == Int(p)
            && Get(u, "completion_tokens") == Int(c) && Get(u, "total_tokens") == Int(t)
    ensures ValidateUsage(u).Some? <==>
            && u.Obj? && CountOf(u, "prompt_tokens") >= 0
            && CountOf(u, "completion_tokens") >= 0 && CountOf(u, "total_tokens") >= 0
  {
  }

  /** The integer under a key, and -1 where there is none. */
  function CountOf(u: Json, key: string): (n: int)
    requires u.Obj?
  {
    if Get(u, key).Int? then Get(u, key).n else -1
  }

  /** The event of a line that carries this one choice. */
  predicate OneChoice(line: Line, env: Env, choice: Json) {
    && line != DONE && env.parse(line).Some? && env.parse(line).value.Obj?
    && var choices := Get(env.parse(line).value, "choices");
    choices.Arr? && choices.items != [] && choices.items[0] == choice && choice.Obj?
  }

  /** The text of the first choice's delta under a key. */
  function DeltaText(choice: Json, key: string): (s: string)
    requires choice.Obj?
  {
    var d := Get(choice, "delta");
    if d.Obj? && Get(d, key).Str? then Get(d, key).s else ""
  }

  /** Content is `content`; reasoning is `reasoning_content`, or else `reasoning`; finish is `finish_reason`. */
  lemma PiecesAre(line: Line, env: Env, choice: Json)
    requires OneChoice(line, env, choice)
    ensures ContentIn(line, env) == DeltaText(choice, "content")
    ensures ReasoningIn(line, env) ==
            if DeltaText(choice, "reasoning_content") != "" then DeltaText(choice, "reasoning_content")
            else DeltaText(choice, "reasoning")
    ensures FinishIn(line, env) ==
            if Truthy(Get(choice, "finish_reason")) then Some(Get(choice, "finish_reason")) else None
  {
  }

  /** A line without an object event, or whose event has no choices, carries no text and no finish reason. */
  lemma NoPieces(line: Line, env: Env)
    requires
      || line == DONE || env.parse(line).None? || !env.parse(line).value.Obj?
      || !Truthy(Get(env.parse(line).value, "choices"))
    ensures ContentIn(line, env) == "" && ReasoningIn(line, env) == "" && FinishIn(line, env).None?
  {
  }

  /** The model is the string under `model`; the usage is what is under `usage`. */
  lemma HeadersAre(line: Line, env: Env)
    requires line != DONE && env.parse(line).Some? && env.parse(line).value.Obj?
    ensures
      var o := env.parse(line).value;
      && ModelIn(line, env) == (if Get(o, "model").Str? then Some(Get(o, "model").s) else None)
      && UsageIn(line, env) == ValidateUsage(Get(o, "usage"))
      && (UsageRejected(line, env) <==> !Get(o, "usage").Null? && ValidateUsage(Get(o, "usage")).None?)
      && (Raises(line, env) <==>
            Truthy(Get(o, "choices")) && !Get(o, "choices").Arr? && !Get(o, "choices").Str?)
  {
  }

  /** What counts as true: everything but null, false, zero and the empty string, list and object. */
  lemma TruthIs(j: Json)
    ensures Truthy(j) <==>
            j !in {Null, Bool(false), Int(0), Float(0.0), Str(""), Arr([]), Obj(map[])}
  {
  }

  /** A payload is dispatched line by line: cut at every line feed, empty parts dropped unless it is all there is. */
  lemma DispatchedLines(payload: seq<Byte>)
    ensures Lacks(payload, LF) ==> DataLines(payload) == [payload]
    ensures !Lacks(payload, LF) ==>
              && (forall l :: l in DataLines(payload) <==> l in Split(payload) && l != [])
              && Join(Split(payload)) == payload
  {
    JoinSplit(payload);
    NonEmptyMembers(Split(payload));
  }

  lemma {:induction false} NonEmptyMembers(ls: seq<Line>)
    ensures forall l :: l in NonEmpty(ls) <==> l in ls && l != []
  {
    if ls != [] {
      NonEmptyMembers(ls[1..]);
      assert ls == [ls[0]] + ls[1..];
    }
  }
}

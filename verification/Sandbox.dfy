/** The supervisor loop that runs one untrusted candidate (docker/q200_sandbox_driver.py). */
module Sandbox {
  import opened Common

  const MAX_OUTPUT_BYTES := 65536
  const MAX_OUTPUT_TAIL_BYTES := 4096

  datatype Fd = Stdout | Stderr | Completion

  /** What a read of a ready descriptor gives; an error counts as the end. */
  datatype Read = Blocked | Data(bytes: Bytes) | End

  datatype Ready = Ready(fd: Fd, read: Read)

  /** One turn of the loop: the clock, the polls of the process, liveness and the ready reads. */
  datatype Turn =
    | Turn(now: real, running: bool, exited: bool, live: bool, events: seq<Ready>, gone: bool)
    | Fault

  datatype Status = Ok | Timeout | Failed | OutputLimit | Oom | GraderError

  // ------------------------------------------------------------------
  // What a descriptor delivered
  // ------------------------------------------------------------------

  predicate Ends(r: Read) { r.End? || (r.Data? && r.bytes == []) }

  /** The descriptor was read to its end. */
  predicate Ended(log: seq<Ready>, fd: Fd) {
    exists i :: 0 <= i < |log| && log[i].fd == fd && Ends(log[i].read)
  }

  /** The bytes read from a descriptor, up to its end. */
  function Stream(log: seq<Ready>, fd: Fd): (r: Bytes) {
    if log == [] then []
    else
      var (past, x) := (log[..|log| - 1], log[|log| - 1]);
      Stream(past, fd) + if x.fd == fd && x.read.Data? && !Ended(past, fd) then x.read.bytes else []
  }

  lemma LogMore(log: seq<Ready>, x: Ready, fd: Fd)
    ensures Ended(log + [x], fd) <==> Ended(log, fd) || (x.fd == fd && Ends(x.read))
    ensures Stream(log + [x], fd) ==
            Stream(log, fd) + if x.fd == fd && x.read.Data? && !Ended(log, fd) then x.read.bytes else []
  {
    var all := log + [x];
    assert all[..|log|] == log && all[|log|] == x;
    assert forall i :: 0 <= i < |log| ==> all[i] == log[i];
  }

  lemma LogFacts(log: seq<Ready>, x: Ready)
    ensures forall fd {:trigger Ended(log + [x], fd)} ::
              Ended(log + [x], fd) <==> Ended(log, fd) || (x.fd == fd && Ends(x.read))
    ensures forall fd {:trigger Stream(log + [x], fd)} ::
              Stream(log + [x], fd) ==
              if x.fd == fd && x.read.Data? && !Ended(log, fd) then Stream(log, fd) + x.read.bytes else Stream(log, fd)
  {
    forall fd
      ensures Ended(log + [x], fd) <==> Ended(log, fd) || (x.fd == fd && Ends(x.read))
      ensures Stream(log + [x], fd) ==
              if x.fd == fd && x.read.Data? && !Ended(log, fd) then Stream(log, fd) + x.read.bytes else Stream(log, fd)
    {
      LogMore(log, x, fd);
    }
  }

  /** A read that brings nothing, or comes after the end. */
  predicate Silent(log: seq<Ready>, x: Ready) { !x.read.Data? || x.read.bytes == [] || Ended(log, x.fd) }

  lemma SilentFacts(log: seq<Ready>, x: Ready)
    requires Silent(log, x)
    ensures forall fd {:trigger Ended(log + [x], fd)} ::
              Ended(log + [x], fd) <==> Ended(log, fd) || (x.fd == fd && Ends(x.read))
    ensures forall fd {:trigger Stream(log + [x], fd)} :: Stream(log + [x], fd) == Stream(log, fd)
  {
    forall fd
      ensures Ended(log + [x], fd) <==> Ended(log, fd) || (x.fd == fd && Ends(x.read))
      ensures Stream(log + [x], fd) == Stream(log, fd)
    {
      LogMore(log, x, fd);
      assert Stream(log, fd) + [] == Stream(log, fd);
    }
  }

  /** The last `n` bytes. */
  function Last(s: Bytes, n: nat): (r: Bytes)
    ensures |r| == if |s| < n then |s| else n
  {
    if |s| <= n then s else s[|s| - n..]
  }

  /** Extends a tail and trims it in front. */
  function TailAppend(tail: Bytes, chunk: Bytes): (r: Bytes) {
    var longer := tail + chunk;
    if |longer| > MAX_OUTPUT_TAIL_BYTES then longer[|longer| - MAX_OUTPUT_TAIL_BYTES..] else longer
  }

  /** However the reads are cut, the tail is the tail of everything. */
  lemma TailIsLast(all: Bytes, chunk: Bytes)
    ensures TailAppend(Last(all, MAX_OUTPUT_TAIL_BYTES), chunk) == Last(all + chunk, MAX_OUTPUT_TAIL_BYTES)
  {
  }

  // ------------------------------------------------------------------
  // The supervisor
  // ------------------------------------------------------------------

  class Supervisor {
    var stdoutTail: Bytes
    var stderrTail: Bytes
    var completion: Bytes
    var stdoutCount: nat
    var stderrCount: nat
    var open: set<Fd>
    var status: Status
    /** Every read so far. */
    ghost var log: seq<Ready>

    ghost predicate Valid()
      reads this
    {
      && stdoutTail == Last(Stream(log, Stdout), MAX_OUTPUT_TAIL_BYTES)
      && stderrTail == Last(Stream(log, Stderr), MAX_OUTPUT_TAIL_BYTES)
      && completion == Stream(log, Completion)
      && stdoutCount == |Stream(log, Stdout)|
      && stderrCount == |Stream(log, Stderr)|
      && (forall fd :: fd in open <==> !Ended(log, fd))
      && (status.Ok? || status.OutputLimit?)
      && (status.Ok? <==> stdoutCount <= MAX_OUTPUT_BYTES && stderrCount <= MAX_OUTPUT_BYTES)
    }

    constructor ()
      ensures Valid() && log == [] && status.Ok?
    {
      stdoutTail, stderrTail, completion := [], [], [];
      stdoutCount, stderrCount := 0, 0;
      open := {Stdout, Stderr, Completion};
      status := Ok;
      log := [];
      new;
      forall fd: Fd ensures fd in open {
        match fd case Stdout => case Stderr => case Completion =>
      }
    }

    /** Bytes from an open stdout: count, keep the tail, enforce the live bound. */
    method TakeStdout(chunk: Bytes)
      requires Valid() && Stdout in open && chunk != []
      modifies this
      ensures Valid() && log == old(log) + [Ready(Stdout, Data(chunk))]
    {
      ghost var x := Ready(Stdout, Data(chunk));
      LogFacts(log, x);
      TailIsLast(Stream(log, Stdout), chunk);
      stdoutCount := stdoutCount + |chunk|;
      stdoutTail := TailAppend(stdoutTail, chunk);
      if stdoutCount > MAX_OUTPUT_BYTES && status.Ok? {
        status := OutputLimit;
      }
      log := log + [x];
    }

    /** The same for stderr. */
    method TakeStderr(chunk: Bytes)
      requires Valid() && Stderr in open && chunk != []
      modifies this
      ensures Valid() && log == old(log) + [Ready(Stderr, Data(chunk))]
    {
      ghost var x := Ready(Stderr, Data(chunk));
      LogFacts(log, x);
      TailIsLast(Stream(log, Stderr), chunk);
      stderrCount := stderrCount + |chunk|;
      stderrTail := TailAppend(stderrTail, chunk);
      if stderrCount > MAX_OUTPUT_BYTES && status.Ok? {
        status := OutputLimit;
      }
      log := log + [x];
    }

    /** A read that brings no bytes: the descriptor is closed if it has ended. */
    method Note(x: Ready)
      requires Valid() && Silent(log, x)
      modifies this
      ensures Valid() && log == old(log) + [x]
    {
      SilentFacts(log, x);
      if Ends(x.read) {
        open := open - {x.fd};
      }
      log := log + [x];
    }

    /** One ready descriptor: read, close it at its end, or account for the bytes. */
    method Handle(x: Ready)
      requires Valid()
      modifies this
      ensures Valid() && log == old(log) + [x]
    {
      if x.fd !in open || !x.read.Data? || x.read.bytes == [] {
        Note(x);
      } else if x.fd.Completion? {
        LogFacts(log, x);
        completion := completion + x.read.bytes;
        log := log + [x];
      } else if x.fd.Stdout? {
        TakeStdout(x.read.bytes);
      } else {
        TakeStderr(x.read.bytes);
      }
    }

    method HandleAll(events: seq<Ready>)
      requires Valid()
      modifies this
      ensures Valid() && log == old(log) + events
    {
      for i := 0 to |events|
        invariant Valid() && log == old(log) + events[..i]
      {
        Handle(events[i]);
        assert events[..i + 1] == events[..i] + [events[i]];
      }
      assert events[..|events|] == events;
    }
  }

  /** How the loop was left. */
  datatype Exit = TimedOut | Retained | Settled | Drained | LimitHit | Broken | Unfinished

  /** Result of one candidate. */
  datatype Verdict = Verdict(
    status: Status, exit: Exit, stdoutTail: Bytes, stderrTail: Bytes, stdoutBytes: nat, stderrBytes: nat)

  function Reads(turns: seq<Turn>): (r: seq<Ready>) {
    if turns == [] then []
    else
      var x := turns[|turns| - 1];
      Reads(turns[..|turns| - 1]) + if x.Turn? then x.events else []
  }

  lemma ReadsMore(turns: seq<Turn>, k: nat)
    requires k < |turns|
    ensures Reads(turns[..k + 1]) == Reads(turns[..k]) + if turns[k].Turn? then turns[k].events else []
  {
    assert turns[..k + 1][..k] == turns[..k];
  }

  // ------------------------------------------------------------------
  // When the loop is left
  // ------------------------------------------------------------------

  /** How long a schedule is run for. */
  datatype Limits = Limits(deadline: real, settle: real)

  /** Past its deadline and still running. */
  predicate Overdue(t: Turn, l: Limits) { t.Turn? && t.now >= l.deadline && t.running }

  /** When the pipes must have settled, as of turn `k`: a while after the process was first seen to have exited. */
  function SettleAt(turns: seq<Turn>, k: nat, l: Limits): (r: Option<real>)
    requires k < |turns|
  {
    var before := if k == 0 then None else SettleAt(turns, k - 1, l);
    if before.Some? then before
    else if turns[k].Turn? && turns[k].exited then Some(turns[k].now + l.settle) else None
  }

  predicate SettledBy(turns: seq<Turn>, k: nat, l: Limits)
    requires k < |turns|
  {
    var t := SettleAt(turns, k, l);
    turns[k].Turn? && t.Some? && turns[k].now >= t.value
  }

  predicate Within(log: seq<Ready>) {
    |Stream(log, Stdout)| <= 65536 && |Stream(log, Stderr)| <= 65536
  }

  ghost predicate AllEnded(log: seq<Ready>) { Ended(log, Stdout) && Ended(log, Stderr) && Ended(log, Completion) }

  /** Turn `k` reads, is within bounds afterwards, and goes on. */
  ghost predicate GoesOn(turns: seq<Turn>, k: nat, l: Limits)
    requires k < |turns|
  {
    && Reading(turns, k, l)
    && Within(Reads(turns[..k + 1])) && !(turns[k].gone && AllEnded(Reads(turns[..k + 1])))
  }

  /** Nothing keeps turn `k` from reading. */
  predicate Reading(turns: seq<Turn>, k: nat, l: Limits)
    requires k < |turns|
  {
    turns[k].Turn? && !Overdue(turns[k], l) && !SettledBy(turns, k, l)
  }

  /** Why the loop was left after the reads of `used` turns. */
  ghost predicate LeftBecause(exit: Exit, turns: seq<Turn>, used: nat, l: Limits)
    requires used <= |turns|
  {
    var log := Reads(turns[..used]);
    match exit
    case TimedOut => used < |turns| && Overdue(turns[used], l)
    case Retained =>
      && used < |turns| && !Overdue(turns[used], l) && SettledBy(turns, used, l)
      && (turns[used].live || !Ended(log, Stdout) || !Ended(log, Stderr))
    case Settled =>
      && used < |turns| && !Overdue(turns[used], l) && SettledBy(turns, used, l)
      && !turns[used].live && Ended(log, Stdout) && Ended(log, Stderr)
    case Drained => used > 0 && Reading(turns, used - 1, l) && Within(log) && turns[used - 1].gone && AllEnded(log)
    case LimitHit => used > 0 && Reading(turns, used - 1, l) && !Within(log)
    case Broken => used > 0 && turns[used - 1].Fault?
    case Unfinished => used == |turns|
  }

  /** The turns before the one that ended it all went on. */
  ghost predicate WentOn(exit: Exit, turns: seq<Turn>, used: nat, l: Limits)
    requires used <= |turns|
  {
    var last := if exit.Drained? || exit.LimitHit? || exit.Broken? then used - 1 else used;
    forall k :: 0 <= k < last ==> GoesOn(turns, k, l)
  }

  /** The status an exit and a return code lead to. */
  ghost predicate StatusIs(status: Status, exit: Exit, returncode: Option<int>, completed: bool) {
    match exit
    case TimedOut => status.Timeout?
    case Retained => status.Failed?
    case LimitHit => status.OutputLimit?
    case Broken => status.GraderError?
    case Unfinished => status.GraderError?
    case _ =>
      if returncode == Some(0) then status == (if completed then Ok else Failed)
      else status == if returncode == Some(-9) || returncode == Some(137) then Oom else Failed
  }

  /** What a turn does before it reads: the deadline, and then the pipes that must have settled. */
  method BeforeReading(
    s: Supervisor, ghost turns: seq<Turn>, ghost k: nat, turn: Turn, l: Limits, pipeDeadline: Option<real>)
    returns (exit: Exit, pipe: Option<real>)
    requires k < |turns| && turns[k] == turn && turn.Turn?
    requires s.Valid() && s.log == Reads(turns[..k])
    requires pipeDeadline == if k == 0 then None else SettleAt(turns, k - 1, l)
    ensures exit.Unfinished? ==> pipe == SettleAt(turns, k, l)
    ensures exit.Unfinished? <==> Reading(turns, k, l)
    ensures !exit.Unfinished? ==>
              (exit.TimedOut? || exit.Retained? || exit.Settled?) && LeftBecause(exit, turns, k, l)
  {
    exit, pipe := Unfinished, pipeDeadline;
    if turn.now >= l.deadline && turn.running {
      return TimedOut, pipe;
    }
    if turn.exited && pipe.None? {
      pipe := Some(turn.now + l.settle);
    }
    if pipe.Some? && turn.now >= pipe.value {
      var held := turn.live || Stdout in s.open || Stderr in s.open;
      exit := if held then Retained else Settled;
    }
  }

  /** One turn of the loop on the supervisor. */
  method TakeTurn(
    s: Supervisor, ghost turns: seq<Turn>, ghost k: nat, turn: Turn, l: Limits, pipeDeadline: Option<real>)
    returns (exit: Exit, pipe: Option<real>, read: bool)
    requires k < |turns| && turns[k] == turn
    requires s.Valid() && s.status.Ok? && s.log == Reads(turns[..k])
    requires pipeDeadline == if k == 0 then None else SettleAt(turns, k - 1, l)
    modifies s
    ensures s.Valid() && s.log == Reads(turns[..if read then k + 1 else k])
    ensures LeftBecause(exit, turns, if read then k + 1 else k, l) || (exit.Unfinished? && read)
    ensures exit.Unfinished? ==> GoesOn(turns, k, l) && s.status.Ok? && pipe == SettleAt(turns, k, l)
    ensures read <==> exit.Drained? || exit.LimitHit? || exit.Broken? || exit.Unfinished?
  {
    ReadsMore(turns, k);
    read := true;
    if turn.Fault? {
      return Broken, pipeDeadline, read;
    }
    exit, pipe := BeforeReading(s, turns, k, turn, l, pipeDeadline);
    if exit.Unfinished? {
      exit := ReadTurn(s, turn);
    } else {
      read := false;
    }
  }

  /** The reads of a turn, and whether they end the loop. */
  method ReadTurn(s: Supervisor, turn: Turn) returns (exit: Exit)
    requires s.Valid() && turn.Turn?
    modifies s
    ensures s.Valid() && s.log == old(s.log) + turn.events
    ensures exit ==
            if !Within(s.log) then LimitHit else if turn.gone && AllEnded(s.log) then Drained else Unfinished
    ensures s.status.Ok? <==> Within(s.log)
  {
    s.HandleAll(turn.events);
    OpenExactly(s);
    exit := if s.status.OutputLimit? then LimitHit else if turn.gone && s.open == {} then Drained else Unfinished;
  }

  lemma OpenExactly(s: Supervisor)
    requires s.Valid()
    ensures s.open == {} <==> AllEnded(s.log)
    ensures s.status.Ok? <==> Within(s.log)
  {
    if s.open != {} {
      var fd :| fd in s.open;
    } else {
      assert forall fd: Fd :: fd !in s.open;
    }
  }

  /**
   Runs the loop over a schedule. The contract says exactly which turn ends it and why, and what
   status follows; a candidate passes exactly when the loop ended by itself with return code 0 and
   the completion marker, and then both outputs were read to their end within bounds.
   */
  method Supervise(turns: seq<Turn>, l: Limits, returncode: Option<int>, marker: Bytes)
    returns (v: Verdict, used: nat)
    ensures used <= |turns|
    ensures LeftBecause(v.exit, turns, used, l) && WentOn(v.exit, turns, used, l)
    ensures
      var log := Reads(turns[..used]);
      && StatusIs(v.status, v.exit, returncode, Stream(log, Completion) == marker)
      && (v.status.Ok? <==>
            && (v.exit.Settled? || v.exit.Drained?)
            && returncode == Some(0) && Stream(log, Completion) == marker)
      && (v.status.Ok? ==> Ended(log, Stdout) && |Stream(log, Stdout)| <= 65536)
      && (v.status.Ok? ==> Ended(log, Stderr) && |Stream(log, Stderr)| <= 65536)
      && v.stdoutTail == Last(Stream(log, Stdout), 4096)
      && v.stderrTail == Last(Stream(log, Stderr), 4096)
      && v.stdoutBytes == |Stream(log, Stdout)| && v.stderrBytes == |Stream(log, Stderr)|
  {
    var s := new Supervisor();
    var pipeDeadline: Option<real> := None;
    var exit := Unfinished;
    used := 0;
    while used < |turns| && exit.Unfinished?
      invariant used <= |turns|
      invariant s.Valid() && s.log == Reads(turns[..used]) && fresh(s)
      invariant exit.Unfinished? ==> s.status.Ok? && Within(s.log)
      invariant exit.Unfinished? ==> pipeDeadline == if used == 0 then None else SettleAt(turns, used - 1, l)
      invariant WentOn(exit, turns, used, l)
      invariant LeftBecause(exit, turns, used, l) || exit.Unfinished?
      invariant exit.Settled? ==> Within(s.log)
      decreases |turns| - used, exit.Unfinished?
    {
      var read;
      exit, pipeDeadline, read := TakeTurn(s, turns, used, turns[used], l, pipeDeadline);
      used := if read then used + 1 else used;
    }
    var status := FinalStatus(exit, returncode, s.completion == marker);
    v := Verdict(status, exit, s.stdoutTail, s.stderrTail, s.stdoutCount, s.stderrCount);
  }

  method FinalStatus(exit: Exit, returncode: Option<int>, completed: bool) returns (status: Status)
    ensures StatusIs(status, exit, returncode, completed)
  {
    match exit {
      case TimedOut => status := Timeout;
      case Retained => status := Failed;
      case LimitHit => status := OutputLimit;
      case Broken => status := GraderError;
      case Unfinished => status := GraderError;
      case _ =>
        if returncode != Some(0) {
          status := if returncode == Some(-9) || returncode == Some(137) then Oom else Failed;
        } else if !completed {
          status := Failed;
        } else {
          status := Ok;
        }
    }
  }
}

/** What the launcher does, and not only what it never does: runs with given replies, step by step. */
module LauncherProgress {
  import opened Common
  import opened Launcher
  import opened LauncherSafety
  import opened Watchdog

  function Replies(rs: seq<Reply>): (inputs: seq<Input>)
    ensures |inputs| == |rs|
  {
    seq(|rs|, i requires 0 <= i < |rs| => Answer(rs[i]))
  }

  lemma RepliesAppend(a: seq<Reply>, b: seq<Reply>)
    ensures Replies(a + b) == Replies(a) + Replies(b)
  {
  }

  lemma ExecReplies1(s: Launch, x: Reply, c: Config)
    ensures Exec(s, Replies([x]), c) == Step(s, x, c)
  {
    assert Replies([x]) == [Answer(x)];
    ExecOne(s, Answer(x), c);
  }

  lemma ExecReplies2(s: Launch, x: Reply, y: Reply, c: Config)
    ensures Exec(s, Replies([x, y]), c) == Step(Step(s, x, c), y, c)
  {
    assert [x, y] == [x] + [y];
    RepliesAppend([x], [y]);
    ExecAppend(s, Replies([x]), Replies([y]), c);
    ExecReplies1(s, x, c);
    ExecReplies1(Step(s, x, c), y, c);
  }

  lemma ExecParts(s: Launch, a: seq<Reply>, b: seq<Reply>, c: Config)
    ensures Exec(s, Replies(a + b), c) == Exec(Exec(s, Replies(a), c), Replies(b), c)
  {
    RepliesAppend(a, b);
    ExecAppend(s, Replies(a), Replies(b), c);
  }

  // ------------------------------------------------------------------
  // Cleanup stops what it holds
  // ------------------------------------------------------------------

  /** In cleanup with the id of a container in hand. */
  predicate HoldsId(s: Launch, id: string) { s.cid == Some(id) && IsHex(id, 64) }

  predicate Labelled(d: Doc, key: string, value: string) { key in d.labels && d.labels[key] == value }

  /** What a document must say to be the launcher's own. */
  predicate IsOwn(d: Doc, id: string, e: Expect) {
    && d.id == id && d.image == e.image
    && OWNER_LABEL in d.labels && d.labels[OWNER_LABEL] == e.nonce
    && PROFILE_LABEL in d.labels && d.labels[PROFILE_LABEL] == e.profile
    && IMAGE_LABEL in d.labels && d.labels[IMAGE_LABEL] == e.image
  }

  /** And with the labels spelled out. */
  lemma OwnedExactly(d: Doc, id: string, e: Expect)
    ensures Owned(d, id, e) <==>
            && d.id == id && d.image == e.image
            && Labelled(d, "io.r0b0tlab.qwen38fn.owner", e.nonce)
            && Labelled(d, "io.r0b0tlab.qwen38fn.profile-sha256", e.profile)
            && Labelled(d, "io.r0b0tlab.qwen38fn.image-id", e.image)
  {
  }

  /** Up to the first inspection. */
  lemma ReachesInspection(s: Launch, r1: Reply, r2: Reply, id: string, c: Config)
    requires s.pc.Resolve? && HoldsId(s, id)
    ensures Exec(s, Replies([r1, r2]), c) == s.(pc := StopInspect)
  {
    ExecReplies2(s, r1, r2, c);
  }

  /** From a verified stop to the end, when the files can be saved. */
  lemma SavesAndReturns(s: Launch, c: Config)
    requires s.pc.SaveFinal?
    ensures Exec(s, Replies([Good, Good]), c) ==
            s.(pc := Done, trace := s.trace + [Unlocked] + [Returned(s.rc)])
  {
    ExecReplies2(s, Good, Good, c);
  }

  lemma StopsRunning(s: Launch, d1: Doc, d2: Doc, id: string, c: Config)
    requires s.pc.StopInspect? && HoldsId(s, id)
    requires IsOwn(d1, id, c.epoch) && (d1.running.IsTrue? || d1.running.OtherTruthy?)
    requires IsOwn(d2, id, c.epoch) && d2.running.IsFalse?
    ensures Exec(s, Replies([Inspection(d1), Good, Inspection(d2)]), c) ==
            s.(pc := SaveFinal, verified := true,
               trace := s.trace + [Inspected(id, d1)] + [StopCall(id)] + [Inspected(id, d2)] + [StopVerified(id)])
  {
    assert [Inspection(d1), Good, Inspection(d2)] == [Inspection(d1), Good] + [Inspection(d2)];
    ExecParts(s, [Inspection(d1), Good], [Inspection(d2)], c);
    SendsStop(s, d1, id, c);
    var u := Exec(s, Replies([Inspection(d1), Good]), c);
    ExecReplies1(u, Inspection(d2), c);
    SeesStopped(u, d2, id, c);
  }

  lemma SeesStopped(s: Launch, d: Doc, id: string, c: Config)
    requires s.pc.FinalInspect? && HoldsId(s, id)
    requires IsOwn(d, id, c.epoch) && d.running.IsFalse?
    ensures Step(s, Inspection(d), c) ==
            s.(pc := SaveFinal, verified := true, trace := s.trace + [Inspected(id, d)] + [StopVerified(id)])
  {
  }

  lemma SendsStop(s: Launch, d: Doc, id: string, c: Config)
    requires s.pc.StopInspect? && HoldsId(s, id)
    requires IsOwn(d, id, c.epoch) && (d.running.IsTrue? || d.running.OtherTruthy?)
    ensures Exec(s, Replies([Inspection(d), Good]), c) ==
            s.(pc := FinalInspect, trace := s.trace + [Inspected(id, d)] + [StopCall(id)])
  {
    ExecReplies2(s, Inspection(d), Good, c);
  }

  lemma StopsStopped(s: Launch, d1: Doc, d2: Doc, id: string, c: Config)
    requires s.pc.StopInspect? && HoldsId(s, id)
    requires IsOwn(d1, id, c.epoch) && (d1.running.IsFalse? || d1.running.OtherFalsy?)
    requires IsOwn(d2, id, c.epoch) && d2.running.IsFalse?
    ensures Exec(s, Replies([Inspection(d1), Inspection(d2)]), c) ==
            s.(pc := SaveFinal, verified := true,
               trace := s.trace + [Inspected(id, d1)] + [Inspected(id, d2)] + [StopVerified(id)])
  {
    ExecReplies2(s, Inspection(d1), Inspection(d2), c);
  }

  /**
   From any point where cleanup begins with a container in hand: if the next inspection finds it
   the launcher's own and running, the stop is accepted, and the final inspection finds it its own
   and not running, then it is stopped exactly once, its stop is verified, and the code is kept.
   */
  lemma CleanupStops(s: Launch, r1: Reply, r2: Reply, d1: Doc, d2: Doc, id: string, c: Config)
    requires s.pc.Resolve? && HoldsId(s, id)
    requires IsOwn(d1, id, c.epoch) && (d1.running.IsTrue? || d1.running.OtherTruthy?)
    requires IsOwn(d2, id, c.epoch) && d2.running.IsFalse?
    ensures
      var t := Exec(s, Replies([r1, r2] + ([Inspection(d1), Good, Inspection(d2)] + [Good, Good])), c);
      && t.pc.Done? && t.rc == s.rc && t.verified
      && t.trace ==
           s.trace + [Inspected(id, d1)] + [StopCall(id)] + [Inspected(id, d2)] + [StopVerified(id)]
           + [Unlocked] + [Returned(s.rc)]
  {
    ExecParts(s, [r1, r2], [Inspection(d1), Good, Inspection(d2)] + [Good, Good], c);
    ReachesInspection(s, r1, r2, id, c);
    var u := s.(pc := StopInspect);
    ExecParts(u, [Inspection(d1), Good, Inspection(d2)], [Good, Good], c);
    StopsRunning(u, d1, d2, id, c);
    SavesAndReturns(Exec(u, Replies([Inspection(d1), Good, Inspection(d2)]), c), c);
  }

  /** The same for a container found stopped already: no stop is sent. */
  lemma CleanupFindsStopped(s: Launch, r1: Reply, r2: Reply, d1: Doc, d2: Doc, id: string, c: Config)
    requires s.pc.Resolve? && HoldsId(s, id)
    requires IsOwn(d1, id, c.epoch) && (d1.running.IsFalse? || d1.running.OtherFalsy?)
    requires IsOwn(d2, id, c.epoch) && d2.running.IsFalse?
    ensures
      var t := Exec(s, Replies([r1, r2] + ([Inspection(d1), Inspection(d2)] + [Good, Good])), c);
      && t.pc.Done? && t.rc == s.rc && t.verified
      && t.trace ==
           s.trace + [Inspected(id, d1)] + [Inspected(id, d2)] + [StopVerified(id)] + [Unlocked] + [Returned(s.rc)]
  {
    ExecParts(s, [r1, r2], [Inspection(d1), Inspection(d2)] + [Good, Good], c);
    ReachesInspection(s, r1, r2, id, c);
    var u := s.(pc := StopInspect);
    ExecParts(u, [Inspection(d1), Inspection(d2)], [Good, Good], c);
    StopsStopped(u, d1, d2, id, c);
    SavesAndReturns(Exec(u, Replies([Inspection(d1), Inspection(d2)]), c), c);
  }

  // ------------------------------------------------------------------
  // Cleanup always tries
  // ------------------------------------------------------------------

  lemma AdmissionGrows(s: Launch, r: Reply)
    ensures s.trace <= StepAdmission(s, r).trace
  {
  }

  lemma CreationGrows(s: Launch, r: Reply, c: Config)
    ensures s.trace <= StepCreation(s, r, c).trace
  {
  }

  lemma WatchGrows(s: Launch, r: Reply, c: Config)
    ensures s.trace <= StepWatch(s, r, c).trace
  {
  }

  lemma ResolveGrows(s: Launch, r: Reply, c: Config)
    ensures s.trace <= StepResolve(s, r, c).trace
  {
  }

  lemma StopGrows(s: Launch, r: Reply, c: Config)
    ensures s.trace <= StepStopInspect(s, r, c).trace && s.trace <= StepFinalInspect(s, r, c).trace
  {
  }

  lemma CleanupGrows(s: Launch, r: Reply, c: Config)
    ensures s.trace <= StepCleanup(s, r, c).trace
  {
    if s.pc.Resolve? {
      ResolveGrows(s, r, c);
    } else if s.pc.StopInspect? || s.pc.FinalInspect? {
      StopGrows(s, r, c);
    }
  }

  lemma AdvanceGrows(s: Launch, i: Input, c: Config)
    ensures s.trace <= Advance(s, i, c).trace
  {
    if i.Answer? {
      AdmissionGrows(s, i.r);
      CreationGrows(s, i.r, c);
      WatchGrows(s, i.r, c);
      CleanupGrows(s, i.r, c);
    }
  }

  lemma {:induction false} ExecGrows(s: Launch, inputs: seq<Input>, c: Config)
    ensures s.trace <= Exec(s, inputs, c).trace
    decreases |inputs|
  {
    if inputs != [] {
      AdvanceGrows(s, inputs[0], c);
      ExecGrows(Advance(s, inputs[0], c), inputs[1..], c);
    }
  }

  /** About to inspect the container in hand. */
  predicate AboutToInspect(s: Launch, id: string) {
    HoldsId(s, id) && (s.pc.Resolve? || s.pc.CheckCid? || s.pc.StopInspect?)
  }

  /** The inspection of `id` was made, or was tried and failed. */
  predicate Tried(x: Event, id: string) { x.CallFailed? || (x.Inspected? && x.target == id) }

  lemma OneStepTries(s: Launch, i: Input, id: string, c: Config)
    requires AboutToInspect(s, id)
    ensures
      var t := Advance(s, i, c);
      || (AboutToInspect(t, id) && t.trace == s.trace)
      || (|t.trace| > |s.trace| && Tried(t.trace[|s.trace|], id))
  {
  }

  /** Whatever the replies, cleanup that has a container in hand does not end without trying to inspect it. */
  lemma {:induction false} CleanupTries(s: Launch, inputs: seq<Input>, id: string, c: Config)
    requires AboutToInspect(s, id) && Exec(s, inputs, c).pc.Done?
    ensures
      var t := Exec(s, inputs, c);
      s.trace <= t.trace && |t.trace| > |s.trace| && Tried(t.trace[|s.trace|], id)
    decreases |inputs|
  {
    ExecGrows(s, inputs, c);
    var u := Advance(s, inputs[0], c);
    OneStepTries(s, inputs[0], id, c);
    if AboutToInspect(u, id) && u.trace == s.trace {
      CleanupTries(u, inputs[1..], id, c);
    } else {
      ExecGrows(u, inputs[1..], c);
    }
  }

  /** Past the first inspection of cleanup, or returned. */
  predicate PastInspect(s: Launch, id: string) {
    && HoldsId(s, id)
    && (s.pc.AwaitStop? || s.pc.FinalInspect? || s.pc.SaveFinal? || s.pc.SaveRecord? || s.pc.Done?)
  }

  lemma PastComesFrom(s: Launch, i: Input, id: string, c: Config)
    requires PcInv(s, c.epoch) && PastInspect(Advance(s, i, c), id)
    ensures PastInspect(s, id) || AboutToInspect(s, id)
  {
    if i.Answer? {
      if InAdmission(s.pc) {
        NoIdYet(s, i.r, c);
      } else if InCreation(s.pc) || InWatch(s.pc) {
        NotCleanedYet(s, i.r, c);
      } else {
        CleanupComesFrom(s, i.r, id, c);
      }
    }
  }

  lemma NoIdYet(s: Launch, r: Reply, c: Config)
    requires PcInv(s, c.epoch) && InAdmission(s.pc)
    ensures StepAdmission(s, r).cid.None?
  {
  }

  lemma NotCleanedYet(s: Launch, r: Reply, c: Config)
    requires InCreation(s.pc) || InWatch(s.pc)
    ensures var pc := Step(s, r, c).pc; pc.Resolve? || InCreation(pc) || InWatch(pc)
  {
  }

  lemma CleanupComesFrom(s: Launch, r: Reply, id: string, c: Config)
    requires InCleanup(s.pc) || s.pc.Done?
    requires PastInspect(StepCleanup(s, r, c), id)
    ensures PastInspect(s, id) || AboutToInspect(s, id)
  {
    if s.pc.Resolve? {
      ResolveComesFrom(s, r, id, c);
    } else {
      IdKept(s, r, c);
    }
  }

  lemma ResolveComesFrom(s: Launch, r: Reply, id: string, c: Config)
    requires s.pc.Resolve? && PastInspect(StepResolve(s, r, c), id)
    ensures HoldsId(s, id)
  {
  }

  lemma IdKept(s: Launch, r: Reply, c: Config)
    requires !s.pc.Resolve?
    ensures StepCleanup(s, r, c).cid == s.cid
  {
  }

  /** Every finished run that has a container in hand was about to inspect it at some point. */
  lemma {:induction false} CameThroughInspect(inputs: seq<Input>, id: string, c: Config) returns (k: nat)
    requires PastInspect(Exec(Init, inputs, c), id)
    ensures k <= |inputs| && AboutToInspect(Exec(Init, inputs[..k], c), id)
    decreases |inputs|
  {
    if inputs == [] {
      assert false;
    } else {
      var n := |inputs| - 1;
      var s := Exec(Init, inputs[..n], c);
      assert inputs == inputs[..n] + [inputs[n]];
      ExecAppend(Init, inputs[..n], [inputs[n]], c);
      ExecOne(s, inputs[n], c);
      RunInv(inputs[..n], c);
      PastComesFrom(s, inputs[n], id, c);
      if AboutToInspect(s, id) {
        k := n;
      } else {
        k := CameThroughInspect(inputs[..n], id, c);
        assert inputs[..n][..k] == inputs[..k];
      }
    }
  }

  /** So it tried: the attempt is in the trace, after everything that came before cleanup. */
  lemma FinishedRunTried(inputs: seq<Input>, id: string, c: Config) returns (k: nat)
    requires
      var s := Exec(Init, inputs, c);
      s.pc.Done? && HoldsId(s, id)
    ensures k <= |inputs|
    ensures
      var (before, after) := (Exec(Init, inputs[..k], c).trace, Exec(Init, inputs, c).trace);
      before <= after && |before| < |after| && Tried(after[|before|], id)
  {
    k := CameThroughInspect(inputs, id, c);
    assert inputs == inputs[..k] + inputs[k..];
    ExecAppend(Init, inputs[..k], inputs[k..], c);
    CleanupTries(Exec(Init, inputs[..k], c), inputs[k..], id, c);
  }

  // ------------------------------------------------------------------
  // A launch that goes well
  // ------------------------------------------------------------------

  /** The replies up to the watch loop: everything in order, container `id`, found the launcher's own as `d`. */
  function LaunchReplies(id: string, d: Doc): (rs: seq<Reply>) {
    [Good, Good] + ([Good, Good] + ([Good, Good]
      + ([Good, Text(id)] + ([Good, Inspection(d)] + ([Good, Good] + [Good, Good])))))
  }

  /** The trace up to there. */
  function LaunchTrace(id: string, d: Doc): (t: seq<Event>) {
    [Locked, ReceiptAccepted, ImageChecked,
      CreateCall, CreateReply(id), Inspected(id, d), ReceiptAccepted, StartCall(id)]
  }

  lemma AdmissionSteps(c: Config)
    ensures
      var s1 := Launch(Preflight, 3, None, false, 0, None, false, [Locked]);
      var s2 := Launch(Image, 4, None, false, 0, None, false, [Locked, ReceiptAccepted]);
      var s3 := Launch(PreCreate, 5, None, false, 0, None, false, [Locked, ReceiptAccepted, ImageChecked]);
      && Step(Step(Init, Good, c), Good, c) == s1
      && Step(Step(s1, Good, c), Good, c) == s2
      && Step(Step(s2, Good, c), Good, c) == s3
  {
    assert [] + [Locked] == [Locked];
    assert [Locked] + [ReceiptAccepted] == [Locked, ReceiptAccepted];
    assert [Locked, ReceiptAccepted] + [ImageChecked] == [Locked, ReceiptAccepted, ImageChecked];
  }

  lemma CreationSteps(id: string, d: Doc, c: Config)
    requires IsHex(id, 64) && IsOwn(d, id, c.epoch)
    ensures
      var t := LaunchTrace(id, d);
      var s3 := Launch(PreCreate, 5, None, false, 0, None, false, [Locked, ReceiptAccepted, ImageChecked]);
      var s4 := Launch(SaveCid, 5, Some(id), true, 0, None, false, t[..5]);
      var s5 := Launch(Gate, 5, Some(id), true, 0, None, false, t[..6]);
      && Step(Step(s3, Good, c), Text(id), c) == s4
      && Step(Step(s4, Good, c), Inspection(d), c) == s5
  {
    var t := LaunchTrace(id, d);
    assert [Locked, ReceiptAccepted, ImageChecked] + [CreateCall] + [CreateReply(id)] == t[..5];
    assert t[..5] + [Inspected(id, d)] == t[..6];
  }

  lemma StartSteps(id: string, d: Doc, c: Config)
    ensures
      var t := LaunchTrace(id, d);
      var s5 := Launch(Gate, 5, Some(id), true, 0, None, false, t[..6]);
      var s6 := Launch(AwaitStart, 5, Some(id), true, 0, None, false, t);
      && Step(Step(s5, Good, c), Good, c) == s6
      && Step(Step(s6, Good, c), Good, c) == s6.(pc := WatchInspect, rc := 8)
  {
    var t := LaunchTrace(id, d);
    assert t[..6] + [ReceiptAccepted] + [StartCall(id)] == t;
  }

  lemma TwoMore(s: Launch, x: Reply, y: Reply, rest: seq<Reply>, c: Config)
    ensures Exec(s, Replies([x, y] + rest), c) == Exec(Step(Step(s, x, c), y, c), Replies(rest), c)
  {
    ExecParts(s, [x, y], rest, c);
    ExecReplies2(s, x, y, c);
  }

  /** Everything in order: one create, an owned inspection, two receipts, one start, and then it watches. */
  lemma LaunchReachesWatch(id: string, d: Doc, c: Config)
    requires IsHex(id, 64) && IsOwn(d, id, c.epoch)
    ensures Exec(Init, Replies(LaunchReplies(id, d)), c) ==
            Launch(WatchInspect, 8, Some(id), true, 0, None, false, LaunchTrace(id, d))
  {
    var t := LaunchTrace(id, d);
    var s1 := Launch(Preflight, 3, None, false, 0, None, false, [Locked]);
    var s2 := Launch(Image, 4, None, false, 0, None, false, [Locked, ReceiptAccepted]);
    var s3 := Launch(PreCreate, 5, None, false, 0, None, false, [Locked, ReceiptAccepted, ImageChecked]);
    var s4 := Launch(SaveCid, 5, Some(id), true, 0, None, false, t[..5]);
    var s5 := Launch(Gate, 5, Some(id), true, 0, None, false, t[..6]);
    var s6 := Launch(AwaitStart, 5, Some(id), true, 0, None, false, t);
    AdmissionSteps(c);
    CreationSteps(id, d, c);
    StartSteps(id, d, c);
    var r6: seq<Reply> := [Good, Good];
    var r5 := [Good, Good] + r6;
    var r4 := [Good, Inspection(d)] + r5;
    var r3 := [Good, Text(id)] + r4;
    var r2 := [Good, Good] + r3;
    var r1 := [Good, Good] + r2;
    TwoMore(Init, Good, Good, r1, c);
    TwoMore(s1, Good, Good, r2, c);
    TwoMore(s2, Good, Good, r3, c);
    TwoMore(s3, Good, Text(id), r4, c);
    TwoMore(s4, Good, Inspection(d), r5, c);
    TwoMore(s5, Good, Good, r6, c);
    ExecReplies2(s6, Good, Good, c);
  }

  /** What a container's end makes of the code: its own, or 8 for a clean code after an OOM kill. */
  function CodeOf(exit: int, oomKilled: bool): (rc: int) { if exit == 0 && oomKilled then 8 else exit }

  lemma SeesExit(s: Launch, d: Doc, id: string, exit: int, c: Config)
    requires s.pc.WatchInspect? && HoldsId(s, id)
    requires IsOwn(d, id, c.epoch) && d.running.IsFalse? && d.exitCode == Some(exit) && 0 <= exit <= 255
    ensures
      var rc := CodeOf(exit, d.oomKilled);
      Exec(s, Replies([Inspection(d)]), c) ==
        s.(pc := Resolve, rc := rc, trace := s.trace + [Inspected(id, d)] + [ExitSeen(id, rc)])
  {
    ExecReplies1(s, Inspection(d), c);
  }

  /**
   A run in which nothing goes wrong and the container ends by itself with `exit` returns exactly
   that code, or 8 for 0 after an OOM kill, having found the container stopped twice more.
   */
  lemma RunReturnsExit(id: string, d: Doc, last: Doc, d1: Doc, d2: Doc, exit: int, c: Config)
    requires IsHex(id, 64) && IsOwn(d, id, c.epoch)
    requires IsOwn(last, id, c.epoch) && last.running.IsFalse? && last.exitCode == Some(exit) && 0 <= exit <= 255
    requires IsOwn(d1, id, c.epoch) && d1.running.IsFalse? && IsOwn(d2, id, c.epoch) && d2.running.IsFalse?
    ensures
      var rc := CodeOf(exit, last.oomKilled);
      var end := [Good, Good] + ([Inspection(d1), Inspection(d2)] + [Good, Good]);
      var t := Exec(Init, Replies(LaunchReplies(id, d) + ([Inspection(last)] + end)), c);
      && t.pc.Done? && t.rc == rc && t.verified
      && t.trace ==
           LaunchTrace(id, d) + [Inspected(id, last)] + [ExitSeen(id, rc)]
           + [Inspected(id, d1)] + [Inspected(id, d2)] + [StopVerified(id)] + [Unlocked] + [Returned(rc)]
  {
    var end := [Good, Good] + ([Inspection(d1), Inspection(d2)] + [Good, Good]);
    ExecParts(Init, LaunchReplies(id, d), [Inspection(last)] + end, c);
    LaunchReachesWatch(id, d, c);
    var s := Exec(Init, Replies(LaunchReplies(id, d)), c);
    ExecParts(s, [Inspection(last)], end, c);
    SeesExit(s, last, id, exit, c);
    CleanupFindsStopped(Exec(s, Replies([Inspection(last)]), c), Good, Good, d1, d2, id, c);
  }

  // ------------------------------------------------------------------
  // A signal
  // ------------------------------------------------------------------

  lemma SignalThen(s: Launch, n: nat, rs: seq<Reply>, c: Config)
    requires !s.pc.Done?
    ensures Exec(s, [Signal(n)] + Replies(rs), c) == Exec(s.(event := Some(n)), Replies(rs), c)
  {
    ExecAppend(s, [Signal(n)], Replies(rs), c);
    ExecOne(s, Signal(n), c);
  }

  lemma SeesSignal(s: Launch, d: Doc, id: string, n: nat, r: Reply, c: Config)
    requires s.pc.WatchInspect? && HoldsId(s, id) && s.event == Some(n)
    requires IsOwn(d, id, c.epoch) && d.running.IsTrue?
    ensures Exec(s, Replies([Inspection(d), r]), c) ==
            s.(pc := Resolve, rc := 128 + n, trace := s.trace + [Inspected(id, d)])
  {
    ExecReplies2(s, Inspection(d), r, c);
  }

  /** A signal while the container runs: it is stopped, the stop is verified, and the code is 128 and the number. */
  lemma SignalStops(s: Launch, d: Doc, d1: Doc, d2: Doc, id: string, n: nat, r: Reply, c: Config)
    requires s.pc.WatchInspect? && HoldsId(s, id)
    requires IsOwn(d, id, c.epoch) && d.running.IsTrue?
    requires IsOwn(d1, id, c.epoch) && d1.running.IsTrue? && IsOwn(d2, id, c.epoch) && d2.running.IsFalse?
    ensures
      var end := [Good, Good] + ([Inspection(d1), Good, Inspection(d2)] + [Good, Good]);
      var t := Exec(s, [Signal(n)] + Replies([Inspection(d), r] + end), c);
      && t.pc.Done? && t.rc == 128 + n && t.verified
      && t.trace ==
           s.trace + [Inspected(id, d)] + [Inspected(id, d1)] + [StopCall(id)] + [Inspected(id, d2)]
           + [StopVerified(id)] + [Unlocked] + [Returned(128 + n)]
  {
    var end := [Good, Good] + ([Inspection(d1), Good, Inspection(d2)] + [Good, Good]);
    var u := s.(event := Some(n));
    SignalThen(s, n, [Inspection(d), r] + end, c);
    ExecParts(u, [Inspection(d), r], end, c);
    SeesSignal(u, d, id, n, r, c);
    CleanupStops(Exec(u, Replies([Inspection(d), r]), c), Good, Good, d1, d2, id, c);
  }

  // ------------------------------------------------------------------
  // What goes wrong, and the code it leaves
  // ------------------------------------------------------------------

  /** The run is over with this code and these last events. */
  predicate EndsWith(t: Launch, s: Launch, rc: int, events: seq<Event>) {
    t.pc.Done? && t.rc == rc && t.cid == s.cid && t.trace == s.trace + events
  }

  /** Before the lock is held: a plan is 0, a bad argument or file is 2, a lock held elsewhere is 9. */
  lemma BeforeLockCodes(c: Config)
    ensures EndsWith(Step(Init, PlanOnly, c), Init, 0, [Planned, Returned(0)])
    ensures EndsWith(Step(Init, Bad, c), Init, 2, [Returned(2)])
    ensures EndsWith(Step(Step(Init, Good, c), Busy, c), Init, 9, [Returned(9)])
    ensures EndsWith(Step(Step(Init, Good, c), Bad, c), Init, 2, [Returned(2)])
  {
    assert [] + [Planned] + [Returned(0)] == [] + [Planned, Returned(0)];
  }

  /** Under the lock and before create: 3 for the preflight, 4 for the receipt, the image and the files. */
  lemma UnderLockCodes(s: Launch, c: Config)
    requires
      || (s.pc.Preflight? && s.rc == 3)
      || ((s.pc.Receipt1? || s.pc.Image? || s.pc.Prepare?) && s.rc == 4)
    ensures
      var rc := if s.pc.Preflight? then 3 else 4;
      EndsWith(Step(s, Bad, c), s, rc, [Unlocked, Returned(rc)])
  {
    assert s.trace + [Unlocked] + [Returned(s.rc)] == s.trace + [Unlocked, Returned(s.rc)];
  }

  /** Cleanup begins with this code and these last events. */
  predicate CleansUpWith(t: Launch, s: Launch, rc: int, events: seq<Event>) {
    t.pc.Resolve? && t.rc == rc && t.trace == s.trace + events
  }

  /** A signal that came in before create: nothing is created. */
  lemma SignalBeforeCreate(s: Launch, n: nat, r: Reply, c: Config)
    requires s.pc.PreCreate? && s.event == Some(n)
    ensures CleansUpWith(Step(s, r, c), s, 128 + n, []) && Step(s, r, c).createAttempted == s.createAttempted
  {
    assert s.trace + [] == s.trace;
  }

  /** From create to start: 5, or 4 when the second receipt check fails, or 128 and the signal. */
  lemma CreationCodes(s: Launch, id: string, c: Config)
    requires s.rc == 5
    ensures s.pc.AwaitCreate? ==> CleansUpWith(Step(s, Bad, c), s, 5, [CallFailed])
    ensures s.pc.AwaitCreate? && !IsHex(id, 64) ==> CleansUpWith(Step(s, Text(id), c), s, 5, [CreateReply(id)])
    ensures s.pc.SaveCid? ==> CleansUpWith(Step(s, Bad, c), s, 5, [])
    ensures s.pc.Inspect1? ==> CleansUpWith(Step(s, Bad, c), s, 5, [CallFailed])
    ensures s.pc.Gate? && s.event.Some? ==> CleansUpWith(Step(s, Good, c), s, 128 + s.event.value, [])
    ensures s.pc.Gate? && s.event.None? ==> CleansUpWith(Step(Step(s, Good, c), Bad, c), s, 4, [])
    ensures s.pc.AwaitStart? ==> CleansUpWith(Step(s, Bad, c), s, 5, [CallFailed])
    ensures s.pc.AwaitStart? ==> CleansUpWith(Step(Step(s, Good, c), Bad, c), s, 8, [])
  {
    assert s.trace + [] == s.trace;
  }

  /** A container that is not the launcher's own is never started. */
  lemma ForeignIsNotStarted(s: Launch, d: Doc, id: string, c: Config)
    requires s.pc.Inspect1? && HoldsId(s, id) && s.rc == 5 && !IsOwn(d, id, c.epoch)
    ensures CleansUpWith(Step(s, Inspection(d), c), s, 5, [Inspected(id, d)])
  {
  }

  /** In the watch loop: 8 for a document that is not its own, is unclear, or has no valid exit code. */
  lemma WatchCodes(s: Launch, d: Doc, id: string, c: Config)
    requires s.pc.WatchInspect? && HoldsId(s, id) && s.rc == 8
    requires
      || !IsOwn(d, id, c.epoch)
      || d.running.OtherTruthy? || d.running.OtherFalsy?
      || (d.running.IsFalse? && (d.exitCode.None? || d.exitCode.value < 0 || d.exitCode.value > 255))
    ensures CleansUpWith(Step(s, Inspection(d), c), s, 8, [Inspected(id, d)])
    ensures CleansUpWith(Step(s, Bad, c), s, 8, [CallFailed])
  {
  }

  /** The deadline of the watch, and going round otherwise. */
  lemma DeadlineCodes(s: Launch, c: Config)
    requires s.pc.WatchDeadline?
    ensures CleansUpWith(Step(s, Expired, c), s, 8, []) && Step(s, Good, c) == s.(pc := WatchInspect)
  {
    assert s.trace + [] == s.trace;
  }

  // ------------------------------------------------------------------
  // Cleanup: what it finds, and when it gives up
  // ------------------------------------------------------------------

  /** A create whose reply was lost: the id is taken from the file that Docker wrote. */
  lemma ResolvesFromFile(s: Launch, id: string, r: Reply, c: Config)
    requires s.pc.Resolve? && s.cid.None? && s.createAttempted && IsHex(id, 64)
    ensures Exec(s, Replies([CidFile(id), r]), c) == s.(pc := StopInspect, cid := Some(id))
  {
    ExecReplies2(s, CidFile(id), r, c);
  }

  /** Or, when there is no such file, from the container of the launcher's own name, if it is its own. */
  lemma ResolvesFromName(s: Launch, d: Doc, r: Reply, c: Config)
    requires s.pc.Resolve? && s.cid.None? && s.createAttempted && IsHex(d.id, 64) && IsOwn(d, d.id, c.epoch)
    ensures Exec(s, Replies([Inspection(d), r]), c) ==
            s.(pc := StopInspect, cid := Some(d.id), trace := s.trace + [Inspected("qwen38fn-" + c.epoch.nonce, d)])
  {
    ExecReplies2(s, Inspection(d), r, c);
  }

  /** What looking for a created container by its name leaves in the trace. */
  function Found(s: Launch, r: Reply, c: Config): (events: seq<Event>) {
    if !s.createAttempted then []
    else if r.Inspection? then [Inspected("qwen38fn-" + c.epoch.nonce, r.doc)]
    else [CallFailed]
  }

  /** A file with anything but an id: cleanup gives up, and so does a run that cannot read it. */
  lemma BadCidFile(s: Launch, text: string, r: Reply, c: Config)
    requires s.pc.Resolve? && s.cid.None? && s.createAttempted && text != "" && !IsHex(text, 64)
    ensures GaveUp(Exec(s, Replies([CidFile(text), r]), c), s, [])
    ensures EndsWith(Step(s, Unreadable, c), s, OrSeven(s.rc), [Unlocked, Returned(OrSeven(s.rc))])
  {
    ExecReplies2(s, CidFile(text), r, c);
    assert s.trace + [] == s.trace;
    assert s.trace + [Unlocked] + [Returned(OrSeven(s.rc))] == s.trace + [Unlocked, Returned(OrSeven(s.rc))];
  }

  /** Nothing was created, or nothing of its own can be found: the record is saved and the code returned. */
  lemma NothingToStop(s: Launch, r1: Reply, r2: Reply, c: Config)
    requires s.pc.Resolve? && s.cid.None?
    requires
      || !s.createAttempted || r1.Bad?
      || (r1.Inspection? && !(IsHex(r1.doc.id, 64) && IsOwn(r1.doc, r1.doc.id, c.epoch)))
    ensures
      var t := Exec(s, Replies([r1, r2] + [Good]), c);
      EndsWith(t, s, s.rc, Found(s, r1, c) + [Unlocked, Returned(s.rc)])
  {
    ExecParts(s, [r1, r2], [Good], c);
    ExecReplies2(s, r1, r2, c);
    FindsNothing(s, r1, c);
    var u := Step(Step(s, r1, c), r2, c);
    ExecReplies1(u, Good, c);
    LastSave(u, c);
    Assoc(s.trace, Found(s, r1, c), [Unlocked, Returned(s.rc)]);
  }

  lemma FindsNothing(s: Launch, r: Reply, c: Config)
    requires s.pc.Resolve? && s.cid.None?
    requires
      || !s.createAttempted || r.Bad?
      || (r.Inspection? && !(IsHex(r.doc.id, 64) && IsOwn(r.doc, r.doc.id, c.epoch)))
    ensures Step(s, r, c) == s.(pc := CheckCid, trace := s.trace + Found(s, r, c))
  {
    assert s.trace + [] == s.trace;
  }

  /** The code after something went wrong in cleanup. */
  function OrSeven(rc: int): (r: int) { if rc == 0 then 7 else rc }

  /** Cleanup went wrong: on to the record, with 0 turned into 7, and no stop verified. */
  predicate GaveUp(t: Launch, s: Launch, events: seq<Event>) {
    t.pc.SaveRecord? && t.rc == OrSeven(s.rc) && t.verified == s.verified && t.trace == s.trace + events
  }

  /** What makes cleanup give up: a call that fails, a document not its own, a container not seen to stop. */
  lemma CleanupGivesUp(s: Launch, d: Doc, id: string, c: Config)
    requires HoldsId(s, id)
    ensures s.pc.StopInspect? ==> GaveUp(Step(s, Bad, c), s, [CallFailed])
    ensures s.pc.StopInspect? && !IsOwn(d, id, c.epoch) ==> GaveUp(Step(s, Inspection(d), c), s, [Inspected(id, d)])
    ensures s.pc.AwaitStop? ==> GaveUp(Step(s, Bad, c), s, [CallFailed])
    ensures s.pc.FinalInspect? ==> GaveUp(Step(s, Bad, c), s, [CallFailed])
    ensures s.pc.FinalInspect? && (!IsOwn(d, id, c.epoch) || !d.running.IsFalse?) ==>
              GaveUp(Step(s, Inspection(d), c), s, [Inspected(id, d)])
    ensures s.pc.SaveFinal? ==> GaveUp(Step(s, Bad, c), s, [])
  {
    assert s.trace + [] == s.trace;
  }

  /** The last save: its failure, too, only turns 0 into 7. */
  lemma LastSave(s: Launch, c: Config)
    requires s.pc.SaveRecord?
    ensures EndsWith(Step(s, Good, c), s, s.rc, [Unlocked, Returned(s.rc)])
    ensures EndsWith(Step(s, Bad, c), s, OrSeven(s.rc), [Unlocked, Returned(OrSeven(s.rc))])
  {
    assert s.trace + [Unlocked] + [Returned(s.rc)] == s.trace + [Unlocked, Returned(s.rc)];
    assert s.trace + [Unlocked] + [Returned(OrSeven(s.rc))] == s.trace + [Unlocked, Returned(OrSeven(s.rc))];
  }
}

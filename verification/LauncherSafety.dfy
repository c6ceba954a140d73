/** Safety of every single run: what the trace holds and what the exit code means. */
module LauncherSafety {
  import opened Common
  import opened Launcher

  // ------------------------------------------------------------------
  // The program counter invariant
  // ------------------------------------------------------------------

  /** Logging one more event takes nothing back. */
  lemma LogKeeps(s: Launch, x: Event)
    ensures NonEmptyFrom(s, Locked) ==> NonEmptyFrom(Log(s, x), Locked)
    ensures ZeroMeansExit(s) ==> ZeroMeansExit(Log(s, x))
    ensures Started(s) ==> Started(Log(s, x))
  {
  }

  lemma AdmissionKeepsPc(s: Launch, r: Reply, e: Expect)
    requires PcInv(s, e) && InAdmission(s.pc)
    ensures PcInv(StepAdmission(s, r), e)
  {
  }

  lemma AwaitCreateKeepsPc(s: Launch, r: Reply, e: Expect)
    requires PcInv(s, e) && s.pc.AwaitCreate?
    ensures PcInv(StepAwaitCreate(s, r), e)
  {
  }

  /** The five events of an owned creation and its inspection are what must come before a start. */
  lemma InspectedCreation(s: Launch, doc: Doc, e: Expect)
    requires s.trace == Admitted + [CreateCall, CreateReply(Cid(s))] && Owned(doc, Cid(s), e)
    ensures BeforeStart(Log(s, Inspected(Cid(s), doc)).trace + [ReceiptAccepted], Cid(s), e)
  {
  }

  lemma Inspect1KeepsPc(s: Launch, r: Reply, c: Config)
    requires PcInv(s, c.epoch) && s.pc.Inspect1?
    ensures PcInv(StepInspect1(s, r, c), c.epoch)
  {
    LogKeeps(s, CallFailed);
    assert NonEmptyFrom(s, Locked);
    if r.Inspection? {
      LogKeeps(s, Inspected(Cid(s), r.doc));
      if Owned(r.doc, Cid(s), c.epoch) {
        InspectedCreation(s, r.doc, c.epoch);
      }
    }
  }

  lemma GateKeepsPc(s: Launch, r: Reply, c: Config)
    requires PcInv(s, c.epoch) && (s.pc.Gate? || s.pc.Receipt2?)
    ensures PcInv(StepCreation(s, r, c), c.epoch)
  {
    var t := s.trace + [ReceiptAccepted];
    assert forall k :: 0 <= k < |s.trace| ==> t[k] == s.trace[k];
  }

  lemma CreationRestKeepsPc(s: Launch, r: Reply, c: Config)
    requires PcInv(s, c.epoch)
    requires s.pc.PreCreate? || s.pc.SaveCid? || s.pc.AwaitStart? || s.pc.OpenLog?
    ensures PcInv(StepCreation(s, r, c), c.epoch)
  {
  }

  lemma CreationKeepsPc(s: Launch, r: Reply, c: Config)
    requires PcInv(s, c.epoch) && InCreation(s.pc)
    ensures PcInv(StepCreation(s, r, c), c.epoch)
  {
    if s.pc.AwaitCreate? {
      AwaitCreateKeepsPc(s, r, c.epoch);
    } else if s.pc.Inspect1? {
      Inspect1KeepsPc(s, r, c);
    } else if s.pc.Gate? || s.pc.Receipt2? {
      GateKeepsPc(s, r, c);
    } else {
      CreationRestKeepsPc(s, r, c);
    }
  }

  /** What cleanup may rely on when it begins. */
  predicate ReadyForCleanup(s: Launch) { s.pc.Resolve? && ZeroMeansExit(s) && NonEmptyFrom(s, Locked) }

  /** What the watch loop may rely on. */
  predicate Watched(s: Launch) { Started(s) && NonEmptyFrom(s, Locked) && s.rc == EXIT_WATCHDOG }

  lemma WatchInspectKeeps(s: Launch, r: Reply, c: Config)
    requires Watched(s)
    ensures
      var t := StepWatchInspect(s, r, c);
      (t.pc.WatchEvent? && Watched(t)) || ReadyForCleanup(t)
  {
    LogKeeps(s, CallFailed);
    if r.Inspection? {
      LogKeeps(s, Inspected(Cid(s), r.doc));
    }
  }

  lemma WatchKeepsPc(s: Launch, r: Reply, c: Config)
    requires PcInv(s, c.epoch) && InWatch(s.pc)
    ensures PcInv(StepWatch(s, r, c), c.epoch)
  {
    assert Watched(s);
    if s.pc.WatchInspect? {
      WatchInspectKeeps(s, r, c);
    } else {
      WatchRestKeeps(s, r, c);
    }
  }

  lemma WatchRestKeeps(s: Launch, r: Reply, c: Config)
    requires Watched(s) && InWatch(s.pc) && !s.pc.WatchInspect?
    ensures
      var t := StepWatch(s, r, c);
      (InWatch(t.pc) && Watched(t)) || ReadyForCleanup(t)
  {
  }

  lemma ResolveKeepsPc(s: Launch, r: Reply, c: Config)
    requires PcInv(s, c.epoch) && s.pc.Resolve?
    ensures PcInv(StepResolve(s, r, c), c.epoch)
  {
    LogKeeps(s, CallFailed);
    if r.Inspection? {
      LogKeeps(s, Inspected(ContainerName(c.epoch), r.doc));
    }
  }

  /** What every step of cleanup before the saves keeps. */
  predicate CleaningUp(s: Launch) { ZeroMeansExit(s) && NonEmptyFrom(s, Locked) }

  lemma StopInspectKeeps(s: Launch, r: Reply, c: Config)
    requires CleaningUp(s)
    ensures
      var t := StepStopInspect(s, r, c);
      CleaningUp(t) && (t.pc.AwaitStop? || t.pc.FinalInspect? || (t.pc.SaveRecord? && t.rc != 0))
  {
    LogKeeps(s, CallFailed);
    if r.Inspection? {
      LogKeeps(s, Inspected(Cid(s), r.doc));
    }
  }

  lemma FinalInspectKeepsPc(s: Launch, r: Reply, c: Config)
    requires PcInv(s, c.epoch) && s.pc.FinalInspect?
    ensures PcInv(StepFinalInspect(s, r, c), c.epoch)
  {
    LogKeeps(s, CallFailed);
    if r.Inspection? {
      LogKeeps(s, Inspected(Cid(s), r.doc));
    }
  }

  lemma CheckCidKeepsPc(s: Launch, r: Reply, c: Config)
    requires PcInv(s, c.epoch) && s.pc.CheckCid?
    ensures PcInv(StepCleanup(s, r, c), c.epoch)
  {
  }

  lemma AwaitStopKeepsPc(s: Launch, r: Reply, c: Config)
    requires PcInv(s, c.epoch) && s.pc.AwaitStop?
    ensures PcInv(StepCleanup(s, r, c), c.epoch)
  {
    LogKeeps(s, CallFailed);
  }

  lemma SaveFinalKeepsPc(s: Launch, r: Reply, c: Config)
    requires PcInv(s, c.epoch) && s.pc.SaveFinal?
    ensures PcInv(StepCleanup(s, r, c), c.epoch)
  {
  }

  lemma SaveRecordKeepsPc(s: Launch, r: Reply, c: Config)
    requires PcInv(s, c.epoch) && s.pc.SaveRecord?
    ensures PcInv(StepCleanup(s, r, c), c.epoch)
  {
  }

  lemma CleanupKeepsPc(s: Launch, r: Reply, c: Config)
    requires PcInv(s, c.epoch) && InCleanup(s.pc)
    ensures PcInv(StepCleanup(s, r, c), c.epoch)
  {
    if s.pc.Resolve? {
      ResolveKeepsPc(s, r, c);
    } else if s.pc.StopInspect? {
      StopInspectKeeps(s, r, c);
    } else if s.pc.FinalInspect? {
      FinalInspectKeepsPc(s, r, c);
    } else if s.pc.CheckCid? {
      CheckCidKeepsPc(s, r, c);
    } else if s.pc.AwaitStop? {
      AwaitStopKeepsPc(s, r, c);
    } else if s.pc.SaveFinal? {
      SaveFinalKeepsPc(s, r, c);
    } else {
      SaveRecordKeepsPc(s, r, c);
    }
  }

  // ------------------------------------------------------------------
  // Every event of the trace is justified by what came before it
  // ------------------------------------------------------------------

  predicate LockedFirst(t: seq<Event>) { t != [] && t[0] == Locked }

  /** Events that need no history of their own. */
  predicate Plain(x: Event) {
    && !x.CreateCall? && !x.StartCall? && !x.StopCall? && !x.StopVerified?
    && !x.ExitSeen? && !x.Returned? && !x.Planned?
  }

  lemma PlainSafe(t: seq<Event>, x: Event, e: Expect)
    requires TraceSafe(t, e) && Plain(x)
    requires t == [] || LockedFirst(t)
    ensures TraceSafe(t + [x], e)
  {
    SafeAppend(t, x, e);
  }

  lemma ExitSafe(t: seq<Event>, rc: int, e: Expect)
    requires TraceSafe(t, e)
    requires rc != 0 || CleanRun(t)
    ensures TraceSafe(t + [Returned(rc)], e)
  {
    SafeAppend(t, Returned(rc), e);
  }

  lemma ReleaseSafe(s: Launch, rc: int, e: Expect)
    requires TraceSafe(s.trace, e) && LockedFirst(s.trace)
    requires rc != 0 || StoppedClean(s.trace)
    ensures TraceSafe(Release(s, rc).trace, e)
  {
    var t := s.trace + [Unlocked];
    PlainSafe(s.trace, Unlocked, e);
    assert t[..|t| - 1] == s.trace;
    ExitSafe(t, rc, e);
  }

  lemma AdmissionSafe(s: Launch, r: Reply, e: Expect)
    requires Inv(s, e) && InAdmission(s.pc)
    ensures TraceSafe(StepAdmission(s, r).trace, e)
  {
    if s.pc.Admit? || s.pc.TakeLock? {
      ExitSafe([], EXIT_USAGE, e);
      ExitSafe([], EXIT_LOCKED, e);
      PlainSafe([], Locked, e);
      SafeAppend([], Planned, e);
      SafeAppend([Planned], Returned(0), e);
      assert [] + [Planned] == [Planned];
    } else {
      ReleaseSafe(s, s.rc, e);
      PlainSafe(s.trace, ReceiptAccepted, e);
      PlainSafe(s.trace, ImageChecked, e);
    }
  }

  lemma CreationSafe(s: Launch, r: Reply, c: Config)
    requires Inv(s, c.epoch) && InCreation(s.pc)
    ensures TraceSafe(StepCreation(s, r, c).trace, c.epoch)
  {
    var (t, e) := (s.trace, c.epoch);
    LockedInCreation(s, e);
    PlainSafe(t, CallFailed, e);
    match s.pc
    case PreCreate => SafeAppend(t, CreateCall, e);
    case AwaitCreate => if r.Text? { PlainSafe(t, CreateReply(r.s), e); }
    case Inspect1 => if r.Inspection? { PlainSafe(t, Inspected(Cid(s), r.doc), e); }
    case Receipt2 =>
      PlainSafe(t, ReceiptAccepted, e);
      SafeAppend(t + [ReceiptAccepted], StartCall(Cid(s)), e);
    case _ =>
  }

  lemma LockedInCreation(s: Launch, e: Expect)
    requires PcInv(s, e) && InCreation(s.pc)
    ensures LockedFirst(s.trace)
  {
    if s.pc.Gate? || s.pc.Receipt2? {
      assert (s.trace + [ReceiptAccepted])[0] == s.trace[0];
    }
  }

  /** What may follow an inspection of `id` that passed the ownership check. */
  lemma AfterInspection(t: seq<Event>, id: string, d: Doc, e: Expect)
    requires TraceSafe(t, e) && LockedFirst(t)
    ensures
      var u := t + [Inspected(id, d)];
      && TraceSafe(u, e)
      && (Owned(d, id, e) && ShowsRunning(d) ==> TraceSafe(u + [StopCall(id)], e))
      && (Owned(d, id, e) && d.running.IsFalse? ==> TraceSafe(u + [StopVerified(id)], e))
      && (Owned(d, id, e) && d.running.IsFalse? && ContainerExit(d).Some? && |t| >= 8 && t[7] == StartCall(id) ==>
            TraceSafe(u + [ExitSeen(id, ContainerExit(d).value)], e))
  {
    var u := t + [Inspected(id, d)];
    PlainSafe(t, Inspected(id, d), e);
    if Owned(d, id, e) {
      assert JustInspected(u, id, e);
      if ShowsRunning(d) {
        SafeAppend(u, StopCall(id), e);
      } else if d.running.IsFalse? {
        SafeAppend(u, StopVerified(id), e);
        if ContainerExit(d).Some? && |t| >= 8 && t[7] == StartCall(id) {
          assert u[7] == t[7];
          SafeAppend(u, ExitSeen(id, ContainerExit(d).value), e);
        }
      }
    }
  }

  lemma WatchSafe(s: Launch, r: Reply, c: Config)
    requires Inv(s, c.epoch) && InWatch(s.pc)
    ensures TraceSafe(StepWatch(s, r, c).trace, c.epoch)
  {
    PlainSafe(s.trace, CallFailed, c.epoch);
    if s.pc.WatchInspect? && r.Inspection? {
      AfterInspection(s.trace, Cid(s), r.doc, c.epoch);
    } else if s.pc.WatchSample? && r.Memory? {
      PlainSafe(s.trace, Sampled(r.kb), c.epoch);
    }
  }

  lemma StopSafe(s: Launch, r: Reply, c: Config)
    requires Inv(s, c.epoch) && (s.pc.StopInspect? || s.pc.FinalInspect?)
    ensures TraceSafe(StepCleanup(s, r, c).trace, c.epoch)
  {
    PlainSafe(s.trace, CallFailed, c.epoch);
    if r.Inspection? {
      AfterInspection(s.trace, Cid(s), r.doc, c.epoch);
    }
  }

  lemma ResolveSafe(s: Launch, r: Reply, c: Config)
    requires Inv(s, c.epoch) && s.pc.Resolve?
    ensures TraceSafe(StepResolve(s, r, c).trace, c.epoch)
  {
    var (t, e) := (s.trace, c.epoch);
    PlainSafe(t, CallFailed, e);
    ReleaseSafe(s, OrCleanup(s.rc), e);
    if r.Inspection? {
      PlainSafe(t, Inspected(ContainerName(e), r.doc), e);
    }
  }

  lemma SaveRecordSafe(s: Launch, e: Expect)
    requires Inv(s, e) && s.pc.SaveRecord?
    ensures TraceSafe(Release(s, s.rc).trace, e) && TraceSafe(Leave(s).trace, e)
  {
    ReleaseSafe(s, s.rc, e);
    ReleaseSafe(s, OrCleanup(s.rc), e);
  }

  lemma CleanupSafe(s: Launch, r: Reply, c: Config)
    requires Inv(s, c.epoch) && InCleanup(s.pc)
    ensures TraceSafe(StepCleanup(s, r, c).trace, c.epoch)
  {
    match s.pc
    case Resolve => ResolveSafe(s, r, c);
    case StopInspect => StopSafe(s, r, c);
    case AwaitStop => PlainSafe(s.trace, CallFailed, c.epoch);
    case FinalInspect => StopSafe(s, r, c);
    case SaveRecord => SaveRecordSafe(s, c.epoch);
    case _ =>
  }

  /** Every step and every signal keeps the invariant. */
  lemma AdvanceKeeps(s: Launch, i: Input, c: Config)
    requires Inv(s, c.epoch)
    ensures Inv(Advance(s, i, c), c.epoch)
  {
    if i.Signal? {
      SignalKeeps(s, i.number, c);
    } else if InAdmission(s.pc) {
      AdmissionKeepsPc(s, i.r, c.epoch);
      AdmissionSafe(s, i.r, c.epoch);
    } else if InCreation(s.pc) {
      CreationKeepsPc(s, i.r, c);
      CreationSafe(s, i.r, c);
    } else if InWatch(s.pc) {
      WatchKeepsPc(s, i.r, c);
      WatchSafe(s, i.r, c);
    } else if InCleanup(s.pc) {
      CleanupKeepsPc(s, i.r, c);
      CleanupSafe(s, i.r, c);
    }
  }

  lemma SignalKeeps(s: Launch, n: nat, c: Config)
    requires Inv(s, c.epoch)
    ensures Inv(Advance(s, Signal(n), c), c.epoch)
  {
  }

  lemma {:induction false} ExecKeeps(s: Launch, inputs: seq<Input>, c: Config)
    requires Inv(s, c.epoch)
    ensures Inv(Exec(s, inputs, c), c.epoch)
    decreases |inputs|
  {
    if inputs != [] {
      AdvanceKeeps(s, inputs[0], c);
      ExecKeeps(Advance(s, inputs[0], c), inputs[1..], c);
    }
  }

  // ------------------------------------------------------------------
  // What this means for every run
  // ------------------------------------------------------------------

  lemma RunInv(inputs: seq<Input>, c: Config)
    ensures Inv(Exec(Init, inputs, c), c.epoch)
  {
    ExecKeeps(Init, inputs, c);
  }

  /** At most one create and one start, and a start has exactly the prescribed history. */
  lemma AtMostOneStart(inputs: seq<Input>, c: Config)
    ensures
      var t := Exec(Init, inputs, c).trace;
      && (forall i, j :: 0 <= i < |t| && 0 <= j < |t| && t[i].CreateCall? && t[j].CreateCall? ==> i == j)
      && (forall i, j :: 0 <= i < |t| && 0 <= j < |t| && t[i].StartCall? && t[j].StartCall? ==> i == j)
      && (forall k :: 0 <= k < |t| && t[k].StartCall? ==> BeforeStart(t[..k], t[k].id, c.epoch))
  {
    RunInv(inputs, c);
    var t := Exec(Init, inputs, c).trace;
    forall k | 0 <= k < |t|
      ensures t[k].CreateCall? ==> k == 3
      ensures t[k].StartCall? ==> k == 7 && BeforeStart(t[..k], t[k].id, c.epoch)
    {
      assert SafeAt(t, k, c.epoch);
      assert |t[..k]| == k;
    }
  }

  /** Every stop directly follows an owned inspection of that container that showed it running. */
  lemma StopsOnlyOwnedRunning(inputs: seq<Input>, c: Config)
    ensures
      var t := Exec(Init, inputs, c).trace;
      forall k :: 0 <= k < |t| && t[k].StopCall? ==>
        && k > 0 && t[k - 1].Inspected? && t[k - 1].target == t[k].id
        && Owned(t[k - 1].doc, t[k].id, c.epoch) && ShowsRunning(t[k - 1].doc)
  {
    RunInv(inputs, c);
    var t := Exec(Init, inputs, c).trace;
    forall k | 0 <= k < |t| && t[k].StopCall?
      ensures
        && k > 0 && t[k - 1].Inspected? && t[k - 1].target == t[k].id
        && Owned(t[k - 1].doc, t[k].id, c.epoch) && ShowsRunning(t[k - 1].doc)
    {
      assert SafeAt(t, k, c.epoch);
    }
  }

  /** An owned inspection at `k` that showed the container stopped. */
  predicate ShownStopped(t: seq<Event>, k: nat, id: string, e: Expect) {
    && k < |t| && t[k].Inspected? && t[k].target == id
    && Owned(t[k].doc, id, e) && t[k].doc.running.IsFalse?
  }

  /**
   The evidence behind exit code 0: a start of `id`; at `i`, after it, exit code 0 without OOM
   kill; and at the very end the inspection that showed it stopped, the unlock and the return.
   */
  predicate EvidenceAt(t: seq<Event>, id: string, i: nat, e: Expect) {
    var n := |t|;
    && n > 12 && t[7] == StartCall(id)
    && 8 <= i < n - 4 && ShownStopped(t, i, id, e)
    && t[i].doc.exitCode == Some(0) && !t[i].doc.oomKilled
    && ShownStopped(t, n - 4, id, e)
    && t[n - 3..] == [StopVerified(id), Unlocked, Returned(0)]
  }

  ghost predicate CleanEvidence(t: seq<Event>, e: Expect) {
    exists id, i: nat :: EvidenceAt(t, id, i, e)
  }

  lemma VerifiedShowsStopped(t: seq<Event>, b: nat, id: string, e: Expect)
    requires TraceSafe(t, e) && b < |t| && t[b] == StopVerified(id)
    ensures b > 0 && ShownStopped(t, b - 1, id, e)
  {
    assert SafeAt(t, b, e);
  }

  lemma ExitShowsStopped(t: seq<Event>, a: nat, id: string, e: Expect)
    requires TraceSafe(t, e) && a < |t| && t[a] == ExitSeen(id, 0)
    ensures a > 8 && t[7] == StartCall(id) && ShownStopped(t, a - 1, id, e)
    ensures t[a - 1].doc.exitCode == Some(0) && !t[a - 1].doc.oomKilled
  {
    assert SafeAt(t, a, e);
    assert t[..a][7] == t[7];
  }

  lemma ReturnedZero(t: seq<Event>, e: Expect) returns (a: nat)
    requires TraceSafe(t, e) && t != [] && t[|t| - 1] == Returned(0) && Planned !in t
    ensures |t| >= 3 && a < |t| - 2 && t[|t| - 2] == Unlocked && t[|t| - 3].StopVerified?
    ensures t[a] == ExitSeen(t[|t| - 3].id, 0)
  {
    var n := |t|;
    assert SafeAt(t, n - 1, e);
    var u := t[..n - 1][..n - 2];
    assert u == t[..n - 2];
    a :| 0 <= a < n - 2 && u[a] == ExitSeen(t[n - 3].id, 0);
  }

  lemma ZeroNeedsEvidence(t: seq<Event>, e: Expect)
    requires TraceSafe(t, e) && t != [] && t[|t| - 1] == Returned(0) && Planned !in t
    ensures CleanEvidence(t, e)
  {
    var n := |t|;
    var a := ReturnedZero(t, e);
    var id := t[n - 3].id;
    ExitShowsStopped(t, a, id, e);
    VerifiedShowsStopped(t, n - 3, id, e);
    EvidenceFrom(t, id, a, e);
  }

  lemma EvidenceFrom(t: seq<Event>, id: string, a: nat, e: Expect)
    requires |t| >= 4 && 8 < a < |t| - 2 && t[7] == StartCall(id) && t[a] == ExitSeen(id, 0)
    requires ShownStopped(t, a - 1, id, e) && t[a - 1].doc.exitCode == Some(0) && !t[a - 1].doc.oomKilled
    requires ShownStopped(t, |t| - 4, id, e)
    requires t[|t| - 3] == StopVerified(id) && t[|t| - 2] == Unlocked && t[|t| - 1] == Returned(0)
    ensures CleanEvidence(t, e)
  {
    assert t[|t| - 3..] == [StopVerified(id), Unlocked, Returned(0)];
    assert EvidenceAt(t, id, a - 1, e);
  }

  /**
   A finished run that did not only plan returns 0 only if, after its start call, an owned
   inspection showed exit code 0 and no OOM kill, and the last, owned inspection showed the
   container not running.
   */
  lemma ZeroMeansCleanExit(inputs: seq<Input>, c: Config)
    ensures
      var s := Exec(Init, inputs, c);
      s.pc.Done? && s.rc == 0 && Planned !in s.trace ==> CleanEvidence(s.trace, c.epoch)
  {
    RunInv(inputs, c);
    var s := Exec(Init, inputs, c);
    if s.pc.Done? && s.rc == 0 && Planned !in s.trace {
      ZeroNeedsEvidence(s.trace, c.epoch);
    }
  }

  /** Cleanup can only turn 0 into 7; any other code fixed before it is the code returned. */
  lemma {:induction false} CleanupKeepsCode(s: Launch, inputs: seq<Input>, c: Config)
    requires InCleanup(s.pc) || s.pc.Done?
    ensures
      var t := Exec(s, inputs, c);
      && (InCleanup(t.pc) || t.pc.Done?)
      && (s.rc != 0 ==> t.rc == s.rc)
      && (s.rc == 0 ==> t.rc == 0 || t.rc == EXIT_CLEANUP)
    decreases |inputs|
  {
    if inputs != [] {
      CleanupStepKeepsCode(s, inputs[0], c);
      CleanupKeepsCode(Advance(s, inputs[0], c), inputs[1..], c);
    }
  }

  lemma CleanupStepKeepsCode(s: Launch, i: Input, c: Config)
    requires InCleanup(s.pc) || s.pc.Done?
    ensures
      var t := Advance(s, i, c);
      && (InCleanup(t.pc) || t.pc.Done?)
      && CodeKept(s.rc, t.rc)
  {
  }
}

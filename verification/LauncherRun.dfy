/**
 The launcher as a structured program: the variables, branches, loop and cleanup of `run` in
 scripts/guard.py. Every step it takes is a step of the machine, so that all that is proved of
 the machine's runs holds of it.
 */
module LauncherRun {
  import opened Common
  import opened Launcher
  import opened LauncherSafety
  import opened Watchdog

  /** The inputs taken are those of the script, then failures. */
  ghost predicate TakenFrom(script: seq<Input>, pos: nat, taken: seq<Input>) {
    && pos <= |script|
    && pos <= |taken| && taken[..pos] == script[..pos]
    && (forall i :: pos <= i < |taken| ==> taken[i] == Answer(Bad))
    && (pos < |taken| ==> pos == |script|)
  }

  lemma FinishedRun(inputs: seq<Input>, c: Config)
    requires Exec(Init, inputs, c).pc.Done?
    ensures
      var s := Exec(Init, inputs, c);
      && s.trace != [] && s.trace[|s.trace| - 1] == Returned(s.rc)
      && TraceSafe(s.trace, c.epoch)
      && (s.rc == 0 && Planned !in s.trace ==> CleanEvidence(s.trace, c.epoch))
  {
    RunInv(inputs, c);
    ZeroMeansCleanExit(inputs, c);
  }

  class Runner {
    const c: Config
    /** What the environment will do; when it has nothing left, every call fails. */
    const script: seq<Input>
    var pos: nat
    var rc: int
    var cid: Option<string>
    var createAttempted: bool
    var low: nat
    var event: Option<nat>
    var verified: bool
    var trace: seq<Event>
    /** Inputs taken so far, and where they have brought the machine. */
    ghost var taken: seq<Input>
    ghost var machine: Launch

    ghost function View(pc: Pc): (s: Launch)
      reads this
    {
      Launch(pc, rc, cid, createAttempted, low, event, verified, trace)
    }

    ghost predicate Scripted()
      reads this`pos, this`taken, this`machine
    {
      && TakenFrom(script, pos, taken)
      && machine == Exec(Init, taken, c)
    }

    /** The machine, fed the inputs taken so far, stands at `pc` with the program's variables. */
    ghost predicate At(pc: Pc)
      reads this
    {
      Scripted() && machine == View(pc)
    }

    constructor (config: Config, inputs: seq<Input>)
      ensures At(Admit) && c == config && script == inputs
    {
      c, script := config, inputs;
      pos, rc, cid, createAttempted, low := 0, EXIT_USAGE, None, false, 0;
      event, verified, trace, taken, machine := None, false, [], [], Init;
    }

    /** Takes one input off the script. */
    method TakeInput() returns (i: Input)
      requires Scripted()
      modifies this`pos, this`taken, this`machine
      ensures Scripted() && pos >= old(pos) && pos <= |script|
      ensures pos > old(pos) || i == Answer(Bad)
      ensures machine == Advance(old(machine), i, c)
    {
      if pos < |script| {
        i := script[pos];
        assert pos == |taken|;
        pos := pos + 1;
      } else {
        i := Answer(Bad);
      }
      ExecAppend(Init, taken, [i], c);
      ExecOne(machine, i, c);
      taken := taken + [i];
      machine := Advance(machine, i, c);
    }

    /** Waits for the reply to the operation at `pc`; signals may come in before it. */
    method Await(ghost pc: Pc) returns (r: Reply)
      requires At(pc) && !pc.Done?
      modifies this`pos, this`taken, this`machine, this`event
      ensures Scripted() && old(pos) <= pos <= |script| && (pos > old(pos) || r == Bad)
      ensures machine == Step(View(pc), r, c)
    {
      var i := TakeInput();
      while i.Signal?
        invariant Scripted() && old(pos) <= pos <= |script| && (pos > old(pos) || i == Answer(Bad))
        invariant machine == Advance(View(pc), i, c)
        decreases |script| - pos, i.Signal?
      {
        event := Some(i.number);
        i := TakeInput();
      }
      r := i.r;
    }

    method Record(e: Event)
      modifies this`trace
      ensures trace == old(trace) + [e]
    {
      trace := trace + [e];
    }

    /** Returns from the locked region. */
    method ReleaseAndReturn()
      modifies this`trace
      ensures trace == old(trace) + [Unlocked] + [Returned(rc)]
    {
      Record(Unlocked);
      Record(Returned(rc));
    }

    /** Everything before the inner try; false when the run is over. */
    method Admission() returns (entered: bool)
      requires At(Admit)
      modifies this
      ensures At(if entered then PreCreate else Done)
    {
      var r := Await(Admit);
      if r.PlanOnly? {
        rc := 0;
        Record(Planned);
        Record(Returned(rc));
        return false;
      }
      if !r.Good? {
        rc := OrCleanup(rc);
        Record(Returned(rc));
        return false;
      }
      entered := LockAndPrepare();
    }

    /** Takes the cache lock; another launcher may hold it. */
    method LockAndPrepare() returns (entered: bool)
      requires At(TakeLock)
      modifies this
      ensures At(if entered then PreCreate else Done)
    {
      var r := Await(TakeLock);
      if !r.Good? {
        rc := if r.Busy? then EXIT_LOCKED else OrCleanup(rc);
        Record(Returned(rc));
        return false;
      }
      rc := EXIT_PREFLIGHT;
      Record(Locked);
      entered := Preparation();
    }

    /** An error before the inner try. */
    method Refuse(ghost pc: Pc)
      requires Scripted() && machine == Leave(View(pc))
      modifies this`rc, this`trace
      ensures At(Done)
    {
      rc := OrCleanup(rc);
      ReleaseAndReturn();
    }

    /** Preflight, receipt, image and files, under the lock. */
    method Preparation() returns (entered: bool)
      requires At(Preflight)
      modifies this
      ensures At(if entered then PreCreate else Done)
    {
      var r := Await(Preflight);
      if !r.Good? {
        Refuse(Preflight);
        return false;
      }
      rc := EXIT_VERIFY;
      assert At(Receipt1);
      r := Await(Receipt1);
      if !r.Good? {
        Refuse(Receipt1);
        return false;
      }
      Record(ReceiptAccepted);
      entered := CheckImage();
    }

    method CheckImage() returns (entered: bool)
      requires At(Image)
      modifies this
      ensures At(if entered then PreCreate else Done)
    {
      var r := Await(Image);
      if !r.Good? {
        Refuse(Image);
        return false;
      }
      Record(ImageChecked);
      assert At(Prepare);
      r := Await(Prepare);
      if !r.Good? {
        Refuse(Prepare);
        return false;
      }
      rc := EXIT_SPAWN;
      entered := true;
    }

    /** `128 + signal` */
    method TakeSignal()
      requires event.Some?
      modifies this`rc
      ensures rc == 128 + event.value
    {
      rc := 128 + event.value;
    }

    /** Creates the container and takes its id; false when the body of the try is over. */
    method Create() returns (created: bool)
      requires At(PreCreate)
      modifies this
      ensures At(if created then SaveCid else Resolve)
      ensures created ==> cid.Some?
    {
      var r := Await(PreCreate);
      if event.Some? {
        TakeSignal();
        return false;
      }
      createAttempted := true;
      Record(CreateCall);
      created := AwaitCreated();
    }

    /** Whatever text the create call prints is held as the id, even when it is not one. */
    method AwaitCreated() returns (created: bool)
      requires At(AwaitCreate)
      modifies this
      ensures At(if created then SaveCid else Resolve)
      ensures created ==> cid.Some?
    {
      var r := Await(AwaitCreate);
      if !r.Text? {
        Record(CallFailed);
        return false;
      }
      cid := Some(r.s);
      Record(CreateReply(r.s));
      created := IsHex(r.s, 64);
    }

    /** Records the id and checks that the container is this launcher's own. */
    method CheckCreated() returns (owned: bool)
      requires At(SaveCid) && cid.Some?
      modifies this
      ensures At(if owned then Gate else Resolve) && cid == old(cid)
    {
      var r := Await(SaveCid);
      if !r.Good? {
        return false;
      }
      r := Await(Inspect1);
      if !r.Inspection? {
        Record(CallFailed);
        return false;
      }
      Record(Inspected(cid.value, r.doc));
      owned := Owned(r.doc, cid.value, c.epoch);
    }

    /** A signal that came in before the start ends the run here. */
    method Start() returns (started: bool)
      requires At(Gate) && cid.Some?
      modifies this
      ensures At(if started then WatchInspect else Resolve) && cid == old(cid)
    {
      var r := Await(Gate);
      if event.Some? {
        TakeSignal();
        return false;
      }
      rc := EXIT_VERIFY;
      started := RecheckReceipt();
      if started {
        started := AwaitStarted();
      }
    }

    /** The second receipt check, between creation and start. */
    method RecheckReceipt() returns (accepted: bool)
      requires At(Receipt2) && cid.Some?
      modifies this
      ensures At(if accepted then AwaitStart else Resolve) && cid == old(cid)
    {
      var r := Await(Receipt2);
      accepted := r.Good?;
      if accepted {
        rc := EXIT_SPAWN;
        Record(ReceiptAccepted);
        Record(StartCall(cid.value));
      }
    }

    method AwaitStarted() returns (started: bool)
      requires At(AwaitStart) && cid.Some?
      modifies this
      ensures At(if started then WatchInspect else Resolve) && cid == old(cid)
    {
      var r := Await(AwaitStart);
      if !r.Good? {
        Record(CallFailed);
        return false;
      }
      rc := EXIT_WATCHDOG;
      assert At(OpenLog);
      r := Await(OpenLog);
      started := r.Good?;
      if started {
        low := 0;
      }
    }

    /** The top of the watch loop: the container must be ours and running. */
    method Look() returns (running: bool)
      requires At(WatchInspect) && cid.Some?
      modifies this
      ensures At(if running then WatchEvent else Resolve) && cid == old(cid)
      ensures pos >= old(pos) && (running ==> pos > old(pos)) && pos <= |script|
    {
      var r := Await(WatchInspect);
      if !r.Inspection? {
        Record(CallFailed);
        return false;
      }
      var doc := r.doc;
      Record(Inspected(cid.value, doc));
      if !Owned(doc, cid.value, c.epoch) {
        return false;
      }
      if doc.running.IsFalse? {
        var code := doc.exitCode;
        if code.Some? && 0 <= code.value <= 255 {
          rc := if code.value != 0 || !doc.oomKilled then code.value else EXIT_WATCHDOG;
          Record(ExitSeen(cid.value, rc));
        }
        return false;
      }
      running := doc.running.IsTrue?;
    }

    /** The rest of the loop body: signal, memory sample, deadline. */
    method Sample() returns (goOn: bool)
      requires At(WatchEvent) && cid.Some?
      modifies this
      ensures At(if goOn then WatchInspect else Resolve) && cid == old(cid)
      ensures old(pos) <= pos <= |script|
    {
      var r := Await(WatchEvent);
      if event.Some? {
        TakeSignal();
        return false;
      }
      goOn := SampleMemory();
    }

    method SampleMemory() returns (goOn: bool)
      requires At(WatchSample) && cid.Some?
      modifies this
      ensures At(if goOn then WatchInspect else Resolve) && cid == old(cid)
      ensures old(pos) <= pos <= |script|
    {
      var r := Await(WatchSample);
      if !r.Memory? {
        return false;
      }
      var available := r.kb;
      Record(Sampled(available));
      goOn := Judge(available);
    }

    method Judge(available: Option<int>) returns (goOn: bool)
      requires Scripted() && cid.Some?
      requires machine == (
        var t := View(WatchSample);
        if MemoryStops(low, available, c.floorKb) then ToCleanup(t.(rc := EXIT_WATCHDOG))
        else t.(pc := WatchDeadline, low := NextLow(low, available.value, c.floorKb)))
      modifies this
      ensures At(if goOn then WatchInspect else Resolve) && cid == old(cid)
      ensures old(pos) <= pos <= |script|
    {
      if !(available.Some? && available.value >= 0) {
        rc := EXIT_WATCHDOG;
        return false;
      }
      var next := if available.value < c.floorKb then low + 1 else 0;
      if available.value < c.floorKb / 2 || next >= 5 {
        rc := EXIT_WATCHDOG;
        return false;
      }
      low := next;
      var r := Await(WatchDeadline);
      if r.Expired? {
        rc := EXIT_WATCHDOG;
        return false;
      }
      goOn := true;
    }

    /** The watch loop; it ends because every turn takes at least one reply. */
    method Watch()
      requires At(WatchInspect) && cid.Some?
      modifies this
      ensures At(Resolve)
    {
      var goOn := true;
      while goOn
        invariant cid.Some? && pos <= |script|
        invariant At(if goOn then WatchInspect else Resolve)
        decreases |script| - pos, goOn
      {
        goOn := Look();
        if goOn {
          goOn := Sample();
        }
      }
    }

    // ------------------------------------------------------------------
    // The finally part
    // ------------------------------------------------------------------

    /** Finds out what an uncertain create left behind. */
    method ResolveCreate() returns (readable: bool)
      requires At(Resolve)
      modifies this
      ensures At(if readable then CheckCid else Done)
      ensures CodeKept(old(rc), rc)
    {
      var r := Await(Resolve);
      if cid.None? && createAttempted {
        if r.CidFile? {
          cid := Some(r.content);
        } else if r.Unreadable? {
          rc := OrCleanup(rc);
          ReleaseAndReturn();
          return false;
        } else if r.Inspection? {
          var doc := r.doc;
          Record(Inspected(ContainerName(c.epoch), doc));
          if IsHex(doc.id, 64) && Owned(doc, doc.id, c.epoch) {
            cid := Some(doc.id);
          }
        } else {
          Record(CallFailed);
        }
      }
      readable := true;
    }

    /** `stop_owned`: inspect, stop if running, inspect again; true when seen stopped. */
    method StopOwned() returns (stopped: bool)
      requires At(StopInspect) && cid.Some?
      modifies this
      ensures Scripted() && machine == if stopped then View(SaveFinal) else CleanupError(View(SaveRecord))
      ensures rc == old(rc)
    {
      var r := Await(StopInspect);
      if !r.Inspection? {
        Record(CallFailed);
        return false;
      }
      Record(Inspected(cid.value, r.doc));
      if !Owned(r.doc, cid.value, c.epoch) {
        return false;
      }
      stopped := true;
      if ShowsRunning(r.doc) {
        Record(StopCall(cid.value));
        stopped := AwaitStopped();
      }
      if stopped {
        stopped := SeenStopped();
      }
    }

    method AwaitStopped() returns (replied: bool)
      requires At(AwaitStop) && cid.Some?
      modifies this
      ensures Scripted() && machine == if replied then View(FinalInspect) else CleanupError(View(SaveRecord))
      ensures cid == old(cid) && rc == old(rc)
    {
      var r := Await(AwaitStop);
      replied := r.Good?;
      if !replied {
        Record(CallFailed);
      }
    }

    method SeenStopped() returns (stopped: bool)
      requires At(FinalInspect) && cid.Some?
      modifies this
      ensures Scripted() && machine == if stopped then View(SaveFinal) else CleanupError(View(SaveRecord))
      ensures rc == old(rc)
    {
      var r := Await(FinalInspect);
      if !r.Inspection? {
        Record(CallFailed);
        return false;
      }
      Record(Inspected(cid.value, r.doc));
      stopped := Owned(r.doc, cid.value, c.epoch) && r.doc.running.IsFalse?;
      if stopped {
        verified := true;
        Record(StopVerified(cid.value));
      }
    }

    /** Stops and saves what is held, if anything. */
    method StopHeld()
      requires At(CheckCid)
      modifies this
      ensures At(SaveRecord)
      ensures CodeKept(old(rc), rc)
    {
      var r := Await(CheckCid);
      if cid.None? || cid.value == "" {
        return;
      }
      var ok := IsHex(cid.value, 64);
      if ok {
        ok := StopAndSave();
      }
      if !ok {
        rc := OrCleanup(rc);
      }
    }

    method StopAndSave() returns (ok: bool)
      requires At(StopInspect) && cid.Some?
      modifies this
      ensures Scripted() && machine == if ok then View(SaveRecord) else CleanupError(View(SaveRecord))
      ensures rc == old(rc)
    {
      ok := StopOwned();
      if ok {
        var r := Await(SaveFinal);
        ok := r.Good?;
      }
    }

    /** The code the body left is the code returned, except that 0 may become 7. */
    method Cleanup()
      requires At(Resolve)
      modifies this
      ensures At(Done)
      ensures CodeKept(old(rc), rc)
    {
      var readable := ResolveCreate();
      if readable {
        StopHeld();
        SaveAndReturn();
      }
    }

    method SaveAndReturn()
      requires At(SaveRecord)
      modifies this
      ensures At(Done) && CodeKept(old(rc), rc)
    {
      var r := Await(SaveRecord);
      if !r.Good? {
        rc := OrCleanup(rc);
      }
      ReleaseAndReturn();
    }

    /** The body of the inner try. */
    method Session()
      requires At(PreCreate)
      modifies this
      ensures At(Resolve)
    {
      var ok := Create();
      if ok {
        ok := CheckCreated();
        if ok {
          ok := Start();
          if ok {
            Watch();
          }
        }
      }
    }

    /**
     A whole run: it always ends, it is the machine's run on the inputs taken, and so its trace
     is safe and its code 0 has the evidence behind it.
     */
    method Run() returns (code: int)
      requires At(Admit)
      modifies this
      ensures At(Done) && code == rc
      ensures trace != [] && trace[|trace| - 1] == Returned(code)
      ensures TraceSafe(trace, c.epoch)
      ensures code == 0 && Planned !in trace ==> CleanEvidence(trace, c.epoch)
    {
      var entered := Admission();
      if entered {
        Session();
        Cleanup();
      }
      code := rc;
      FinishedRun(taken, c);
    }
  }
}

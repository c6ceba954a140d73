/**
 One owned container lifecycle (scripts/guard.py, `run`), as a machine that takes one step per
 reply of its environment. Docker, the file system, the memory probe, the clock and signals may
 answer anything at any step; `Bad` stands for any error the source handles.
 */
module Launcher {
  import opened Common

  const OWNER_LABEL := "io.r0b0tlab.qwen38fn.owner"
  const PROFILE_LABEL := "io.r0b0tlab.qwen38fn.profile-sha256"
  const IMAGE_LABEL := "io.r0b0tlab.qwen38fn.image-id"

  const EXIT_USAGE := 2
  const EXIT_PREFLIGHT := 3
  const EXIT_VERIFY := 4
  const EXIT_SPAWN := 5
  const EXIT_CLEANUP := 7
  const EXIT_WATCHDOG := 8
  const EXIT_LOCKED := 9

  /** The `State.Running` field: exactly true, exactly false, or anything else by truth value. */
  datatype Running = IsTrue | IsFalse | OtherTruthy | OtherFalsy

  datatype Doc = Doc(
    id: string, image: string, labels: map<string, string>,
    running: Running, exitCode: Option<int>, oomKilled: bool)

  datatype Expect = Expect(nonce: string, image: string, profile: string)

  datatype Config = Config(epoch: Expect, floorKb: nat)

  predicate IsHex(s: string, n: nat) {
    |s| == n && forall i :: 0 <= i < |s| ==> '0' <= s[i] <= '9' || 'a' <= s[i] <= 'f'
  }

  predicate HasLabel(d: Doc, key: string, value: string) { key in d.labels && d.labels[key] == value }

  /** The ownership check: identity, image and all three labels. */
  predicate Owned(d: Doc, cid: string, e: Expect) {
    && d.id == cid && d.image == e.image
    && HasLabel(d, OWNER_LABEL, e.nonce)
    && HasLabel(d, PROFILE_LABEL, e.profile)
    && HasLabel(d, IMAGE_LABEL, e.image)
  }

  predicate ShowsRunning(d: Doc) { d.running.IsTrue? || d.running.OtherTruthy? }

  /** Where the run stands: the operation whose reply comes next. */
  datatype Pc =
    | Admit | TakeLock | Preflight | Receipt1 | Image | Prepare | PreCreate
    | AwaitCreate | SaveCid | Inspect1 | Gate | Receipt2 | AwaitStart | OpenLog
    | WatchInspect | WatchEvent | WatchSample | WatchDeadline
    | Resolve | CheckCid | StopInspect | AwaitStop | FinalInspect | SaveFinal | SaveRecord
    | Done

  datatype Reply =
    | Good | Bad | PlanOnly | Busy
    | Text(s: string)
    | CidFile(content: string)
    | Unreadable
    | Inspection(doc: Doc)
    | Memory(kb: Option<int>)
    | Expired

  datatype Event =
    | Planned | Locked | Unlocked | ReceiptAccepted | ImageChecked
    | CreateCall | CreateReply(id: string)
    | Inspected(target: string, doc: Doc)
    | StartCall(id: string) | StopCall(id: string) | StopVerified(id: string)
    | ExitSeen(id: string, code: int)
    | CallFailed | Sampled(kb: Option<int>)
    | Returned(rc: int)

  /** `verified` records that `stop_owned` came to its normal end. */
  datatype Launch = Launch(
    pc: Pc, rc: int, cid: Option<string>, createAttempted: bool,
    low: nat, event: Option<nat>, verified: bool, trace: seq<Event>)

  const Init: Launch := Launch(Admit, EXIT_USAGE, None, false, 0, None, false, [])

  function Log(s: Launch, e: Event): (t: Launch) { s.(trace := s.trace + [e]) }

  function Exit(s: Launch, rc: int): (t: Launch) { Log(s.(pc := Done, rc := rc), Returned(rc)) }

  /** Leaves the locked region and returns. */
  function Release(s: Launch, rc: int): (t: Launch) { Exit(Log(s, Unlocked), rc) }

  /** `rc or EXIT_CLEANUP` */
  function OrCleanup(rc: int): (r: int) { if rc == 0 then EXIT_CLEANUP else rc }

  /** An error outside the inner try. */
  function Leave(s: Launch): (t: Launch) { Release(s, OrCleanup(s.rc)) }

  /** An error inside the inner try, or its normal end: go on to cleanup with `rc` as it stands. */
  function ToCleanup(s: Launch): (t: Launch) { s.(pc := Resolve) }

  function CallError(s: Launch): (t: Launch) { ToCleanup(Log(s, CallFailed)) }

  /** `128 + (signal or SIGTERM)` */
  function Interrupted(s: Launch): (t: Launch)
    requires s.event.Some?
  {
    ToCleanup(s.(rc := 128 + s.event.value))
  }

  function CleanupError(s: Launch): (t: Launch) { s.(pc := SaveRecord, rc := OrCleanup(s.rc)) }

  function Cid(s: Launch): (id: string) { if s.cid.Some? then s.cid.value else "" }

  // ------------------------------------------------------------------
  // The steps
  // ------------------------------------------------------------------

  function StepAdmission(s: Launch, r: Reply): (t: Launch) {
    match s.pc
    case Admit =>
      if r.Good? then s.(pc := TakeLock)
      else if r.PlanOnly? then Exit(Log(s, Planned), 0)
      else Exit(s, OrCleanup(s.rc))
    case TakeLock =>
      if r.Good? then Log(s.(pc := Preflight, rc := EXIT_PREFLIGHT), Locked)
      else if r.Busy? then Exit(s, EXIT_LOCKED)
      else Exit(s, OrCleanup(s.rc))
    case Preflight => if r.Good? then s.(pc := Receipt1, rc := EXIT_VERIFY) else Leave(s)
    case Receipt1 => if r.Good? then Log(s.(pc := Image), ReceiptAccepted) else Leave(s)
    case Image => if r.Good? then Log(s.(pc := Prepare), ImageChecked) else Leave(s)
    case Prepare => if r.Good? then s.(pc := PreCreate, rc := EXIT_SPAWN) else Leave(s)
    case _ => s
  }

  function StepAwaitCreate(s: Launch, r: Reply): (t: Launch) {
    if r.Text? then
      var t := Log(s.(cid := Some(r.s)), CreateReply(r.s));
      if IsHex(r.s, 64) then t.(pc := SaveCid) else ToCleanup(t)
    else CallError(s)
  }

  function StepInspect1(s: Launch, r: Reply, c: Config): (t: Launch) {
    if r.Inspection? then
      var t := Log(s, Inspected(Cid(s), r.doc));
      if Owned(r.doc, Cid(s), c.epoch) then t.(pc := Gate) else ToCleanup(t)
    else CallError(s)
  }

  function StepCreation(s: Launch, r: Reply, c: Config): (t: Launch) {
    match s.pc
    case PreCreate =>
      if s.event.Some? then Interrupted(s)
      else Log(s.(pc := AwaitCreate, createAttempted := true), CreateCall)
    case AwaitCreate => StepAwaitCreate(s, r)
    case SaveCid => if r.Good? then s.(pc := Inspect1) else ToCleanup(s)
    case Inspect1 => StepInspect1(s, r, c)
    case Gate => if s.event.Some? then Interrupted(s) else s.(pc := Receipt2, rc := EXIT_VERIFY)
    case Receipt2 =>
      if r.Good? then
        Log(Log(s.(pc := AwaitStart, rc := EXIT_SPAWN), ReceiptAccepted), StartCall(Cid(s)))
      else ToCleanup(s)
    case AwaitStart => if r.Good? then s.(pc := OpenLog, rc := EXIT_WATCHDOG) else CallError(s)
    case OpenLog => if r.Good? then s.(pc := WatchInspect, low := 0) else ToCleanup(s)
    case _ => s
  }

  /** The exit code a stopped container leaves, if it is a valid one. */
  function ContainerExit(d: Doc): (rc: Option<int>)
    requires d.running.IsFalse?
  {
    if d.exitCode.Some? && 0 <= d.exitCode.value <= 255
    then Some(if d.exitCode.value != 0 || !d.oomKilled then d.exitCode.value else EXIT_WATCHDOG)
    else None
  }

  function NextLow(low: nat, kb: int, floorKb: nat): (n: nat) { if kb < floorKb then low + 1 else 0 }

  predicate MemoryStops(low: nat, kb: Option<int>, floorKb: nat) {
    || kb.None? || kb.value < 0
    || kb.value < floorKb / 2
    || NextLow(low, kb.value, floorKb) >= 5
  }

  function StepWatchInspect(s: Launch, r: Reply, c: Config): (t: Launch) {
    if r.Inspection? then
      var t := Log(s, Inspected(Cid(s), r.doc));
      if !Owned(r.doc, Cid(s), c.epoch) then ToCleanup(t)
      else if r.doc.running.IsFalse? then
        var rc := ContainerExit(r.doc);
        if rc.Some? then ToCleanup(Log(t.(rc := rc.value), ExitSeen(Cid(s), rc.value))) else ToCleanup(t)
      else if r.doc.running.IsTrue? then t.(pc := WatchEvent)
      else ToCleanup(t)
    else CallError(s)
  }

  function StepWatch(s: Launch, r: Reply, c: Config): (t: Launch) {
    match s.pc
    case WatchInspect => StepWatchInspect(s, r, c)
    case WatchEvent => if s.event.Some? then Interrupted(s) else s.(pc := WatchSample)
    case WatchSample =>
      if r.Memory? then
        var t := Log(s, Sampled(r.kb));
        if MemoryStops(s.low, r.kb, c.floorKb) then ToCleanup(t.(rc := EXIT_WATCHDOG))
        else t.(pc := WatchDeadline, low := NextLow(s.low, r.kb.value, c.floorKb))
      else ToCleanup(s)
    case WatchDeadline =>
      if r.Expired? then ToCleanup(s.(rc := EXIT_WATCHDOG)) else s.(pc := WatchInspect)
    case _ => s
  }

  function ContainerName(e: Expect): (n: string) { "qwen38fn-" + e.nonce }

  /** Cleanup may turn 0 into 7 and nothing else. */
  predicate CodeKept(before: int, after: int) {
    after == before || (before == 0 && after == EXIT_CLEANUP)
  }

  /** Finds out what an uncertain create left behind: its cid file, else its name. */
  function StepResolve(s: Launch, r: Reply, c: Config): (t: Launch)
    ensures CodeKept(s.rc, t.rc)
  {
    if s.cid.Some? || !s.createAttempted then s.(pc := CheckCid)
    else if r.CidFile? then s.(pc := CheckCid, cid := Some(r.content))
    else if r.Unreadable? then Leave(s)
    else if r.Inspection? then
      var t := Log(s.(pc := CheckCid), Inspected(ContainerName(c.epoch), r.doc));
      if IsHex(r.doc.id, 64) && Owned(r.doc, r.doc.id, c.epoch) then t.(cid := Some(r.doc.id)) else t
    else Log(s.(pc := CheckCid), CallFailed)
  }

  /** `stop_owned`, first inspection. */
  function StepStopInspect(s: Launch, r: Reply, c: Config): (t: Launch)
    ensures CodeKept(s.rc, t.rc)
  {
    if r.Inspection? then
      var t := Log(s, Inspected(Cid(s), r.doc));
      if !Owned(r.doc, Cid(s), c.epoch) then CleanupError(t)
      else if ShowsRunning(r.doc) then Log(t.(pc := AwaitStop), StopCall(Cid(s)))
      else t.(pc := FinalInspect)
    else CleanupError(Log(s, CallFailed))
  }

  /** `stop_owned`, final inspection. */
  function StepFinalInspect(s: Launch, r: Reply, c: Config): (t: Launch)
    ensures CodeKept(s.rc, t.rc)
  {
    if r.Inspection? then
      var t := Log(s, Inspected(Cid(s), r.doc));
      if Owned(r.doc, Cid(s), c.epoch) && r.doc.running.IsFalse?
      then Log(t.(pc := SaveFinal, verified := true), StopVerified(Cid(s)))
      else CleanupError(t)
    else CleanupError(Log(s, CallFailed))
  }

  function StepCleanup(s: Launch, r: Reply, c: Config): (t: Launch)
    ensures CodeKept(s.rc, t.rc)
  {
    match s.pc
    case Resolve => StepResolve(s, r, c)
    case CheckCid =>
      if Cid(s) == "" then s.(pc := SaveRecord)
      else if IsHex(Cid(s), 64) then s.(pc := StopInspect)
      else CleanupError(s)
    case StopInspect => StepStopInspect(s, r, c)
    case AwaitStop => if r.Good? then s.(pc := FinalInspect) else CleanupError(Log(s, CallFailed))
    case FinalInspect => StepFinalInspect(s, r, c)
    case SaveFinal => if r.Good? then s.(pc := SaveRecord) else CleanupError(s)
    case SaveRecord => if r.Good? then Release(s, s.rc) else Leave(s)
    case _ => s
  }

  predicate InAdmission(pc: Pc) {
    pc.Admit? || pc.TakeLock? || pc.Preflight? || pc.Receipt1? || pc.Image? || pc.Prepare?
  }

  predicate InCreation(pc: Pc) {
    || pc.PreCreate? || pc.AwaitCreate? || pc.SaveCid? || pc.Inspect1?
    || pc.Gate? || pc.Receipt2? || pc.AwaitStart? || pc.OpenLog?
  }

  predicate InWatch(pc: Pc) { pc.WatchInspect? || pc.WatchEvent? || pc.WatchSample? || pc.WatchDeadline? }

  predicate InCleanup(pc: Pc) {
    || pc.Resolve? || pc.CheckCid? || pc.StopInspect? || pc.AwaitStop?
    || pc.FinalInspect? || pc.SaveFinal? || pc.SaveRecord?
  }

  function Step(s: Launch, r: Reply, c: Config): (t: Launch) {
    if InAdmission(s.pc) then StepAdmission(s, r)
    else if InCreation(s.pc) then StepCreation(s, r, c)
    else if InWatch(s.pc) then StepWatch(s, r, c)
    else StepCleanup(s, r, c)
  }

  datatype Input = Answer(r: Reply) | Signal(number: nat)

  function Advance(s: Launch, i: Input, c: Config): (t: Launch) {
    match i
    case Answer(r) => Step(s, r, c)
    case Signal(n) => if s.pc.Done? then s else s.(event := Some(n))
  }

  /** A whole run, or any part of one: whatever the environment did, in order. */
  function Exec(s: Launch, inputs: seq<Input>, c: Config): (t: Launch)
    decreases |inputs|
  {
    if inputs == [] then s else Exec(Advance(s, inputs[0], c), inputs[1..], c)
  }

  // ------------------------------------------------------------------
  // What the trace of a run may hold
  // ------------------------------------------------------------------

  const Admitted: seq<Event> := [Locked, ReceiptAccepted, ImageChecked]

  /** The whole history of a start call: two accepted receipts around an owned creation. */
  predicate BeforeStart(t: seq<Event>, id: string, e: Expect) {
    && |t| == 7
    && t[0] == Locked && t[1] == ReceiptAccepted && t[2] == ImageChecked
    && t[3] == CreateCall
    && t[4] == CreateReply(id)
    && t[5].Inspected? && t[5].target == id && Owned(t[5].doc, id, e)
    && t[6] == ReceiptAccepted
  }

  /** The last event is an inspection of `id` that passed the ownership check. */
  predicate JustInspected(t: seq<Event>, id: string, e: Expect) {
    t != [] && var last := t[|t| - 1];
    last.Inspected? && last.target == id && Owned(last.doc, id, e)
  }

  /** What must already have happened when an event happens. */
  ghost predicate Justified(t: seq<Event>, x: Event, e: Expect) {
    match x
    case CreateCall => t == Admitted
    case StartCall(id) => BeforeStart(t, id, e)
    case StopCall(id) => JustInspected(t, id, e) && ShowsRunning(t[|t| - 1].doc)
    case StopVerified(id) => JustInspected(t, id, e) && t[|t| - 1].doc.running.IsFalse?
    case ExitSeen(id, code) =>
      && JustInspected(t, id, e)
      && t[|t| - 1].doc.running.IsFalse? && ContainerExit(t[|t| - 1].doc) == Some(code)
      && |t| > 8 && t[7] == StartCall(id)
    case Returned(rc) => Planned !in t && rc == 0 ==> CleanRun(t)
    case Planned => t == []
    case _ => t == [] || t[0] != Planned
  }

  /** The verified stop of a container that was seen to exit with 0 is the last thing that happened. */
  predicate StoppedClean(t: seq<Event>) {
    t != [] && t[|t| - 1].StopVerified? && ExitSeen(t[|t| - 1].id, 0) in t
  }

  predicate CleanRun(t: seq<Event>) {
    t != [] && t[|t| - 1] == Unlocked && StoppedClean(t[..|t| - 1])
  }

  ghost predicate SafeAt(t: seq<Event>, k: nat, e: Expect) {
    k < |t| ==> Justified(t[..k], t[k], e)
  }

  ghost predicate TraceSafe(t: seq<Event>, e: Expect) {
    forall k: nat {:trigger SafeAt(t, k, e)} :: SafeAt(t, k, e)
  }

  lemma SafeAppend(t: seq<Event>, x: Event, e: Expect)
    requires TraceSafe(t, e) && Justified(t, x, e)
    ensures TraceSafe(t + [x], e)
  {
    var u := t + [x];
    forall k: nat ensures SafeAt(u, k, e) {
      assert SafeAt(t, k, e);
      if k < |t| {
        assert u[..k] == t[..k];
      } else if k == |t| {
        assert u[..k] == t;
      }
    }
  }

  /** After the start of the held container. */
  predicate Started(s: Launch) {
    s.cid.Some? && IsHex(Cid(s), 64) && |s.trace| >= 8 && s.trace[7] == StartCall(Cid(s))
  }

  predicate Held(s: Launch) { s.cid.Some? && IsHex(Cid(s), 64) && s.createAttempted }

  predicate Untouched(s: Launch) { s.cid.None? && !s.createAttempted && !s.verified }

  predicate NonEmptyFrom(s: Launch, first: Event) { s.trace != [] && s.trace[0] == first }

  /** What the program counter says about the trace and the variables. */
  predicate PcInv(s: Launch, e: Expect) {
    match s.pc
    case Admit => s.trace == [] && s.rc == EXIT_USAGE && Untouched(s)
    case TakeLock => s.trace == [] && s.rc == EXIT_USAGE && Untouched(s)
    case Preflight => s.trace == [Locked] && s.rc == EXIT_PREFLIGHT && Untouched(s)
    case Receipt1 => s.trace == [Locked] && s.rc == EXIT_VERIFY && Untouched(s)
    case Image => s.trace == [Locked, ReceiptAccepted] && s.rc == EXIT_VERIFY && Untouched(s)
    case Prepare => s.trace == Admitted && s.rc == EXIT_VERIFY && Untouched(s)
    case PreCreate => s.trace == Admitted && s.rc == EXIT_SPAWN && Untouched(s)
    case AwaitCreate =>
      s.trace == Admitted + [CreateCall] && s.rc == EXIT_SPAWN && s.createAttempted && s.cid.None? && !s.verified
    case SaveCid => s.trace == Admitted + [CreateCall, CreateReply(Cid(s))] && s.rc == EXIT_SPAWN && Held(s)
    case Inspect1 => s.trace == Admitted + [CreateCall, CreateReply(Cid(s))] && s.rc == EXIT_SPAWN && Held(s)
    case Gate => BeforeStart(s.trace + [ReceiptAccepted], Cid(s), e) && s.rc == EXIT_SPAWN && Held(s)
    case Receipt2 => BeforeStart(s.trace + [ReceiptAccepted], Cid(s), e) && s.rc == EXIT_VERIFY && Held(s)
    case AwaitStart => Started(s) && NonEmptyFrom(s, Locked) && s.rc == EXIT_SPAWN
    case OpenLog => Started(s) && NonEmptyFrom(s, Locked) && s.rc == EXIT_WATCHDOG
    case WatchInspect => Started(s) && NonEmptyFrom(s, Locked) && s.rc == EXIT_WATCHDOG
    case WatchEvent => Started(s) && NonEmptyFrom(s, Locked) && s.rc == EXIT_WATCHDOG
    case WatchSample => Started(s) && NonEmptyFrom(s, Locked) && s.rc == EXIT_WATCHDOG
    case WatchDeadline => Started(s) && NonEmptyFrom(s, Locked) && s.rc == EXIT_WATCHDOG
    case SaveFinal => ZeroMeansExit(s) && NonEmptyFrom(s, Locked) && JustVerified(s)
    case SaveRecord => ZeroMeansExit(s) && NonEmptyFrom(s, Locked) && (s.rc == 0 ==> JustVerified(s))
    case Done =>
      && s.trace != [] && s.trace[|s.trace| - 1] == Returned(s.rc)
      && (s.rc == 0 && s.createAttempted ==> s.verified)
    case _ => ZeroMeansExit(s) && NonEmptyFrom(s, Locked)
  }

  predicate JustVerified(s: Launch) {
    s.verified && s.trace != [] && s.trace[|s.trace| - 1] == StopVerified(Cid(s))
  }

  /** In cleanup, code 0 is only there because the held container was seen to exit with it. */
  predicate ZeroMeansExit(s: Launch) {
    s.rc == 0 ==> s.cid.Some? && IsHex(Cid(s), 64) && ExitSeen(Cid(s), 0) in s.trace
  }

  /** Kept by every step of every run. */
  ghost predicate Inv(s: Launch, e: Expect) { PcInv(s, e) && TraceSafe(s.trace, e) }
}

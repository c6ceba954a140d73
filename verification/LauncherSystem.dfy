/**
 Any number of launchers that share one cache directory, and the Docker daemon they talk to.
 A step of the system is one input of one launcher, or something the daemon does on its own.

 Assumed of the outside: the lock is exclusive; a create call takes effect before its reply and
 makes at most one container; a document that carries a launcher's owner label is a true snapshot
 of the container made for it; nobody restarts a container whose stop was verified.
 */
module LauncherSystem {
  import opened Common
  import opened Launcher
  import opened LauncherSafety

  /** `sealed`: its launcher verified that it stopped. */
  datatype Container = Container(owner: nat, running: bool, sealed: bool)

  datatype System = System(
    launchers: seq<Launch>, configs: seq<Config>, lock: Option<nat>, containers: map<string, Container>)

  datatype Move =
    | Local(i: nat, input: Input)
    | CreateEffect(i: nat, id: string, running: bool)
    | RunEffect(id: string, running: bool)

  predicate InLock(pc: Pc) { !pc.Admit? && !pc.TakeLock? && !pc.Done? }

  ghost predicate WellFormed(y: System) {
    && |y.launchers| == |y.configs|
    && forall id :: id in y.containers ==> y.containers[id].owner < |y.launchers|
  }

  ghost predicate Initial(y: System) {
    && |y.launchers| == |y.configs|
    && (forall i :: 0 <= i < |y.launchers| ==> y.launchers[i] == Init)
    && y.lock.None? && y.containers == map[]
  }

  /** A document with launcher `j`'s owner label is a snapshot of a container made for `j`. */
  ghost predicate Honest(y: System, d: Doc) {
    forall j :: 0 <= j < |y.configs| && HasLabel(d, OWNER_LABEL, y.configs[j].epoch.nonce) ==>
      && d.id in y.containers && y.containers[d.id].owner == j
      && (d.running.IsFalse? ==> !y.containers[d.id].running)
  }

  /** The launcher's stop is being verified by this input. */
  predicate Seals(s: Launch, i: Input, c: Config) {
    !s.verified && Advance(s, i, c).verified
  }

  ghost predicate LocalStep(y: System, i: nat, input: Input, z: System)
    requires WellFormed(y)
  {
    && i < |y.launchers|
    && var s := y.launchers[i];
    var t := Advance(s, input, y.configs[i]);
    && (s.pc.TakeLock? && input == Answer(Good) ==> y.lock.None?)
    && (input.Answer? && input.r.Inspection? ==> Honest(y, input.r.doc))
    && z.launchers == y.launchers[i := t]
    && z.configs == y.configs
    && z.lock == (if InLock(t.pc) then Some(i) else if InLock(s.pc) then None else y.lock)
    && z.containers ==
         if Seals(s, input, y.configs[i]) && Cid(s) in y.containers
         then y.containers[Cid(s) := y.containers[Cid(s)].(sealed := true)]
         else y.containers
  }

  ghost predicate OwnsNone(y: System, i: nat) {
    forall id :: id in y.containers ==> y.containers[id].owner != i
  }

  ghost predicate Next(y: System, move: Move, z: System)
    requires WellFormed(y)
  {
    match move
    case Local(i, input) => LocalStep(y, i, input, z)
    case CreateEffect(i, id, running) =>
      && i < |y.launchers| && y.launchers[i].pc.AwaitCreate?
      && id !in y.containers && OwnsNone(y, i)
      && z == y.(containers := y.containers[id := Container(i, running, false)])
    case RunEffect(id, running) =>
      && id in y.containers && !y.containers[id].sealed
      && z == y.(containers := y.containers[id := y.containers[id].(running := running)])
  }

  // ------------------------------------------------------------------
  // The invariant of the system
  // ------------------------------------------------------------------

  /** What one container says about its owner. */
  predicate Accounted(k: Container, owner: Launch) {
    && owner.createAttempted
    && (owner.verified ==> k.sealed)
    && (k.sealed ==> !k.running)
  }

  ghost predicate SystemInv(y: System) {
    && WellFormed(y)
    && (forall i :: 0 <= i < |y.launchers| ==> Inv(y.launchers[i], y.configs[i].epoch))
    && (forall i :: 0 <= i < |y.launchers| ==> (y.lock == Some(i) <==> InLock(y.launchers[i].pc)))
    && (forall id :: id in y.containers ==> Accounted(y.containers[id], y.launchers[y.containers[id].owner]))
    && (forall a, b :: a in y.containers && b in y.containers && y.containers[a].owner == y.containers[b].owner ==>
          a == b)
  }

  /** Only creation sets `createAttempted`, and nothing takes it or a verified stop back. */
  lemma StepFacts(s: Launch, i: Input, c: Config)
    ensures
      var t := Advance(s, i, c);
      && (s.createAttempted ==> t.createAttempted)
      && (s.verified ==> t.verified)
      && (InLock(t.pc) ==> InLock(s.pc) || (s.pc.TakeLock? && i == Answer(Good)))
  {
  }

  lemma SealFacts(s: Launch, i: Input, c: Config)
    requires Seals(s, i, c)
    ensures s.pc.FinalInspect? && i.Answer? && i.r.Inspection?
    ensures Owned(i.r.doc, Cid(s), c.epoch) && i.r.doc.running.IsFalse?
  {
  }

  /** One launcher's own part of the invariant survives its step. */
  lemma LocalKeepsInv(y: System, i: nat, input: Input, z: System)
    requires SystemInv(y) && LocalStep(y, i, input, z)
    ensures forall j :: 0 <= j < |z.launchers| ==> Inv(z.launchers[j], z.configs[j].epoch)
  {
    AdvanceKeeps(y.launchers[i], input, y.configs[i]);
    forall j | 0 <= j < |z.launchers| ensures Inv(z.launchers[j], z.configs[j].epoch) {
      if j != i {
        assert z.launchers[j] == y.launchers[j];
      }
    }
  }

  lemma LocalKeepsLock(y: System, i: nat, input: Input, z: System)
    requires SystemInv(y) && LocalStep(y, i, input, z)
    ensures forall j :: 0 <= j < |z.launchers| ==> (z.lock == Some(j) <==> InLock(z.launchers[j].pc))
  {
    StepFacts(y.launchers[i], input, y.configs[i]);
    forall j | 0 <= j < |z.launchers| ensures z.lock == Some(j) <==> InLock(z.launchers[j].pc) {
      if j != i {
        assert z.launchers[j] == y.launchers[j];
        assert y.lock == Some(j) <==> InLock(y.launchers[j].pc);
        assert y.lock == Some(i) <==> InLock(y.launchers[i].pc);
      }
    }
  }

  /** A sealing step seals the one container its launcher owns, and finds it stopped. */
  lemma SealingSeals(y: System, i: nat, input: Input, z: System, id: string)
    requires SystemInv(y) && LocalStep(y, i, input, z)
    requires Seals(y.launchers[i], input, y.configs[i])
    requires id in y.containers && y.containers[id].owner == i
    ensures id in z.containers && z.containers[id].sealed && !z.containers[id].running
  {
    var s := y.launchers[i];
    SealFacts(s, input, y.configs[i]);
    var d := input.r.doc;
    assert HasLabel(d, OWNER_LABEL, y.configs[i].epoch.nonce);
    assert d.id == Cid(s) && d.id in y.containers && y.containers[d.id].owner == i;
    assert id == d.id;
  }

  lemma LocalKeepsContainer(y: System, i: nat, input: Input, z: System, id: string)
    requires SystemInv(y) && LocalStep(y, i, input, z)
    requires id in z.containers
    ensures id in y.containers && z.containers[id].owner == y.containers[id].owner
    ensures Accounted(z.containers[id], z.launchers[z.containers[id].owner])
  {
    var j := y.containers[id].owner;
    var s := y.launchers[i];
    assert Accounted(y.containers[id], y.launchers[j]);
    StepFacts(s, input, y.configs[i]);
    if Seals(s, input, y.configs[i]) {
      if j == i {
        SealingSeals(y, i, input, z, id);
      } else {
        SealFacts(s, input, y.configs[i]);
        assert HasLabel(input.r.doc, OWNER_LABEL, y.configs[i].epoch.nonce);
        assert id != Cid(s);
      }
    }
  }

  lemma LocalKeeps(y: System, i: nat, input: Input, z: System)
    requires SystemInv(y) && LocalStep(y, i, input, z)
    ensures SystemInv(z)
  {
    LocalKeepsInv(y, i, input, z);
    LocalKeepsLock(y, i, input, z);
    forall id | id in z.containers
      ensures id in y.containers && z.containers[id].owner == y.containers[id].owner
      ensures Accounted(z.containers[id], z.launchers[z.containers[id].owner])
    {
      LocalKeepsContainer(y, i, input, z, id);
    }
  }

  lemma CreateKeeps(y: System, i: nat, id: string, running: bool, z: System)
    requires SystemInv(y) && Next(y, CreateEffect(i, id, running), z)
    ensures SystemInv(z)
  {
    assert Inv(y.launchers[i], y.configs[i].epoch);
    forall k | k in z.containers ensures Accounted(z.containers[k], z.launchers[z.containers[k].owner]) {
      if k != id {
        assert Accounted(y.containers[k], y.launchers[y.containers[k].owner]);
      }
    }
  }

  lemma RunKeeps(y: System, id: string, running: bool, z: System)
    requires SystemInv(y) && Next(y, RunEffect(id, running), z)
    ensures SystemInv(z)
  {
    forall k | k in z.containers ensures Accounted(z.containers[k], z.launchers[z.containers[k].owner]) {
      assert Accounted(y.containers[k], y.launchers[y.containers[k].owner]);
    }
  }

  lemma NextKeeps(y: System, move: Move, z: System)
    requires SystemInv(y) && Next(y, move, z)
    ensures SystemInv(z)
  {
    match move
    case Local(i, input) => LocalKeeps(y, i, input, z);
    case CreateEffect(i, id, running) => CreateKeeps(y, i, id, running, z);
    case RunEffect(id, running) => RunKeeps(y, id, running, z);
  }

  // ------------------------------------------------------------------
  // Runs of the system
  // ------------------------------------------------------------------

  /** An interleaving: states and the moves between them. */
  ghost predicate IsRun(states: seq<System>, moves: seq<Move>) {
    && |states| == |moves| + 1
    && Initial(states[0])
    && forall k :: 0 <= k < |moves| ==> WellFormed(states[k]) && Next(states[k], moves[k], states[k + 1])
  }

  lemma InitialGood(y: System)
    requires Initial(y)
    ensures SystemInv(y)
  {
  }

  lemma {:induction false} ReachableGood(states: seq<System>, moves: seq<Move>, k: nat)
    requires IsRun(states, moves) && k < |states|
    ensures SystemInv(states[k])
  {
    if k == 0 {
      InitialGood(states[0]);
    } else {
      ReachableGood(states, moves, k - 1);
      assert Next(states[k - 1], moves[k - 1], states[k]);
      NextKeeps(states[k - 1], moves[k - 1], states[k]);
    }
  }

  /** Launcher `j` has returned, non-zero, without having verified its stop. */
  predicate FailedToStop(s: Launch) { s.pc.Done? && s.rc != 0 && !s.verified }

  /** A running container belongs to the launcher that holds the lock, or to a failed one. */
  lemma RunningIsHeldOrFailed(y: System, id: string)
    requires SystemInv(y) && id in y.containers && y.containers[id].running
    ensures
      var j := y.containers[id].owner;
      y.lock == Some(j) || FailedToStop(y.launchers[j])
  {
    var j := y.containers[id].owner;
    assert Accounted(y.containers[id], y.launchers[j]);
    assert Inv(y.launchers[j], y.configs[j].epoch);
  }

  /** The launcher issues its start call in this move. */
  ghost predicate Starts(y: System, move: Move, z: System) {
    && move.Local? && move.i < |y.launchers| && |z.launchers| == |y.launchers|
    && y.launchers[move.i].pc.Receipt2? && z.launchers[move.i].pc.AwaitStart?
  }

  /**
   In every interleaving of any number of launchers: when one of them starts its container, every
   container that belongs to another launcher and is running belongs to one that has returned a
   non-zero code without verifying its stop.
   */
  lemma NoOverlap(states: seq<System>, moves: seq<Move>, k: nat, id: string)
    requires IsRun(states, moves) && k < |moves|
    requires Starts(states[k], moves[k], states[k + 1])
    requires id in states[k].containers && states[k].containers[id].running
    ensures
      var j := states[k].containers[id].owner;
      j == moves[k].i || FailedToStop(states[k].launchers[j])
  {
    ReachableGood(states, moves, k);
    RunningIsHeldOrFailed(states[k], id);
    var i := moves[k].i;
    assert states[k].lock == Some(i) <==> InLock(states[k].launchers[i].pc);
  }

  /** At every moment at most one container runs, not counting those of failed launchers. */
  lemma OneOwnerRuns(states: seq<System>, moves: seq<Move>, k: nat, a: string, b: string)
    requires IsRun(states, moves) && k < |states|
    requires
      && a in states[k].containers && states[k].containers[a].running
      && b in states[k].containers && states[k].containers[b].running
    ensures WellFormed(states[k])
    ensures
      || a == b
      || FailedToStop(states[k].launchers[states[k].containers[a].owner])
      || FailedToStop(states[k].launchers[states[k].containers[b].owner])
  {
    ReachableGood(states, moves, k);
    RunningIsHeldOrFailed(states[k], a);
    RunningIsHeldOrFailed(states[k], b);
  }
}

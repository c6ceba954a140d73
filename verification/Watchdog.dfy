/** The memory watchdog of the launcher: a counter that refines a window over the samples. */
module Watchdog {
  import opened Common
  import opened Launcher
  import opened LauncherSafety

  /** Floor in kB of a floor in GiB; truncation as in the source. */
  function MemFloorKb(gib: real): (kb: nat)
    requires 4.0 <= gib <= 16.0
    ensures 4194304 <= kb <= 16777216
    ensures kb as real * 1024.0 <= gib * 1073741824.0 < (kb + 1) as real * 1024.0
  {
    var bytes := (gib * 1073741824.0).Floor;
    var kb := bytes / 1024;
    assert kb * 1024 <= bytes < (kb + 1) * 1024;
    kb
  }

  /** A sample the reader could make sense of. */
  predicate Known(x: Option<int>) { x.Some? && x.value >= 0 }

  predicate Low(x: Option<int>, floorKb: nat) { Known(x) && x.value < floorKb }

  /**
   The documented rule at sample `k`: unknown, below half the floor, or the last of five
   consecutive samples below the floor.
   */
  predicate WindowStops(samples: seq<Option<int>>, k: nat, floorKb: nat)
    requires k < |samples|
  {
    || !Known(samples[k])
    || samples[k].value < floorKb / 2
    || (k >= 4 && forall i :: k - 4 <= i <= k ==> Low(samples[i], floorKb))
  }

  predicate NeverStops(samples: seq<Option<int>>, floorKb: nat) {
    forall k :: 0 <= k < |samples| ==> !WindowStops(samples, k, floorKb)
  }

  /** Length of the run of low samples at the end. */
  function LowRun(samples: seq<Option<int>>, floorKb: nat): (n: nat)
    ensures n <= |samples|
    ensures forall i :: |samples| - n <= i < |samples| ==> Low(samples[i], floorKb)
    ensures n < |samples| ==> !Low(samples[|samples| - n - 1], floorKb)
  {
    if samples == [] || !Low(samples[|samples| - 1], floorKb) then 0
    else 1 + LowRun(samples[..|samples| - 1], floorKb)
  }

  lemma LowRunNext(samples: seq<Option<int>>, x: Option<int>, floorKb: nat)
    requires Known(x)
    ensures NextLow(LowRun(samples, floorKb), x.value, floorKb) == LowRun(samples + [x], floorKb)
  {
    var all := samples + [x];
    assert all[..|samples|] == samples;
  }

  lemma LowRunShort(samples: seq<Option<int>>, floorKb: nat)
    requires NeverStops(samples, floorKb)
    ensures LowRun(samples, floorKb) < 5
  {
    var n := |samples|;
    if LowRun(samples, floorKb) >= 5 {
      assert WindowStops(samples, n - 1, floorKb);
    }
  }

  /** Five low samples end at the last one exactly when the run of low samples is that long. */
  lemma LowRunIsWindow(all: seq<Option<int>>, floorKb: nat)
    requires all != []
    ensures
      var n := |all| - 1;
      LowRun(all, floorKb) >= 5 <==> n >= 4 && forall i :: n - 4 <= i <= n ==> Low(all[i], floorKb)
  {
    var (n, low) := (|all| - 1, LowRun(all, floorKb));
    if low < 5 && n >= 4 {
      assert !Low(all[n - low], floorKb);
    }
  }

  /** The counter decides each new sample exactly as the window over all samples does. */
  lemma CounterIsWindow(samples: seq<Option<int>>, x: Option<int>, floorKb: nat)
    requires NeverStops(samples, floorKb)
    ensures LowRun(samples, floorKb) < 5
    ensures MemoryStops(LowRun(samples, floorKb), x, floorKb) == WindowStops(samples + [x], |samples|, floorKb)
    ensures Known(x) ==>
              NextLow(LowRun(samples, floorKb), x.value, floorKb) == LowRun(samples + [x], floorKb)
  {
    LowRunShort(samples, floorKb);
    if Known(x) {
      LowRunNext(samples, x, floorKb);
      LowRunIsWindow(samples + [x], floorKb);
    }
  }

  lemma PrefixNeverStops(samples: seq<Option<int>>, x: Option<int>, floorKb: nat)
    requires NeverStops(samples, floorKb)
    requires !WindowStops(samples + [x], |samples|, floorKb)
    ensures NeverStops(samples + [x], floorKb)
  {
    var all := samples + [x];
    forall k | 0 <= k < |all| ensures !WindowStops(all, k, floorKb) {
      if k < |samples| {
        assert !WindowStops(samples, k, floorKb);
        assert forall i :: 0 <= i <= k ==> all[i] == samples[i];
      }
    }
  }

  /** The loop with its counter: it stops at the first sample the rule names, and only there. */
  method WatchSamples(samples: seq<Option<int>>, floorKb: nat) returns (stop: Option<nat>)
    ensures stop.None? <==> NeverStops(samples, floorKb)
    ensures stop.Some? ==>
              && stop.value < |samples|
              && WindowStops(samples, stop.value, floorKb)
              && NeverStops(samples[..stop.value], floorKb)
  {
    var low := 0;
    for k := 0 to |samples|
      invariant NeverStops(samples[..k], floorKb)
      invariant low == LowRun(samples[..k], floorKb)
    {
      var available := samples[k];
      var past := samples[..k];
      CounterIsWindow(past, available, floorKb);
      assert samples[..k + 1] == past + [available];
      StopsAgree(samples, k, floorKb);
      if !(available.Some? && available.value >= 0) {
        return Some(k);
      }
      low := if available.value < floorKb then low + 1 else 0;
      if available.value < floorKb / 2 || low >= 5 {
        return Some(k);
      }
      PrefixNeverStops(past, available, floorKb);
    }
    assert samples[..|samples|] == samples;
    stop := None;
  }

  /** Later samples do not change the verdict on sample `k`. */
  lemma StopsAgree(samples: seq<Option<int>>, k: nat, floorKb: nat)
    requires k < |samples|
    ensures WindowStops(samples[..k + 1], k, floorKb) == WindowStops(samples, k, floorKb)
  {
    var past := samples[..k + 1];
    assert forall i :: 0 <= i <= k ==> past[i] == samples[i];
  }

  // ------------------------------------------------------------------
  // The launcher machine watches in the same way
  // ------------------------------------------------------------------

  /** One undisturbed turn of the watch loop: running, no event, a sample, no deadline. */
  function Turn(doc: Doc, x: Option<int>): (r: seq<Input>) {
    [Answer(Inspection(doc)), Answer(Good), Answer(Memory(x)), Answer(Good)]
  }

  /** Turn after turn; each has a document of its own. */
  function Turns(docs: seq<Doc>, samples: seq<Option<int>>): (r: seq<Input>)
    requires |docs| == |samples|
  {
    if samples == [] then []
    else
      var n := |samples| - 1;
      Turns(docs[..n], samples[..n]) + Turn(docs[n], samples[n])
  }

  lemma {:induction false} ExecAppend(s: Launch, a: seq<Input>, b: seq<Input>, c: Config)
    ensures Exec(s, a + b, c) == Exec(Exec(s, a, c), b, c)
    decreases |a|
  {
    if a == [] {
      assert a + b == b;
    } else {
      assert (a + b)[1..] == a[1..] + b;
      ExecAppend(Advance(s, a[0], c), a[1..], b, c);
    }
  }

  /** At the top of the watch loop, without an event. */
  predicate Watching(s: Launch) { s.pc.WatchInspect? && s.event.None? }

  /** An owned document that reports the container running; the rest of it is arbitrary. */
  predicate Shows(doc: Doc, cid: string, c: Config) { Owned(doc, cid, c.epoch) && doc.running.IsTrue? }

  lemma OneTurn(s: Launch, doc: Doc, x: Option<int>, c: Config)
    requires Watching(s) && Shows(doc, Cid(s), c)
    ensures
      var t := Exec(s, Turn(doc, x), c);
      var stopped := Exec(s, Turn(doc, x)[..3], c);
      && (MemoryStops(s.low, x, c.floorKb) ==> stopped.pc.Resolve? && stopped.rc == EXIT_WATCHDOG)
      && (!MemoryStops(s.low, x, c.floorKb) ==>
            Watching(t) && t.cid == s.cid && t.low == NextLow(s.low, x.value, c.floorKb))
  {
    var turn := Turn(doc, x);
    var s1 := Advance(s, turn[0], c);
    var s2 := Advance(s1, turn[1], c);
    var s3 := Advance(s2, turn[2], c);
    assert s1.pc.WatchEvent? && s2.pc.WatchSample? && s2.event.None? && s2.low == s.low && s2.cid == s.cid;
    assert turn[..3] == [turn[0], turn[1], turn[2]];
    ExecThree(s, turn[0], turn[1], turn[2], c);
    assert turn == turn[..3] + [turn[3]];
    ExecAppend(s, turn[..3], [turn[3]], c);
    ExecOne(s3, turn[3], c);
  }

  lemma ExecOne(s: Launch, a: Input, c: Config)
    ensures Exec(s, [a], c) == Advance(s, a, c)
  {
    assert [a][1..] == [];
  }

  lemma ExecThree(s: Launch, x: Input, y: Input, z: Input, c: Config)
    ensures Exec(s, [x, y, z], c) == Advance(Advance(Advance(s, x, c), y, c), z, c)
  {
    assert [x, y, z][1..] == [y, z] && [y, z][1..] == [z];
    ExecOne(Advance(Advance(s, x, c), y, c), z, c);
  }

  lemma FewerNeverStop(samples: seq<Option<int>>, n: nat, floorKb: nat)
    requires n <= |samples| && NeverStops(samples, floorKb)
    ensures NeverStops(samples[..n], floorKb)
  {
    var past := samples[..n];
    forall k | 0 <= k < n ensures !WindowStops(past, k, floorKb) {
      StopsAgree(samples, k, floorKb);
      StopsAgree(past, k, floorKb);
      assert samples[..k + 1] == past[..k + 1];
    }
  }

  lemma {:induction false} KeepsWatching(s: Launch, docs: seq<Doc>, samples: seq<Option<int>>, c: Config)
    requires Watching(s) && s.low == 0
    requires |docs| == |samples| && forall i :: 0 <= i < |docs| ==> Shows(docs[i], Cid(s), c)
    requires NeverStops(samples, c.floorKb)
    ensures
      var t := Exec(s, Turns(docs, samples), c);
      Watching(t) && t.cid == s.cid && t.low == LowRun(samples, c.floorKb)
    decreases |samples|
  {
    if samples != [] {
      var n := |samples| - 1;
      var (past, x) := (samples[..n], samples[n]);
      assert samples == past + [x];
      FewerNeverStop(samples, n, c.floorKb);
      KeepsWatching(s, docs[..n], past, c);
      CounterIsWindow(past, x, c.floorKb);
      ExecAppend(s, Turns(docs[..n], past), Turn(docs[n], x), c);
      OneTurn(Exec(s, Turns(docs[..n], past), c), docs[n], x, c);
    }
  }

  /**
   While the container runs undisturbed, whatever else the documents say, the launcher leaves the
   loop at a sample exactly when the window rule names that sample; until then it keeps watching.
   */
  lemma StopsExactlyAtWindow(
    s: Launch, docs: seq<Doc>, samples: seq<Option<int>>, doc: Doc, x: Option<int>, c: Config)
    requires Watching(s) && s.low == 0
    requires |docs| == |samples| && forall i :: 0 <= i < |docs| ==> Shows(docs[i], Cid(s), c)
    requires Shows(doc, Cid(s), c)
    requires NeverStops(samples, c.floorKb)
    ensures Watching(Exec(s, Turns(docs, samples), c))
    ensures
      if WindowStops(samples + [x], |samples|, c.floorKb)
      then
        var after := Exec(s, Turns(docs, samples) + Turn(doc, x)[..3], c);
        after.pc.Resolve? && after.rc == EXIT_WATCHDOG
      else Watching(Exec(s, Turns(docs, samples) + Turn(doc, x), c))
  {
    var before := Exec(s, Turns(docs, samples), c);
    KeepsWatching(s, docs, samples, c);
    CounterIsWindow(samples, x, c.floorKb);
    OneTurn(before, doc, x, c);
    ExecAppend(s, Turns(docs, samples), Turn(doc, x)[..3], c);
    ExecAppend(s, Turns(docs, samples), Turn(doc, x), c);
  }

  /** Whatever happens after such a sample, the run only cleans up, and the code it returns is 8. */
  lemma ReturnsWatchdogCode(
    s: Launch, docs: seq<Doc>, samples: seq<Option<int>>, doc: Doc, x: Option<int>, rest: seq<Input>, c: Config)
    requires Watching(s) && s.low == 0
    requires |docs| == |samples| && forall i :: 0 <= i < |docs| ==> Shows(docs[i], Cid(s), c)
    requires Shows(doc, Cid(s), c)
    requires NeverStops(samples, c.floorKb) && WindowStops(samples + [x], |samples|, c.floorKb)
    ensures
      var t := Exec(s, Turns(docs, samples) + Turn(doc, x)[..3] + rest, c);
      (InCleanup(t.pc) || t.pc.Done?) && t.rc == EXIT_WATCHDOG
  {
    var inputs := Turns(docs, samples) + Turn(doc, x)[..3];
    StopsExactlyAtWindow(s, docs, samples, doc, x, c);
    ExecAppend(s, inputs, rest, c);
    CleanupKeepsCode(Exec(s, inputs, c), rest, c);
  }
}

/** Exact-token prompt construction for the retrieval cases (scripts/niah.py). */
module Niah {
  type Tokens = seq<int>

  /** A needle: its depth in the prompt and its token ids. */
  datatype Needle = Needle(depth: real, ids: Tokens)

  /** Truncation toward zero, as `int` does it. */
  function Trunc(x: real): (n: int)
    ensures x >= 0.0 ==> n as real <= x < (n + 1) as real
    ensures x < 0.0 ==> (n - 1) as real < x <= n as real
  {
    if x >= 0.0 then x.Floor else -((-x).Floor)
  }

  function Offset(needle: Needle, target: int): (n: int) { Trunc(needle.depth * target as real) }

  /** The offset asked for: depth times target, with the fraction cut off toward zero. */
  predicate CutsOff(x: real, n: int) {
    if x >= 0.0 then n as real <= x < (n + 1) as real else (n - 1) as real < x <= n as real
  }

  /** Where a needle's tokens go. */
  datatype Spot = Spot(at: int, ids: Tokens)

  function Spots(needles: seq<Needle>, target: int): (r: seq<Spot>)
    ensures |r| == |needles|
    ensures forall k :: 0 <= k < |r| ==> r[k] == Spot(Offset(needles[k], target), needles[k].ids)
  {
    seq(|needles|, k requires 0 <= k < |needles| => Spot(Offset(needles[k], target), needles[k].ids))
  }

  // ------------------------------------------------------------------
  // Filler and slot
  // ------------------------------------------------------------------

  function Repeat(one: Tokens, reps: nat): (r: Tokens) {
    if reps == 0 then [] else one + Repeat(one, reps - 1)
  }

  lemma {:induction false} RepeatSize(one: Tokens, reps: nat)
    ensures |Repeat(one, reps)| == |one| * reps
  {
    if reps > 0 {
      RepeatSize(one, reps - 1);
      assert |one| * reps == |one| + |one| * (reps - 1);
    }
  }

  /** `i % m` by repeated subtraction. */
  function Phase(i: nat, m: nat): (r: nat)
    requires m > 0
    ensures r < m
  {
    if i < m then i else Phase(i - m, m)
  }

  lemma {:induction false} PhaseIsMod(i: nat, m: nat)
    requires m > 0
    ensures Phase(i, m) == i % m
  {
    if i >= m {
      PhaseIsMod(i - m, m);
      ModShift(i - m, m);
    }
  }

  lemma ModShift(i: nat, m: nat)
    requires m > 0
    ensures (i + m) % m == i % m
  {
    var (q, r) := (i / m, i % m);
    assert i == m * q + r;
    assert m * (q + 1) == m * q + m;
    DivUnique(i + m, m, q + 1, r);
  }

  lemma DivUnique(x: nat, m: nat, q: nat, r: nat)
    requires m > 0 && r < m && x == m * q + r
    ensures x % m == r
  {
    var (a, b) := (x / m, x % m);
    assert x == m * a + b;
    assert a > q ==> m * a >= m * (q + 1) && m * (q + 1) == m * q + m;
    assert a < q ==> m * q >= m * (a + 1) && m * (a + 1) == m * a + m;
  }

  lemma {:induction false} RepeatAt(one: Tokens, reps: nat, i: nat)
    requires one != [] && i < |Repeat(one, reps)|
    ensures Repeat(one, reps)[i] == one[Phase(i, |one|)]
  {
    if reps > 0 && i >= |one| {
      RepeatAt(one, reps - 1, i - |one|);
    }
  }

  /** The filler sentence tiled and cut to `n` tokens. */
  function BuildFiller(one: Tokens, n: nat): (r: Tokens)
    requires one != []
    ensures |r| == n
  {
    EnoughFiller(one, n);
    Repeat(one, n / |one| + 2)[..n]
  }

  lemma EnoughFiller(one: Tokens, n: nat)
    requires one != []
    ensures |Repeat(one, n / |one| + 2)| >= n
  {
    var (m, q) := (|one|, n / |one|);
    RepeatSize(one, q + 2);
    assert n == m * q + n % m;
    assert m * (q + 2) == m * q + m * 2;
  }

  lemma FillerAt(one: Tokens, n: nat, i: nat)
    requires one != [] && i < n
    ensures BuildFiller(one, n)[i] == one[i % |one|]
  {
    EnoughFiller(one, n);
    RepeatAt(one, n / |one| + 2, i);
    PhaseIsMod(i, |one|);
  }

  predicate SlotAt(template: Tokens, slot: Tokens, i: nat) {
    i + |slot| <= |template| && template[i..i + |slot|] == slot
  }

  function SlotStarts(template: Tokens, slot: Tokens, upTo: nat): (r: seq<nat>)
    ensures forall i: nat :: i in r <==> i < upTo && SlotAt(template, slot, i)
  {
    if upTo == 0 then []
    else SlotStarts(template, slot, upTo - 1) + (if SlotAt(template, slot, upTo - 1) then [upTo - 1] else [])
  }

  // ------------------------------------------------------------------
  // What is accepted, and what is built
  // ------------------------------------------------------------------

  /** The needle has tokens and lies inside the body. */
  predicate Inside(spot: Spot, prefix: nat, body: nat) {
    prefix <= spot.at && spot.ids != [] && spot.at + |spot.ids| <= prefix + body
  }

  predicate Overlap(a: Spot, b: Spot) {
    && a.at < b.at + |b.ids|
    && b.at < a.at + |a.ids|
  }

  /** All spots lie in the body and no two of them overlap. */
  predicate Placeable(spots: seq<Spot>, prefix: nat, body: nat) {
    && (forall k :: 0 <= k < |spots| ==> Inside(spots[k], prefix, body))
    && (forall j, k :: 0 <= j < k < |spots| ==> !Overlap(spots[j], spots[k]))
  }

  predicate InSpot(spots: seq<Spot>, i: int) {
    exists k :: 0 <= k < |spots| && spots[k].at <= i < spots[k].at + |spots[k].ids|
  }

  /** The tokens from `at` on are exactly `ids`. */
  predicate Intact(tokens: Tokens, at: int, ids: Tokens) {
    0 <= at && at + |ids| <= |tokens| && tokens[at..at + |ids|] == ids
  }

  /**
   The prompt: target length, template around the slot untouched, every needle intact at its
   offset, filler everywhere else.
   */
  predicate Built(prompt: Tokens, prefix: Tokens, suffix: Tokens, one: Tokens, spots: seq<Spot>, target: int)
    requires one != []
  {
    && |prompt| == target
    && |prefix| + |suffix| <= target
    && prompt[..|prefix|] == prefix
    && prompt[target - |suffix|..] == suffix
    && (forall k :: 0 <= k < |spots| ==> Intact(prompt, spots[k].at, spots[k].ids))
    && (forall i :: |prefix| <= i < target - |suffix| && !InSpot(spots, i) ==>
          prompt[i] == one[(i - |prefix|) % |one|])
  }

  predicate OneSlotAtMost(template: Tokens, slot: Tokens, upTo: nat) {
    forall i, j :: 0 <= i < upTo && 0 <= j < upTo && SlotAt(template, slot, i) && SlotAt(template, slot, j) ==> i == j
  }

  /** The slot is there exactly once and leaves room for a body. */
  predicate Splittable(template: Tokens, slot: Tokens, one: Tokens, target: int) {
    && slot != [] && one != []
    && (exists i :: 0 <= i < |template| && SlotAt(template, slot, i))
    && OneSlotAtMost(template, slot, |template|)
    && target - (|template| - |slot|) > 0
  }

  // ------------------------------------------------------------------
  // Splicing in place
  // ------------------------------------------------------------------

  /** Body after some spots: each of them intact, the filler elsewhere. */
  predicate BodyHolds(body: Tokens, filler: Tokens, spots: seq<Spot>, prefix: nat) {
    |body| == |filler| && NeedlesIn(body, spots, prefix) && FillerElsewhere(body, filler, spots, prefix)
  }

  predicate NeedlesIn(body: Tokens, spots: seq<Spot>, prefix: nat) {
    forall k :: 0 <= k < |spots| ==> Intact(body, spots[k].at - prefix, spots[k].ids)
  }

  predicate FillerElsewhere(body: Tokens, filler: Tokens, spots: seq<Spot>, prefix: nat)
    requires |body| == |filler|
  {
    forall i :: 0 <= i < |body| && !InSpot(spots, i + prefix) ==> body[i] == filler[i]
  }

  /** The body after writing `x` into it. */
  function Spliced(body: Tokens, x: Spot, prefix: nat): (r: Tokens)
    requires Inside(x, prefix, |body|)
    ensures |r| == |body|
  {
    var at := x.at - prefix;
    body[..at] + x.ids + body[at + |x.ids|..]
  }

  /** `body[at:end] = ids` with as many tokens as it replaces. */
  method Splice(body: array<int>, x: Spot, prefix: nat)
    requires Inside(x, prefix, body.Length)
    modifies body
    ensures body[..] == Spliced(old(body[..]), x, prefix)
  {
    var at := x.at - prefix;
    for i := 0 to |x.ids|
      invariant forall k :: 0 <= k < i ==> body[at + k] == x.ids[k]
      invariant forall k :: 0 <= k < body.Length && !(at <= k < at + i) ==> body[k] == old(body[k])
    {
      body[at + i] := x.ids[i];
    }
  }

  lemma SpliceKeepsOther(body: Tokens, x: Spot, y: Spot, prefix: nat)
    requires Inside(x, prefix, |body|) && Inside(y, prefix, |body|) && !Overlap(y, x)
    requires Intact(body, y.at - prefix, y.ids)
    ensures Intact(Spliced(body, x, prefix), y.at - prefix, y.ids)
  {
    IntactOutside(body, Spliced(body, x, prefix), x.at - prefix, x.ids, y.at - prefix, y.ids);
  }

  lemma SplicePlaces(body: Tokens, x: Spot, prefix: nat)
    requires Inside(x, prefix, |body|)
    ensures Intact(Spliced(body, x, prefix), x.at - prefix, x.ids)
  {
  }

  /** A splice that overlaps no earlier needle leaves them all intact. */
  lemma SpliceKeeps(body: Tokens, filler: Tokens, spots: seq<Spot>, x: Spot, prefix: nat)
    requires BodyHolds(body, filler, spots, prefix)
    requires Inside(x, prefix, |body|)
    requires Placeable(spots + [x], prefix, |filler|)
    ensures BodyHolds(Spliced(body, x, prefix), filler, spots + [x], prefix)
  {
    SpliceNeedles(body, spots, x, prefix);
    SpliceFiller(body, filler, spots, x, prefix);
  }

  lemma SpliceNeedles(body: Tokens, spots: seq<Spot>, x: Spot, prefix: nat)
    requires NeedlesIn(body, spots, prefix)
    requires Inside(x, prefix, |body|)
    requires Placeable(spots + [x], prefix, |body|)
    ensures NeedlesIn(Spliced(body, x, prefix), spots + [x], prefix)
  {
    var (all, after) := (spots + [x], Spliced(body, x, prefix));
    forall k | 0 <= k < |all| ensures Intact(after, all[k].at - prefix, all[k].ids) {
      SpliceIntact(body, spots, x, prefix, k);
    }
  }

  lemma SpliceFiller(body: Tokens, filler: Tokens, spots: seq<Spot>, x: Spot, prefix: nat)
    requires |body| == |filler| && FillerElsewhere(body, filler, spots, prefix)
    requires Inside(x, prefix, |body|)
    ensures FillerElsewhere(Spliced(body, x, prefix), filler, spots + [x], prefix)
  {
    var (all, after) := (spots + [x], Spliced(body, x, prefix));
    forall i | 0 <= i < |after| && !InSpot(all, i + prefix) ensures after[i] == filler[i] {
      NotInFewer(spots, x, i + prefix);
      SpliceElsewhere(body, x, prefix, i);
    }
  }

  lemma SpliceElsewhere(body: Tokens, x: Spot, prefix: nat, i: nat)
    requires Inside(x, prefix, |body|) && i < |body|
    requires !(x.at <= i + prefix < x.at + |x.ids|)
    ensures Spliced(body, x, prefix)[i] == body[i]
  {
  }

  lemma SpliceIntact(body: Tokens, spots: seq<Spot>, x: Spot, prefix: nat, k: nat)
    requires NeedlesIn(body, spots, prefix)
    requires Inside(x, prefix, |body|)
    requires Placeable(spots + [x], prefix, |body|) && k <= |spots|
    ensures
      var y := (spots + [x])[k];
      Intact(Spliced(body, x, prefix), y.at - prefix, y.ids)
  {
    var (all, n) := (spots + [x], |spots|);
    if k < n {
      assert all[k] == spots[k] && all[n] == x;
      assert Inside(all[k], prefix, |body|) && !Overlap(all[k], all[n]);
      SpliceKeepsOther(body, x, spots[k], prefix);
    } else {
      SplicePlaces(body, x, prefix);
    }
  }

  lemma NotInFewer(spots: seq<Spot>, x: Spot, i: int)
    requires !InSpot(spots + [x], i)
    ensures !InSpot(spots, i)
    ensures !(x.at <= i < x.at + |x.ids|)
  {
    var all := spots + [x];
    assert all[|spots|] == x;
    assert forall k :: 0 <= k < |spots| ==> all[k] == spots[k];
  }

  lemma IntactOutside(before: Tokens, after: Tokens, at: nat, ids: Tokens, other: nat, otherIds: Tokens)
    requires at + |ids| <= |before| && after == before[..at] + ids + before[at + |ids|..]
    requires Intact(before, other, otherIds)
    requires other + |otherIds| <= at || at + |ids| <= other
    ensures Intact(after, other, otherIds)
  {
    forall i | 0 <= i < |otherIds| ensures after[other + i] == otherIds[i] {
      assert before[other..other + |otherIds|][i] == before[other + i];
    }
    assert after[other..other + |otherIds|] == otherIds;
  }

  /** The ranges of the body that spots occupy. */
  function Ranges(spots: seq<Spot>, prefix: nat): (r: seq<(int, int)>)
    ensures |r| == |spots|
  {
    seq(|spots|, k requires 0 <= k < |spots| =>
      (spots[k].at - prefix, spots[k].at - prefix + |spots[k].ids|))
  }

  predicate Clashes(occupied: seq<(int, int)>, at: int, end: int) {
    exists j :: 0 <= j < |occupied| && at < occupied[j].1 && occupied[j].0 < end
  }

  /** The tests on one more needle are exactly what placing it asks for. */
  lemma PlaceOneMore(spots: seq<Spot>, x: Spot, prefix: nat, size: nat)
    requires Placeable(spots, prefix, size)
    ensures
      var at := x.at - prefix;
      Placeable(spots + [x], prefix, size) <==>
        && Inside(x, prefix, size)
        && !Clashes(Ranges(spots, prefix), at, at + |x.ids|)
  {
    var (all, n, occupied) := (spots + [x], |spots|, Ranges(spots, prefix));
    var at := x.at - prefix;
    assert all[n] == x;
    assert forall k :: 0 <= k < n ==> all[k] == spots[k];
    forall j | 0 <= j < n
      ensures Overlap(all[j], all[n]) <==> at < occupied[j].1 && occupied[j].0 < at + |x.ids|
    {
    }
  }

  lemma FewerPlaceable(spots: seq<Spot>, k: nat, prefix: nat, size: nat)
    requires k <= |spots| && Placeable(spots, prefix, size)
    ensures Placeable(spots[..k], prefix, size)
  {
  }

  /** Tests one needle against the body and the occupied ranges, and splices it in. */
  method PlaceOne(
    body: array<int>, ghost filler: Tokens, ghost past: seq<Spot>, x: Spot, prefix: nat, occupied: seq<(int, int)>)
    returns (ok: bool)
    requires Placeable(past, prefix, body.Length) && occupied == Ranges(past, prefix)
    requires BodyHolds(body[..], filler, past, prefix)
    modifies body
    ensures ok <==> Placeable(past + [x], prefix, body.Length)
    ensures ok ==> BodyHolds(body[..], filler, past + [x], prefix)
  {
    PlaceOneMore(past, x, prefix, body.Length);
    var at := x.at - prefix;
    var end := at + |x.ids|;
    if !(0 <= at < end <= body.Length) || Clashes(occupied, at, end) {
      return false;
    }
    SpliceKeeps(body[..], filler, past, x, prefix);
    Splice(body, x, prefix);
    ok := true;
  }

  lemma RangesMore(past: seq<Spot>, x: Spot, prefix: nat)
    ensures Ranges(past + [x], prefix) == Ranges(past, prefix) + [(x.at - prefix, x.at - prefix + |x.ids|)]
  {
  }

  /** Splices every needle into the filler, or stops at the first that cannot be placed. */
  method PlaceNeedles(one: Tokens, spots: seq<Spot>, prefix: nat, size: nat)
    returns (ok: bool, body: Tokens, offsets: seq<int>)
    requires one != []
    ensures ok <==> Placeable(spots, prefix, size)
    ensures ok ==> BodyHolds(body, BuildFiller(one, size), spots, prefix)
    ensures ok ==> |offsets| == |spots| && forall k :: 0 <= k < |spots| ==> offsets[k] == spots[k].at
  {
    var filler := BuildFiller(one, size);
    var a := new int[size](i requires 0 <= i < size => filler[i]);
    assert a[..] == filler;
    offsets := [];
    var occupied: seq<(int, int)> := [];
    for k := 0 to |spots|
      invariant Placeable(spots[..k], prefix, size)
      invariant BodyHolds(a[..], filler, spots[..k], prefix)
      invariant |offsets| == k && forall j :: 0 <= j < k ==> offsets[j] == spots[j].at
      invariant occupied == Ranges(spots[..k], prefix)
    {
      var x := spots[k];
      assert spots[..k + 1] == spots[..k] + [x];
      RangesMore(spots[..k], x, prefix);
      var placed := PlaceOne(a, filler, spots[..k], x, prefix, occupied);
      if !placed {
        if Placeable(spots, prefix, size) {
          FewerPlaceable(spots, k + 1, prefix, size);
        }
        return false, [], [];
      }
      occupied := occupied + [(x.at - prefix, x.at - prefix + |x.ids|)];
      offsets := offsets + [x.at];
    }
    assert spots[..|spots|] == spots;
    ok, body := true, a[..];
  }

  // ------------------------------------------------------------------
  // The whole construction
  // ------------------------------------------------------------------

  /** Putting the template back around a good body gives a good prompt. */
  lemma AroundBody(prefix: Tokens, body: Tokens, suffix: Tokens, one: Tokens, spots: seq<Spot>, target: int)
    requires one != [] && |prefix| + |body| + |suffix| == target
    requires BodyHolds(body, BuildFiller(one, |body|), spots, |prefix|)
    requires Placeable(spots, |prefix|, |body|)
    ensures Built(prefix + body + suffix, prefix, suffix, one, spots, target)
  {
    var (p, n) := (prefix + body + suffix, |prefix|);
    forall k | 0 <= k < |spots| ensures Intact(p, spots[k].at, spots[k].ids) {
      var (o, ids) := (spots[k].at, spots[k].ids);
      assert Inside(spots[k], n, |body|) && Intact(body, o - n, ids);
      assert p[o..o + |ids|] == body[o - n..o - n + |ids|];
    }
    forall i | n <= i < target - |suffix| && !InSpot(spots, i)
      ensures p[i] == one[(i - n) % |one|]
    {
      assert p[i] == body[i - n] && !InSpot(spots, i - n + n);
      FillerAt(one, |body|, i - n);
    }
  }

  /** Outcome of the construction. */
  datatype Prompt = Rejected | Prompt(ids: Tokens, offsets: seq<int>, slotAt: nat)

  /** Accepts exactly the placeable needles, and then builds what was asked for. */
  method EncodeWithPositions(template: Tokens, slot: Tokens, one: Tokens, needles: seq<Needle>, target: int)
    returns (r: Prompt)
    ensures r.Prompt? <==>
              && Splittable(template, slot, one, target)
              && Placeable(Spots(needles, target), SlotIndex(template, slot), target - (|template| - |slot|))
    ensures r.Prompt? ==>
              && SlotAt(template, slot, r.slotAt)
              && Built(r.ids, template[..r.slotAt], template[r.slotAt + |slot|..], one, Spots(needles, target), target)
              && |r.offsets| == |needles|
              && forall k :: 0 <= k < |needles| ==>
                   CutsOff(needles[k].depth * target as real, r.offsets[k])
                   && Intact(r.ids, r.offsets[k], needles[k].ids)
  {
    var spots := Spots(needles, target);
    if slot == [] {
      return Rejected;
    }
    var starts := SlotStarts(template, slot, |template|);
    SlotStartsOnce(template, slot, |template|);
    if |starts| != 1 {
      return Rejected;
    }
    var start := starts[0];
    assert start in starts;
    var prefix, suffix := template[..start], template[start + |slot|..];
    var bodySize := target - |prefix| - |suffix|;
    if bodySize <= 0 {
      return Rejected;
    }
    if one == [] {
      return Rejected;
    }
    var ok, body, offsets := PlaceNeedles(one, spots, |prefix|, bodySize);
    assert SlotIndex(template, slot) == start;
    if !ok {
      return Rejected;
    }
    AroundBody(prefix, body, suffix, one, spots, target);
    OffsetsCutOff(needles, target);
    r := Prompt(prefix + body + suffix, offsets, start);
  }

  lemma OffsetsCutOff(needles: seq<Needle>, target: int)
    ensures forall k :: 0 <= k < |needles| ==>
              CutsOff(needles[k].depth * target as real, Spots(needles, target)[k].at)
  {
  }

  /** Needles overlap exactly when some position belongs to both. */
  lemma OverlapExactly(a: Spot, b: Spot)
    requires a.ids != [] && b.ids != []
    ensures Overlap(a, b) <==> exists i: int :: InSpot([a], i) && InSpot([b], i)
  {
    if Overlap(a, b) {
      var i := if a.at >= b.at then a.at else b.at;
      assert [a][0] == a && [b][0] == b;
      assert InSpot([a], i) && InSpot([b], i);
    }
  }

  /** Where the slot is, when it is there once. */
  ghost function SlotIndex(template: Tokens, slot: Tokens): (i: nat) {
    var s := SlotStarts(template, slot, |template|);
    if s == [] then 0 else s[0]
  }

  /** One entry in the list of starts means one place, and the other way round. */
  lemma {:induction false} SlotStartsOnce(template: Tokens, slot: Tokens, upTo: nat)
    ensures
      var s := SlotStarts(template, slot, upTo);
      && (s == [] <==> forall i :: 0 <= i < upTo ==> !SlotAt(template, slot, i))
      && (|s| <= 1 <==> OneSlotAtMost(template, slot, upTo))
  {
    if upTo > 0 {
      SlotStartsOnce(template, slot, upTo - 1);
      var (s, t) := (SlotStarts(template, slot, upTo - 1), SlotStarts(template, slot, upTo));
      if |s| == 1 {
        assert s[0] in s;
      }
      if SlotAt(template, slot, upTo - 1) && |s| > 0 {
        assert s[0] in s;
        assert s[0] != upTo - 1;
      }
    }
  }
}

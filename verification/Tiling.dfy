/** The tiling check on the data region of one shard (scripts/audit_checkpoint.py). */
module Tiling {
  import opened Sorting

  /** Start and end offsets of a tensor's payload. */
  datatype Offsets = Offsets(start: nat, end: nat)

  type Span = s: Offsets | s.start <= s.end witness Offsets(0, 0)

  // ------------------------------------------------------------------
  // The order of `sorted` on pairs
  // ------------------------------------------------------------------

  predicate Leq(a: Span, b: Span) {
    a.start < b.start || (a.start == b.start && a.end <= b.end)
  }

  lemma SpanOrder()
    ensures IsTotalOrder(Leq)
  {
  }

  // ------------------------------------------------------------------
  // The simple meaning: every byte in exactly one span
  // ------------------------------------------------------------------

  predicate Holds(x: Span, b: nat) { x.start <= b < x.end }

  predicate Empty(x: Span) { x.start == x.end }

  /** How many of the spans hold byte `b`. */
  function Cover(s: seq<Span>, b: nat): (n: nat) {
    if s == [] then 0 else (if Holds(s[0], b) then 1 else 0) + Cover(s[1..], b)
  }

  predicate Within(s: seq<Span>, size: nat) { forall x <- s :: x.end <= size }

  /** No empty span lies strictly inside another span. */
  predicate NoneInside(s: seq<Span>) {
    forall x, y :: x in s && y in s && Empty(x) ==> !(y.start < x.start < y.end)
  }

  ghost predicate Tiles(s: seq<Span>, size: nat) {
    && Within(s, size)
    && (forall b: nat :: b < size ==> Cover(s, b) == 1)
    && NoneInside(s)
  }

  // ------------------------------------------------------------------
  // The check as it is computed
  // ------------------------------------------------------------------

  function Sum(s: seq<Span>): (n: nat) {
    if s == [] then 0 else s[0].end - s[0].start + Sum(s[1..])
  }

  function MaxEnd(s: seq<Span>): (n: nat) {
    if s == [] then 0 else var m := MaxEnd(s[1..]); if s[0].end > m then s[0].end else m
  }

  /** The cursor loop passes: each span starts where the one before it ends. */
  predicate Chain(cursor: nat, s: seq<Span>)
    decreases |s|
  {
    s == [] || (s[0].start == cursor && Chain(s[0].end, s[1..]))
  }

  /** Where the cursor ends. */
  function Cursor(cursor: nat, s: seq<Span>): (n: nat)
    decreases |s|
  {
    if s == [] then cursor else Cursor(s[0].end, s[1..])
  }

  predicate Accepts(s: seq<Span>, size: nat) {
    Within(s, size) && Chain(0, Sort(s, Leq)) && Sum(s) == size && MaxEnd(s) == size
  }

  lemma SumSplit(a: seq<Span>, x: Span)
    ensures Sum(a + [x]) == Sum(a) + x.end - x.start
    ensures MaxEnd(a + [x]) == if x.end > MaxEnd(a) then x.end else MaxEnd(a)
  {
    if a == [] {
      assert a + [x] == [x] && [x][1..] == [];
    } else {
      assert (a + [x])[1..] == a[1..] + [x];
      SumSplit(a[1..], x);
    }
  }

  /** The two loops of the source with their running variables. */
  method CheckTiling(spans: seq<Span>, size: nat) returns (ok: bool)
    ensures ok == Accepts(spans, size)
  {
    var total, maxEnd := 0, 0;
    var intervals: seq<Span> := [];
    for i := 0 to |spans|
      invariant intervals == spans[..i]
      invariant total == Sum(intervals) && maxEnd == MaxEnd(intervals)
      invariant Within(intervals, size)
    {
      var span := spans[i];
      if span.end > size {
        return false;
      }
      SumSplit(intervals, span);
      assert spans[..i + 1] == intervals + [span];
      total := total + (span.end - span.start);
      maxEnd := if span.end > maxEnd then span.end else maxEnd;
      intervals := intervals + [span];
    }
    assert intervals == spans;
    var sorted := Sort(intervals, Leq);
    var cursor := 0;
    assert sorted[0..] == sorted;
    for i := 0 to |sorted|
      invariant Chain(0, sorted) == Chain(cursor, sorted[i..])
    {
      assert sorted[i..][1..] == sorted[i + 1..];
      if sorted[i].start != cursor {
        return false;
      }
      cursor := sorted[i].end;
    }
    ok := total == size && maxEnd == size;
  }

  // ------------------------------------------------------------------
  // Order does not matter to the folds
  // ------------------------------------------------------------------

  lemma {:induction false} InsertFolds(x: Span, s: seq<Span>, b: nat)
    ensures Sum(Insert(x, s, Leq)) == Sum(s) + x.end - x.start
    ensures MaxEnd(Insert(x, s, Leq)) == if x.end > MaxEnd(s) then x.end else MaxEnd(s)
    ensures Cover(Insert(x, s, Leq), b) == Cover(s, b) + if Holds(x, b) then 1 else 0
  {
    if s == [] || Leq(x, s[0]) {
      assert ([x] + s)[1..] == s;
    } else {
      InsertFolds(x, s[1..], b);
      assert Insert(x, s, Leq)[1..] == Insert(x, s[1..], Leq);
    }
  }

  lemma {:induction false} SortFolds(s: seq<Span>, b: nat)
    ensures Sum(Sort(s, Leq)) == Sum(s) && MaxEnd(Sort(s, Leq)) == MaxEnd(s) && Cover(Sort(s, Leq), b) == Cover(s, b)
  {
    if s != [] {
      SortFolds(s[1..], b);
      InsertFolds(s[0], Sort(s[1..], Leq), b);
    }
  }

  // ------------------------------------------------------------------
  // Accepted means tiled
  // ------------------------------------------------------------------

  lemma {:induction false} ChainFacts(c: nat, s: seq<Span>)
    requires Chain(c, s)
    ensures Cursor(c, s) >= c && Sum(s) == Cursor(c, s) - c
    ensures s != [] ==> MaxEnd(s) == Cursor(c, s)
    ensures forall x <- s :: c <= x.start && x.end <= Cursor(c, s)
    decreases |s|
  {
    if s != [] {
      ChainFacts(s[0].end, s[1..]);
      assert forall x :: x in s ==> x == s[0] || x in s[1..];
    }
  }

  lemma {:induction false} ChainCovers(c: nat, s: seq<Span>, b: nat)
    requires Chain(c, s)
    ensures Cover(s, b) == if c <= b < Cursor(c, s) then 1 else 0
    decreases |s|
  {
    if s != [] {
      ChainCovers(s[0].end, s[1..], b);
      ChainFacts(s[0].end, s[1..]);
    }
  }

  lemma {:induction false} ChainNoneInside(c: nat, s: seq<Span>)
    requires Chain(c, s)
    ensures NoneInside(s)
    decreases |s|
  {
    if s != [] {
      ChainNoneInside(s[0].end, s[1..]);
      ChainFacts(s[0].end, s[1..]);
      assert forall x :: x in s ==> x == s[0] || x in s[1..];
    }
  }

  /** Once the cursor loop passes, the sum and maximum tests say that the cursor reached the end. */
  lemma TestsReduceToCursor(s: seq<Span>, size: nat)
    requires Chain(0, Sort(s, Leq))
    ensures Sum(s) == size && MaxEnd(s) == size <==> Cursor(0, Sort(s, Leq)) == size
  {
    SortFolds(s, 0);
    ChainFacts(0, Sort(s, Leq));
  }

  lemma AcceptedTiles(s: seq<Span>, size: nat)
    requires Accepts(s, size)
    ensures Tiles(s, size)
  {
    var t := Sort(s, Leq);
    TestsReduceToCursor(s, size);
    forall b: nat | b < size ensures Cover(s, b) == 1 {
      SortFolds(s, b);
      ChainCovers(0, t, b);
    }
    ChainNoneInside(0, t);
    SortMembers(s, Leq);
  }

  // ------------------------------------------------------------------
  // Tiled means accepted
  // ------------------------------------------------------------------

  /** The rest of a tiling, from `c` on. */
  ghost predicate TilesFrom(c: nat, s: seq<Span>, size: nat) {
    && c <= size && Within(s, size)
    && (forall x <- s :: c <= x.start)
    && (forall b: nat :: c <= b < size ==> Cover(s, b) == 1)
    && NoneInside(s)
  }

  lemma {:induction false} CoverNone(s: seq<Span>, b: nat)
    requires forall x <- s :: b < x.start
    ensures Cover(s, b) == 0
  {
    if s != [] {
      CoverNone(s[1..], b);
    }
  }

  lemma {:induction false} CoverSome(s: seq<Span>, x: Span, b: nat)
    requires x in s && Holds(x, b)
    ensures Cover(s, b) >= 1
  {
    if x != s[0] {
      CoverSome(s[1..], x, b);
    }
  }

  lemma FirstStartsAtCursor(c: nat, s: seq<Span>, size: nat)
    requires Ordered(s, Leq) && TilesFrom(c, s, size) && s != []
    ensures s[0].start == c
  {
    assert s[0].end <= size;
    if s[0].start > c {
      forall x <- s ensures c < x.start {
        var i :| 0 <= i < |s| && s[i] == x;
        assert i > 0 ==> Leq(s[0], s[i]);
      }
      CoverNone(s, c);
    }
  }

  lemma RestStartsAfter(c: nat, s: seq<Span>, size: nat, x: Span)
    requires Ordered(s, Leq) && TilesFrom(c, s, size) && s != []
    requires x in s[1..]
    ensures s[0].end <= x.start
  {
    FirstStartsAtCursor(c, s, size);
    var i :| 0 <= i < |s[1..]| && s[1..][i] == x;
    assert Leq(s[0], s[i + 1]);
    assert x in s && s[0] in s;
    assert x.start < size ==> Cover(s, x.start) == 1;
    if x.start < s[0].end && !Empty(x) {
      CoverSome(s[1..], x, x.start);
    }
  }

  lemma {:induction false} TiledChains(c: nat, s: seq<Span>, size: nat)
    requires Ordered(s, Leq) && TilesFrom(c, s, size)
    ensures Chain(c, s) && Cursor(c, s) == size
    decreases |s|
  {
    if s == [] {
      assert Cover(s, c) == 0;
    } else {
      var rest := s[1..];
      FirstStartsAtCursor(c, s, size);
      forall x <- rest ensures s[0].end <= x.start {
        RestStartsAfter(c, s, size, x);
      }
      forall b: nat | s[0].end <= b < size ensures Cover(rest, b) == 1 {
        assert Cover(s, b) == 1;
      }
      assert forall x :: x in rest ==> x in s;
      assert Ordered(rest, Leq);
      TiledChains(s[0].end, rest, size);
    }
  }

  /**
   The check is exact: it accepts a list of spans if and only if every byte of the data region
   lies in exactly one span, no span leaves the region and no empty span is inside another.
   */
  lemma TilingExact(s: seq<Span>, size: nat)
    ensures Accepts(s, size) <==> Tiles(s, size)
  {
    if Tiles(s, size) {
      var t := Sort(s, Leq);
      SpanOrder();
      SortOrdered(s, Leq);
      SortMembers(s, Leq);
      forall b: nat | b < size ensures Cover(t, b) == 1 {
        SortFolds(s, b);
      }
      TiledChains(0, t, size);
      TestsReduceToCursor(s, size);
    } else if Accepts(s, size) {
      AcceptedTiles(s, size);
    }
  }
}

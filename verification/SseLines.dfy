/** Which lines of a stream matter: inserted lines, spaces after the colon, and the end of input. */
module SseLines {
  import opened Common
  import opened SseDecoder
  import opened SseRoundTrip

  /** The bytes of a text in ASCII. */
  function Ascii(s: string): (r: seq<Byte>)
    requires forall i :: 0 <= i < |s| ==> s[i] as int < 128
    ensures |r| == |s|
  {
    seq(|s|, i requires 0 <= i < |s| => s[i] as int)
  }

  lemma DataSpelled()
    ensures DATA == Ascii("data:") && [LF] == Ascii("\n") && [CR] == Ascii("\r") && [SPACE] == Ascii(" ")
  {
  }

  /** A line that is not a `data:` line: a comment, another field, or anything else but a blank line. */
  predicate Ignored(l: Line) { l != [] && NoEol(l) && !(Ascii("data:") <= l) }

  // ------------------------------------------------------------------
  // Cutting a stream between two lines
  // ------------------------------------------------------------------

  /** A line ends at the end of `a`, and what follows begins a new one. */
  predicate Boundary(a: seq<Byte>, b: seq<Byte>) {
    || a == []
    || a[|a| - 1] == LF
    || (a[|a| - 1] == CR && (b == [] || b[0] != LF))
  }

  lemma {:induction false} FirstLinePrefix(a: seq<Byte>, b: seq<Byte>)
    requires FirstLine(a) < |a|
    ensures FirstLine(a + b) == FirstLine(a)
  {
    if !IsEol(a[0]) {
      assert (a + b)[1..] == a[1..] + b;
      FirstLinePrefix(a[1..], b);
    }
  }

  lemma FirstLineEnds(a: seq<Byte>, b: seq<Byte>)
    requires a != [] && Boundary(a, b)
    ensures FirstLine(a) < |a| && FirstLine(a + b) == FirstLine(a)
    ensures AfterFirstLine(a + b) == AfterFirstLine(a)
    ensures Boundary(a[AfterFirstLine(a)..], b)
  {
    assert IsEol(a[|a| - 1]);
    FirstLinePrefix(a, b);
    assert forall i :: 0 <= i < |a| ==> (a + b)[i] == a[i];
  }

  lemma {:induction false} LinesAppend(a: seq<Byte>, b: seq<Byte>)
    requires Boundary(a, b)
    ensures Lines(a + b) == Lines(a) + Lines(b)
    decreases |a|
  {
    if a == [] {
      assert a + b == b;
    } else {
      var (n, m) := (FirstLine(a), AfterFirstLine(a));
      FirstLineEnds(a, b);
      LinesAppend(a[m..], b);
      CutAppend(a, b, n);
      CutAppend(a, b, m);
      calc {
        Lines(a + b);
        [a[..n]] + Lines(a[m..] + b);
        [a[..n]] + (Lines(a[m..]) + Lines(b));
        { Assoc([a[..n]], Lines(a[m..]), Lines(b)); }
        Lines(a) + Lines(b);
      }
    }
  }

  lemma CutAppend(a: seq<Byte>, b: seq<Byte>, n: nat)
    requires n <= |a|
    ensures (a + b)[..n] == a[..n] && (a + b)[n..] == a[n..] + b
  {
  }

  // ------------------------------------------------------------------
  // Only values matter to a group
  // ------------------------------------------------------------------

  lemma {:induction false} PayloadsByValues(g: seq<Line>, g': seq<Line>, ls: seq<Line>)
    requires DataValues(g) == DataValues(g')
    ensures PayloadsFrom(g, ls) == PayloadsFrom(g', ls)
    decreases |ls|
  {
    if ls != [] && ls[0] != [] {
      DataValuesAppend(g, [ls[0]]);
      DataValuesAppend(g', [ls[0]]);
      PayloadsByValues(g + [ls[0]], g' + [ls[0]], ls[1..]);
    }
  }

  lemma IgnoredHasNoValue(l: Line)
    requires Ignored(l)
    ensures DataValues([l]) == []
  {
    DataSpelled();
  }

  lemma {:induction false} IgnoredLine(group: seq<Line>, before: seq<Line>, l: Line, after: seq<Line>)
    requires Ignored(l)
    ensures PayloadsFrom(group, before + ([l] + after)) == PayloadsFrom(group, before + after)
    decreases |before|
  {
    if before == [] {
      assert before + ([l] + after) == [l] + after && before + after == after;
      assert ([l] + after)[1..] == after;
      IgnoredHasNoValue(l);
      DataValuesAppend(group, [l]);
      assert DataValues(group) + [] == DataValues(group);
      PayloadsByValues(group + [l], group, after);
    } else {
      assert (before + ([l] + after))[1..] == before[1..] + ([l] + after);
      assert (before + after)[1..] == before[1..] + after;
      IgnoredLine(if before[0] == [] then [] else group + [before[0]], before[1..], l, after);
    }
  }

  lemma OneLine(l: Line, e: Eol, b: seq<Byte>)
    requires NoEol(l) && Boundary(l + Terminator(e), b)
    ensures Lines(l + Terminator(e) + b) == [l] + Lines(b)
  {
    var t := l + Terminator(e);
    assert t[|t| - 1] == Terminator(e)[|Terminator(e)| - 1];
    LinesCons(l, e, b);
  }

  /**
   A non-empty line that does not begin with `data:`, inserted between any two lines of any stream,
   with any terminator, changes nothing.
   */
  lemma InsertedLineIgnored(a: seq<Byte>, l: Line, e: Eol, b: seq<Byte>)
    requires Ignored(l) && Boundary(a, b) && Boundary(l + Terminator(e), b)
    ensures Parse(a + (l + Terminator(e) + b)) == Parse(a + b)
  {
    var more := l + Terminator(e) + b;
    assert more[0] == l[0];
    LinesAppend(a, more);
    LinesAppend(a, b);
    OneLine(l, e, b);
    IgnoredLine([], Lines(a), l, Lines(b));
  }

  // ------------------------------------------------------------------
  // Streams that decode to nothing, or to one payload
  // ------------------------------------------------------------------

  lemma {:induction false} IgnoredGroup(group: seq<Line>, ls: seq<Line>)
    requires DataValues(group) == []
    requires forall i :: 0 <= i < |ls| ==> ls[i] == [] || Ignored(ls[i])
    ensures PayloadsFrom(group, ls) == []
    decreases |ls|
  {
    if ls != [] {
      if ls[0] != [] {
        IgnoredHasNoValue(ls[0]);
        DataValuesAppend(group, [ls[0]]);
      }
      IgnoredGroup(if ls[0] == [] then [] else group + [ls[0]], ls[1..]);
    }
  }

  /** A stream none of whose lines begins with `data:` has no event at all. */
  lemma NothingButIgnored(s: seq<Byte>)
    requires forall i :: 0 <= i < |Lines(s)| ==> !(Ascii("data:") <= Lines(s)[i])
    ensures Parse(s) == []
  {
    LinesHaveNoEol(s);
    IgnoredGroup([], Lines(s));
  }

  function Spaces(n: nat): (r: seq<Byte>)
    ensures |r| == n
  {
    seq(n, i => SPACE)
  }

  lemma {:induction false} StripsAll(n: nat, v: Line)
    requires v == [] || v[0] != SPACE
    ensures StripSpaces(Spaces(n) + v) == v
  {
    if n == 0 {
      assert Spaces(n) + v == v;
    } else {
      assert (Spaces(n) + v)[1..] == Spaces(n - 1) + v;
      StripsAll(n - 1, v);
    }
  }

  /** `data:`, any number of spaces, and a value. */
  function DataLine(n: nat, v: Line): (l: Line) { Ascii("data:") + (Spaces(n) + v) }

  lemma DataLineValue(n: nat, v: Line)
    requires v == [] || v[0] != SPACE
    ensures DataValues([DataLine(n, v)]) == [v]
  {
    var l := DataLine(n, v);
    DataSpelled();
    assert l[..5] == DATA && l[5..] == Spaces(n) + v;
    StripsAll(n, v);
    assert [l][1..] == [];
  }

  lemma EmitOne(n: nat, v: Line)
    requires v == [] || v[0] != SPACE
    ensures Emit([] + [DataLine(n, v)]) == [v]
  {
    assert [] + [DataLine(n, v)] == [DataLine(n, v)];
    DataLineValue(n, v);
  }

  lemma DataLineHasNoEol(n: nat, v: Line)
    requires NoEol(v)
    ensures NoEol(DataLine(n, v))
  {
    DataSpelled();
  }

  /** A `data:` line and a blank line give the value, whatever the spaces before it. */
  lemma OneDataLine(n: nat, v: Line, e: Eol)
    requires NoEol(v) && (v == [] || v[0] != SPACE)
    ensures Parse(DataLine(n, v) + Terminator(e) + Terminator(e)) == [v]
  {
    var (l, t) := (DataLine(n, v), Terminator(e));
    DataLineHasNoEol(n, v);
    assert t[0] != LF || e.Lf?;
    LinesCons(l, e, t);
    assert t == [] + t + [];
    LinesCons([], e, []);
    var ls: seq<Line> := [l];
    var none: seq<Line> := [];
    assert Lines(l + t + t) == ls + [[]] + none;
    GroupEnds([], ls, none);
    EmitOne(n, v);
    assert PayloadsFrom([], none) == [];
  }

  /** A `data:` line that ends the input without any terminator is delivered all the same. */
  lemma UnterminatedDataLine(n: nat, v: Line)
    requires NoEol(v) && (v == [] || v[0] != SPACE)
    ensures Parse(DataLine(n, v)) == [v]
  {
    var l := DataLine(n, v);
    DataLineHasNoEol(n, v);
    assert FirstLine(l) == |l| && l[..|l|] == l && l[|l|..] == [];
    assert Lines(l) == [l];
    PayloadsOfOne([], l);
    EmitOne(n, v);
  }

  /** And so it is on the decoder, however the input is cut. */
  lemma UnterminatedIsFlushed(n: nat, v: Line, chunks: seq<seq<Byte>>)
    requires NoEol(v) && (v == [] || v[0] != SPACE) && Flatten(chunks) == DataLine(n, v)
    ensures
      var (es, t) := FeedAll(Start, chunks);
      es + CloseStep(t) == [v]
  {
    ChunkedDecodeIsParse(chunks);
    UnterminatedDataLine(n, v);
  }
}

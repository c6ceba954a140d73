/** The incremental server-sent-events decoder of scripts/http_client.py. */
module SseDecoder {
  import opened Common

  type Line = seq<Byte>

  const LF: Byte := 10
  const CR: Byte := 13
  const SPACE: Byte := 32
  /** The bytes of `data:`. */
  const DATA: Line := [100, 97, 116, 97, 58]

  // ------------------------------------------------------------------
  // The simple form: parse a whole stream at once
  // ------------------------------------------------------------------

  predicate IsEol(b: Byte) { b == LF || b == CR }

  /** Length of the first line of `s`, its terminator not included. */
  function FirstLine(s: seq<Byte>): (n: nat)
    ensures n <= |s|
    ensures forall i :: 0 <= i < n ==> !IsEol(s[i])
    ensures n < |s| ==> IsEol(s[n])
  {
    if s == [] || IsEol(s[0]) then 0 else 1 + FirstLine(s[1..])
  }

  /** Where the line after the first one begins: LF, CRLF and bare CR all end a line. */
  function AfterFirstLine(s: seq<Byte>): (n: nat)
    ensures n <= |s|
    ensures s != [] ==> n > 0
  {
    var n := FirstLine(s);
    if n == |s| then n
    else if s[n] == CR && n + 1 < |s| && s[n + 1] == LF then n + 2
    else n + 1
  }

  /** All lines of a complete stream; a last line without terminator counts when non-empty. */
  function Lines(s: seq<Byte>): (ls: seq<Line>)
    ensures s == [] ==> ls == []
    decreases |s|
  {
    if s == [] then [] else [s[..FirstLine(s)]] + Lines(s[AfterFirstLine(s)..])
  }

  predicate IsData(l: Line) { DATA <= l }

  function StripSpaces(l: Line): (r: Line)
    ensures r == [] || r[0] != SPACE
  {
    if l != [] && l[0] == SPACE then StripSpaces(l[1..]) else l
  }

  /** Values of the `data:` lines of a group, in order. */
  function DataValues(group: seq<Line>): (r: seq<Line>) {
    if group == [] then []
    else (if IsData(group[0]) then [StripSpaces(group[0][5..])] else []) + DataValues(group[1..])
  }

  /** Joins with LF. */
  function Join(ls: seq<Line>): (r: seq<Byte>)
    requires ls != []
  {
    if |ls| == 1 then ls[0] else ls[0] + [LF] + Join(ls[1..])
  }

  predicate Lacks(l: seq<Byte>, b: Byte) { forall i :: 0 <= i < |l| ==> l[i] != b }

  /** The lines of a payload, cut at LF; never empty. */
  function Split(p: seq<Byte>): (ls: seq<Line>)
    ensures ls != []
  {
    if p == [] then [[]]
    else
      var rest := Split(p[1..]);
      if p[0] == LF then [[]] + rest else [[p[0]] + rest[0]] + rest[1..]
  }

  lemma {:induction false} JoinSplit(p: seq<Byte>)
    ensures Join(Split(p)) == p
    ensures forall i :: 0 <= i < |Split(p)| ==> Lacks(Split(p)[i], LF)
  {
    if p != [] {
      JoinSplit(p[1..]);
      var rest := Split(p[1..]);
      if p[0] == LF {
        assert ([[]] + rest)[1..] == rest;
        assert Join([[]] + rest) == [] + [LF] + Join(rest);
      } else {
        var ls := [[p[0]] + rest[0]] + rest[1..];
        assert ls[1..] == rest[1..];
        assert Join(ls) == [p[0]] + Join(rest);
      }
    }
  }

  /** The payload of a group, if it holds any `data:` line. */
  function Emit(group: seq<Line>): (r: seq<seq<Byte>>)
    ensures |r| <= 1
  {
    var d := DataValues(group);
    if d == [] then [] else [Join(d)]
  }

  /** Groups end at blank lines and at the end of the input. */
  function Payloads(ls: seq<Line>): (r: seq<seq<Byte>>) {
    PayloadsFrom([], ls)
  }

  function PayloadsFrom(group: seq<Line>, ls: seq<Line>): (r: seq<seq<Byte>>)
    decreases |ls|
  {
    if ls == [] then Emit(group)
    else if ls[0] == [] then Emit(group) + PayloadsFrom([], ls[1..])
    else PayloadsFrom(group + [ls[0]], ls[1..])
  }

  /** The one-shot parser the incremental decoder is compared with. */
  function Parse(s: seq<Byte>): (r: seq<seq<Byte>>) {
    Payloads(Lines(s))
  }

  // ------------------------------------------------------------------
  // The fast form: decode what the buffer already determines
  // ------------------------------------------------------------------

  /** Index of the first `b`, or -1. */
  function Find(s: seq<Byte>, b: Byte): (i: int)
    ensures -1 <= i < |s|
    ensures i >= 0 ==> s[i] == b
    ensures forall k :: 0 <= k < (if i < 0 then |s| else i) ==> s[k] != b
  {
    if s == [] then -1
    else if s[0] == b then 0
    else var r := Find(s[1..], b); if r < 0 then -1 else r + 1
  }

  /** Line end and start of the rest; a CR in last position is held back. */
  function FindNewline(buf: seq<Byte>): (r: Option<(nat, nat)>)
    ensures r.Some? ==> r.value.0 < r.value.1 <= |buf|
  {
    var lf := Find(buf, LF);
    var cr := Find(buf, CR);
    var fromLf := if lf >= 0 then Some((lf, lf + 1)) else None;
    var fromCr :=
      if cr >= 0 && cr + 1 < |buf|
      then Some((cr, if buf[cr + 1] == LF then cr + 2 else cr + 1))
      else None;
    if fromLf.None? then fromCr
    else if fromCr.None? then fromLf
    else if fromCr.value.0 < fromLf.value.0 then fromCr else fromLf
  }

  /** Decoder state between calls. */
  datatype State = State(buf: seq<Byte>, lines: seq<Line>)

  const Start: State := State([], [])

  predicate Ready(s: State) { FindNewline(s.buf).Some? }

  /** Takes one determined line: what it emits ... */
  function TakeOut(s: State): (es: seq<seq<Byte>>)
    requires Ready(s)
  {
    if FindNewline(s.buf).value.0 == 0 then Emit(s.lines + [[]]) else []
  }

  /** ... and the state it leaves. */
  function Take(s: State): (t: State)
    requires Ready(s)
    ensures |t.buf| < |s.buf|
  {
    var (a, b) := FindNewline(s.buf).value;
    State(s.buf[b..], if a == 0 then [] else s.lines + [s.buf[..a]])
  }

  /** Events and state once every determined line of the buffer is taken. */
  function Drain(s: State): (r: (seq<seq<Byte>>, State))
    decreases |s.buf|
  {
    if !Ready(s) then ([], s)
    else
      var (es, t) := Drain(Take(s));
      (TakeOut(s) + es, t)
  }

  lemma DrainOnce(s: State, before: seq<seq<Byte>>)
    ensures Ready(s) ==> before + Drain(s).0 == before + TakeOut(s) + Drain(Take(s)).0
    ensures Ready(s) ==> Drain(s).1 == Drain(Take(s)).1
    ensures !Ready(s) ==> before + Drain(s).0 == before && Drain(s).1 == s
  {
    if Ready(s) {
      Assoc(before, TakeOut(s), Drain(Take(s)).0);
    }
  }

  /** What one `feed` of `chunk` returns and leaves behind. */
  function FeedStep(s: State, chunk: seq<Byte>): (r: (seq<seq<Byte>>, State)) {
    Drain(State(s.buf + chunk, s.lines))
  }

  function PendingLine(buf: seq<Byte>): (l: Line)
    requires buf != []
  {
    if buf[|buf| - 1] == CR then buf[..|buf| - 1] else buf
  }

  /** What `close` returns: a trailing CR ends the pending line, then the group is flushed. */
  function CloseStep(s: State): (r: seq<seq<Byte>>) {
    Emit(if s.buf == [] then s.lines else s.lines + [PendingLine(s.buf)])
  }

  /** A whole session of feeds. */
  function FeedAll(s: State, chunks: seq<seq<Byte>>): (r: (seq<seq<Byte>>, State))
    decreases |chunks|
  {
    if chunks == [] then ([], s)
    else
      var (e0, s1) := FeedStep(s, chunks[0]);
      var (e1, s2) := FeedAll(s1, chunks[1..]);
      (e0 + e1, s2)
  }

  /** Nothing determined is left in the buffer, and no blank line is waiting. */
  predicate Settled(s: State) {
    && !Ready(s)
    && (forall i :: 0 <= i < |s.lines| ==> s.lines[i] != [])
  }

  /** The decoder object; its methods work in place as the source does. */
  class Decoder {
    var buf: seq<Byte>
    var lines: seq<Line>

    function View(): (s: State)
      reads this
    {
      State(buf, lines)
    }

    constructor ()
      ensures View() == Start
    {
      buf, lines := [], [];
    }

    method Feed(chunk: seq<Byte>) returns (events: seq<seq<Byte>>)
      modifies this
      ensures events == FeedStep(old(View()), chunk).0
      ensures View() == FeedStep(old(View()), chunk).1
    {
      buf := buf + chunk;
      ghost var all := Drain(View());
      events := [];
      while true
        invariant events + Drain(View()).0 == all.0 && Drain(View()).1 == all.1
        decreases |buf|
      {
        ghost var (s, es) := (View(), events);
        DrainOnce(s, es);
        var nl := FindNewline(buf);
        if nl.None? {
          break;
        }
        var rawLine := buf[..nl.value.0];
        buf := buf[nl.value.1..];
        lines := lines + [rawLine];
        if rawLine == [] {
          var dataLines := DataValues(lines);
          if dataLines != [] {
            events := events + [Join(dataLines)];
          }
          lines := [];
        }
        assert View() == Take(s);
        assert events == es + TakeOut(s);
      }
    }

    method Close() returns (events: seq<seq<Byte>>)
      modifies this
      ensures events == CloseStep(old(View()))
      ensures View() == Start
    {
      events := [];
      var line := buf;
      buf := [];
      if line != [] {
        lines := lines + [PendingLine(line)];
      }
      if lines != [] {
        var dataLines := DataValues(lines);
        lines := [];
        if dataLines != [] {
          events := [Join(dataLines)];
        }
      }
    }
  }

  // ------------------------------------------------------------------
  // Chunking never matters
  // ------------------------------------------------------------------

  /** A determined line end stays where it is whatever arrives later. */
  lemma NewlineStable(buf: seq<Byte>, more: seq<Byte>)
    requires FindNewline(buf).Some?
    ensures FindNewline(buf + more) == FindNewline(buf)
  {
    var b := buf + more;
    forall i | 0 <= i < |buf| ensures b[i] == buf[i] {}
    var (lf, cr) := (Find(buf, LF), Find(buf, CR));
    var (lf', cr') := (Find(b, LF), Find(b, CR));
    assert lf >= 0 ==> lf' == lf;
    assert cr >= 0 ==> cr' == cr;
  }

  lemma TakeStable(s: State, more: seq<Byte>)
    requires Ready(s)
    ensures
      var longer := State(s.buf + more, s.lines);
      && Ready(longer)
      && TakeOut(longer) == TakeOut(s)
      && Take(longer) == State(Take(s).buf + more, Take(s).lines)
  {
    NewlineStable(s.buf, more);
    var (a, b) := FindNewline(s.buf).value;
    assert (s.buf + more)[b..] == s.buf[b..] + more;
    assert (s.buf + more)[..a] == s.buf[..a];
  }

  /** Draining early loses nothing: feeding `a` then `b` is feeding `a + b`. */
  lemma {:induction false} DrainSplit(s: State, more: seq<Byte>)
    ensures
      var (e0, s1) := Drain(s);
      var (e1, s2) := FeedStep(s1, more);
      && Drain(State(s.buf + more, s.lines)).0 == e0 + e1
      && Drain(State(s.buf + more, s.lines)).1 == s2
    decreases |s.buf|
  {
    if Ready(s) {
      TakeStable(s, more);
      DrainSplit(Take(s), more);
    }
  }

  lemma {:induction false} DrainSettles(s: State)
    requires forall i :: 0 <= i < |s.lines| ==> s.lines[i] != []
    ensures Settled(Drain(s).1)
    decreases |s.buf|
  {
    if Ready(s) {
      DrainSettles(Take(s));
    }
  }

  /** The state and the events after any chunks depend on the bytes alone. */
  lemma {:induction false} FeedAllIsOneFeed(s: State, chunks: seq<seq<Byte>>)
    requires Settled(s)
    ensures FeedAll(s, chunks).0 == FeedStep(s, Flatten(chunks)).0
    ensures FeedAll(s, chunks).1 == FeedStep(s, Flatten(chunks)).1
    ensures Settled(FeedAll(s, chunks).1)
    decreases |chunks|
  {
    if chunks == [] {
      assert s.buf + [] == s.buf;
    } else {
      var (e0, s1) := FeedStep(s, chunks[0]);
      DrainSettles(State(s.buf + chunks[0], s.lines));
      FeedAllIsOneFeed(s1, chunks[1..]);
      DrainSplit(State(s.buf + chunks[0], s.lines), Flatten(chunks[1..]));
      assert s.buf + chunks[0] + Flatten(chunks[1..]) == s.buf + Flatten(chunks);
    }
  }

  // ------------------------------------------------------------------
  // The fast form computes the simple form
  // ------------------------------------------------------------------

  /** A determined line end is the end of the first line of the whole stream. */
  lemma NewlineIsFirstLine(buf: seq<Byte>)
    requires FindNewline(buf).Some?
    ensures FindNewline(buf).value == (FirstLine(buf), AfterFirstLine(buf))
  {
    var n := FirstLine(buf);
    var (a, b) := FindNewline(buf).value;
    assert IsEol(buf[a]);
    assert a <= n;
    assert n <= a;
  }

  /** What `Find` leaves undetermined: no line end, except perhaps a CR in last position. */
  lemma NoNewline(buf: seq<Byte>)
    requires FindNewline(buf).None? && buf != []
    ensures FirstLine(buf) == if buf[|buf| - 1] == CR then |buf| - 1 else |buf|
    ensures AfterFirstLine(buf) == |buf|
  {
    var n := FirstLine(buf);
    var cr := Find(buf, CR);
    assert Find(buf, LF) < 0;
    if n < |buf| {
      assert buf[n] == CR;
      assert cr >= 0 && cr + 1 >= |buf|;
    }
  }

  lemma {:induction false} DataValuesAppend(a: seq<Line>, b: seq<Line>)
    ensures DataValues(a + b) == DataValues(a) + DataValues(b)
  {
    if a == [] {
      assert a + b == b;
    } else {
      assert (a + b)[1..] == a[1..] + b && (a + b)[0] == a[0];
      DataValuesAppend(a[1..], b);
      var head := if IsData(a[0]) then [StripSpaces(a[0][5..])] else [];
      Assoc(head, DataValues(a[1..]), DataValues(b));
    }
  }

  lemma EmitBlank(group: seq<Line>)
    ensures Emit(group + [[]]) == Emit(group)
  {
    DataValuesAppend(group, [[]]);
    assert DataValues([[]]) == [];
    assert DataValues(group) + [] == DataValues(group);
  }

  lemma TakeIsPayloads(s: State)
    requires Ready(s)
    ensures PayloadsFrom(s.lines, Lines(s.buf)) == TakeOut(s) + PayloadsFrom(Take(s).lines, Lines(Take(s).buf))
  {
    NewlineIsFirstLine(s.buf);
    var (a, b) := FindNewline(s.buf).value;
    var rest := Lines(s.buf[b..]);
    assert Lines(s.buf) == [s.buf[..a]] + rest;
    assert Lines(s.buf)[1..] == rest;
    EmitBlank(s.lines);
  }

  lemma {:induction false} DrainIsPayloads(s: State)
    ensures
      var (es, t) := Drain(s);
      es + PayloadsFrom(t.lines, Lines(t.buf)) == PayloadsFrom(s.lines, Lines(s.buf))
    decreases |s.buf|
  {
    if Ready(s) {
      TakeIsPayloads(s);
      DrainIsPayloads(Take(s));
    }
  }

  lemma PendingIsLines(buf: seq<Byte>)
    requires FindNewline(buf).None? && buf != []
    ensures Lines(buf) == [PendingLine(buf)]
  {
    NoNewline(buf);
    assert buf[AfterFirstLine(buf)..] == [];
    assert buf[..FirstLine(buf)] == PendingLine(buf);
    assert Lines(buf) == [buf[..FirstLine(buf)]] + Lines(buf[AfterFirstLine(buf)..]);
  }

  lemma PayloadsOfOne(group: seq<Line>, l: Line)
    ensures PayloadsFrom(group, [l]) == Emit(group + [l])
  {
    assert [l][1..] == [];
    if l == [] {
      EmitBlank(group);
      assert Emit([]) == [];
    } else {
      assert PayloadsFrom(group + [l], []) == Emit(group + [l]);
    }
  }

  lemma CloseIsPayloads(s: State)
    requires Settled(s)
    ensures CloseStep(s) == PayloadsFrom(s.lines, Lines(s.buf))
  {
    if s.buf == [] {
      assert s.lines + [] == s.lines;
    } else {
      var l := PendingLine(s.buf);
      PendingIsLines(s.buf);
      PayloadsOfOne(s.lines, l);
    }
  }

  /** For every byte stream and every way of cutting it, decoding is parsing the whole stream. */
  lemma ChunkedDecodeIsParse(chunks: seq<seq<Byte>>)
    ensures
      var (es, t) := FeedAll(Start, chunks);
      es + CloseStep(t) == Parse(Flatten(chunks))
  {
    var bytes := Flatten(chunks);
    FeedAllIsOneFeed(Start, chunks);
    assert Start.buf + bytes == bytes;
    DrainIsPayloads(State(bytes, []));
    CloseIsPayloads(FeedAll(Start, chunks).1);
  }

  /** A session on the real object returns what the one-shot parser returns. */
  method DecodeStream(chunks: seq<seq<Byte>>) returns (events: seq<seq<Byte>>)
    ensures events == Parse(Flatten(chunks))
  {
    var d := new Decoder();
    events := [];
    ghost var all := FeedAll(Start, chunks);
    for i := 0 to |chunks|
      invariant events + FeedAll(d.View(), chunks[i..]).0 == all.0
      invariant FeedAll(d.View(), chunks[i..]).1 == all.1
    {
      assert chunks[i..][1..] == chunks[i + 1..];
      var es := d.Feed(chunks[i]);
      events := events + es;
    }
    var last := d.Close();
    events := events + last;
    ChunkedDecodeIsParse(chunks);
  }
}

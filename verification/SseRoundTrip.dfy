/** Printing payloads as `data: ` lines and decoding them again. */
module SseRoundTrip {
  import opened Common
  import opened SseDecoder

  datatype Eol = Lf | CrLf | BareCr

  function Terminator(e: Eol): (t: seq<Byte>)
    ensures t != []
  {
    match e
    case Lf => [LF]
    case CrLf => [CR, LF]
    case BareCr => [CR]
  }

  function Field(l: Line): (f: Line)
    ensures |f| == 6 + |l| && f[..5] == DATA && f[5] == SPACE && f[6..] == l
  {
    DATA + [SPACE] + l
  }

  function PrintLine(l: Line, e: Eol): (r: seq<Byte>) {
    Field(l) + Terminator(e)
  }

  function PrintLines(ls: seq<Line>, e: Eol): (r: seq<Byte>) {
    if ls == [] then [] else PrintLine(ls[0], e) + PrintLines(ls[1..], e)
  }

  /** One event per payload, one `data: ` line per payload line, one blank line after each event. */
  function Print(ps: seq<seq<Byte>>, e: Eol): (r: seq<Byte>) {
    if ps == [] then [] else PrintLines(Split(ps[0]), e) + Terminator(e) + Print(ps[1..], e)
  }

  predicate LineFits(l: Line) {
    && Lacks(l, CR)
    && (l == [] || l[0] != SPACE)
  }

  /** No CR anywhere, and no payload line begins with a space. */
  predicate Printable(p: seq<Byte>) {
    forall i :: 0 <= i < |Split(p)| ==> LineFits(Split(p)[i])
  }

  predicate NoEol(l: Line) { Lacks(l, LF) && Lacks(l, CR) }

  // ------------------------------------------------------------------
  // Joining and splitting
  // ------------------------------------------------------------------

  lemma {:induction false} SplitPrefix(l: Line, p: seq<Byte>)
    requires Lacks(l, LF)
    ensures Split(l + p) == [l + Split(p)[0]] + Split(p)[1..]
  {
    if l == [] {
      assert l + p == p;
      assert l + Split(p)[0] == Split(p)[0];
    } else {
      var (rest, t) := (l[1..], Split(p));
      assert (l + p)[1..] == rest + p;
      SplitPrefix(rest, p);
      assert Split(l + p) == [[l[0]] + (rest + t[0])] + t[1..];
      assert [l[0]] + (rest + t[0]) == l + t[0];
    }
  }

  lemma {:induction false} SplitJoin(ls: seq<Line>)
    requires ls != []
    requires forall i :: 0 <= i < |ls| ==> Lacks(ls[i], LF)
    ensures Split(Join(ls)) == ls
  {
    if |ls| == 1 {
      assert ls[0] + [] == ls[0];
      SplitPrefix(ls[0], []);
      assert ls == [ls[0]];
    } else {
      var more := Join(ls[1..]);
      SplitJoin(ls[1..]);
      assert ([LF] + more)[1..] == more;
      assert ls[0] + [LF] + more == ls[0] + ([LF] + more);
      SplitPrefix(ls[0], [LF] + more);
      assert Split([LF] + more) == [[]] + ls[1..];
      assert ls[0] + [] == ls[0];
      assert ls == [ls[0]] + ls[1..];
    }
  }

  // ------------------------------------------------------------------
  // Reading back what was printed
  // ------------------------------------------------------------------

  lemma {:induction false} FirstLineOf(l: Line, rest: seq<Byte>)
    requires NoEol(l)
    requires rest != [] && IsEol(rest[0])
    ensures FirstLine(l + rest) == |l|
  {
    if l == [] {
      assert l + rest == rest;
    } else {
      assert (l + rest)[1..] == l[1..] + rest;
      FirstLineOf(l[1..], rest);
    }
  }

  /** A terminated line is the first line, provided a bare CR is not followed by LF. */
  lemma LinesCons(l: Line, e: Eol, rest: seq<Byte>)
    requires NoEol(l)
    requires e.BareCr? ==> rest == [] || rest[0] != LF
    ensures Lines(l + Terminator(e) + rest) == [l] + Lines(rest)
  {
    var t := Terminator(e);
    var s := l + t + rest;
    assert s == l + (t + rest);
    FirstLineOf(l, t + rest);
    assert s[|l|] == t[0];
    assert s[..|l|] == l;
    assert AfterFirstLine(s) == |l| + |t| by {
      assert e.CrLf? ==> s[|l| + 1] == LF;
      assert e.BareCr? && rest != [] ==> s[|l| + 1] == rest[0];
    }
    assert s[|l| + |t|..] == rest;
  }

  lemma {:induction false} GroupEnds(group: seq<Line>, ls: seq<Line>, more: seq<Line>)
    requires forall i :: 0 <= i < |ls| ==> ls[i] != []
    ensures PayloadsFrom(group, ls + [[]] + more) == Emit(group + ls) + PayloadsFrom([], more)
    decreases |ls|
  {
    var all := ls + [[]] + more;
    if ls == [] {
      assert all[1..] == more;
      assert group + [] == group;
    } else {
      assert all[1..] == ls[1..] + [[]] + more;
      GroupEnds(group + [ls[0]], ls[1..], more);
      assert group + [ls[0]] + ls[1..] == group + ls;
    }
  }

  /** The printed form of payload lines, terminators dropped. */
  function Fields(ls: seq<Line>): (r: seq<Line>)
    ensures |r| == |ls|
    ensures forall i :: 0 <= i < |ls| ==> r[i] != []
  {
    if ls == [] then [] else [Field(ls[0])] + Fields(ls[1..])
  }

  lemma {:induction false} FieldValues(ls: seq<Line>)
    requires forall i :: 0 <= i < |ls| ==> ls[i] == [] || ls[i][0] != SPACE
    ensures DataValues(Fields(ls)) == ls
  {
    if ls != [] {
      var f := Fields(ls);
      assert f[0] == Field(ls[0]) && f[1..] == Fields(ls[1..]);
      FieldValues(ls[1..]);
      assert f[0][5..] == [SPACE] + ls[0];
      assert ([SPACE] + ls[0])[1..] == ls[0];
      assert StripSpaces([SPACE] + ls[0]) == StripSpaces(ls[0]) == ls[0];
      assert ls == [ls[0]] + ls[1..];
    }
  }

  lemma PrintedLineCons(l: Line, e: Eol, more: seq<Byte>)
    requires NoEol(l)
    requires more == [] || more[0] != LF || e == Lf
    ensures Lines(PrintLine(l, e) + more) == [Field(l)] + Lines(more)
  {
    LinesCons(Field(l), e, more);
  }

  lemma {:induction false} LinesOfPrinted(ls: seq<Line>, e: Eol, rest: seq<Byte>)
    requires forall i :: 0 <= i < |ls| ==> NoEol(ls[i])
    requires rest == [] || rest[0] != LF || e == Lf
    ensures Lines(PrintLines(ls, e) + rest) == Fields(ls) + Lines(rest)
  {
    if ls == [] {
      assert PrintLines(ls, e) + rest == rest;
    } else {
      var more := PrintLines(ls[1..], e) + rest;
      LinesOfPrinted(ls[1..], e, rest);
      PrintedHead(ls[1..], e, rest);
      PrintedLineCons(ls[0], e, more);
      calc {
        Lines(PrintLines(ls, e) + rest);
        { Assoc(PrintLine(ls[0], e), PrintLines(ls[1..], e), rest); }
        Lines(PrintLine(ls[0], e) + more);
        [Field(ls[0])] + Lines(more);
        [Field(ls[0])] + (Fields(ls[1..]) + Lines(rest));
        { Assoc([Field(ls[0])], Fields(ls[1..]), Lines(rest)); }
        Fields(ls) + Lines(rest);
      }
    }
  }

  lemma PrintedHead(ls: seq<Line>, e: Eol, rest: seq<Byte>)
    requires rest == [] || rest[0] != LF || e == Lf
    ensures var s := PrintLines(ls, e) + rest; s == [] || s[0] != LF || e == Lf
  {
    if ls != [] {
      assert PrintLine(ls[0], e)[0] == DATA[0];
    }
  }

  lemma PrintHead(ps: seq<seq<Byte>>, e: Eol)
    ensures Print(ps, e) == [] || Print(ps, e)[0] != LF
  {
    if ps != [] {
      var ls := Split(ps[0]);
      assert PrintLine(ls[0], e)[0] == DATA[0];
    }
  }

  lemma PrintableLines(p: seq<Byte>)
    requires Printable(p)
    ensures Join(Split(p)) == p
    ensures forall i :: 0 <= i < |Split(p)| ==> NoEol(Split(p)[i]) && LineFits(Split(p)[i])
  {
    JoinSplit(p);
  }

  lemma BlankLine(e: Eol, more: seq<Byte>)
    requires more == [] || more[0] != LF
    ensures Lines(Terminator(e) + more) == [[]] + Lines(more)
  {
    assert [] + Terminator(e) + more == Terminator(e) + more;
    LinesCons([], e, more);
  }

  /** The lines of one printed event: its fields and the blank line that ends it. */
  lemma LinesOfEvent(ls: seq<Line>, e: Eol, more: seq<Byte>)
    requires forall i :: 0 <= i < |ls| ==> NoEol(ls[i])
    requires more == [] || more[0] != LF
    ensures Lines(PrintLines(ls, e) + Terminator(e) + more) == Fields(ls) + [[]] + Lines(more)
  {
    var t := Terminator(e) + more;
    BlankLine(e, more);
    LinesOfPrinted(ls, e, t);
    calc {
      Lines(PrintLines(ls, e) + Terminator(e) + more);
      { Assoc(PrintLines(ls, e), Terminator(e), more); }
      Lines(PrintLines(ls, e) + t);
      Fields(ls) + Lines(t);
      Fields(ls) + ([[]] + Lines(more));
      { Assoc(Fields(ls), [[]], Lines(more)); }
      Fields(ls) + [[]] + Lines(more);
    }
  }

  lemma ParseEvent(p: seq<Byte>, e: Eol, more: seq<Byte>)
    requires Printable(p)
    requires more == [] || more[0] != LF
    ensures Parse(PrintLines(Split(p), e) + Terminator(e) + more) == [p] + Parse(more)
  {
    var ls := Split(p);
    PrintableLines(p);
    LinesOfEvent(ls, e, more);
    GroupEnds([], Fields(ls), Lines(more));
    assert [] + Fields(ls) == Fields(ls);
    FieldValues(ls);
  }

  lemma {:induction false} ParsePrinted(ps: seq<seq<Byte>>, e: Eol)
    requires forall i :: 0 <= i < |ps| ==> Printable(ps[i])
    ensures Parse(Print(ps, e)) == ps
  {
    if ps != [] {
      var (p, rest) := (ps[0], ps[1..]);
      assert ps == [p] + rest;
      PrintHead(rest, e);
      ParseEvent(p, e, Print(rest, e));
      ParsePrinted(rest, e);
    }
  }

  // ------------------------------------------------------------------
  // Nothing else can be read back
  // ------------------------------------------------------------------

  lemma {:induction false} LinesHaveNoEol(s: seq<Byte>)
    ensures forall i :: 0 <= i < |Lines(s)| ==> NoEol(Lines(s)[i])
    decreases |s|
  {
    if s != [] {
      LinesHaveNoEol(s[AfterFirstLine(s)..]);
    }
  }

  lemma {:induction false} StripKeeps(l: Line)
    requires NoEol(l)
    ensures NoEol(StripSpaces(l)) && LineFits(StripSpaces(l))
  {
    if l != [] && l[0] == SPACE {
      StripKeeps(l[1..]);
    }
  }

  lemma {:induction false} ValuesFit(group: seq<Line>)
    requires forall i :: 0 <= i < |group| ==> NoEol(group[i])
    ensures forall i :: 0 <= i < |DataValues(group)| ==> NoEol(DataValues(group)[i]) && LineFits(DataValues(group)[i])
  {
    if group != [] {
      ValuesFit(group[1..]);
      if IsData(group[0]) {
        StripKeeps(group[0][5..]);
      }
    }
  }

  lemma EmittedPrintable(group: seq<Line>)
    requires forall i :: 0 <= i < |group| ==> NoEol(group[i])
    ensures forall i :: 0 <= i < |Emit(group)| ==> Printable(Emit(group)[i])
  {
    ValuesFit(group);
    if DataValues(group) != [] {
      SplitJoin(DataValues(group));
    }
  }

  lemma {:induction false} PayloadsPrintable(group: seq<Line>, ls: seq<Line>)
    requires forall i :: 0 <= i < |group| ==> NoEol(group[i])
    requires forall i :: 0 <= i < |ls| ==> NoEol(ls[i])
    ensures forall i :: 0 <= i < |PayloadsFrom(group, ls)| ==> Printable(PayloadsFrom(group, ls)[i])
    decreases |ls|
  {
    EmittedPrintable(group);
    if ls != [] {
      PayloadsPrintable(if ls[0] == [] then [] else group + [ls[0]], ls[1..]);
    }
  }

  /** Whatever the stream, every decoded payload is printable. */
  lemma DecodedArePrintable(s: seq<Byte>)
    ensures forall i :: 0 <= i < |Parse(s)| ==> Printable(Parse(s)[i])
  {
    LinesHaveNoEol(s);
    PayloadsPrintable([], Lines(s));
  }

  /** Exactly the printable lists survive printing, cutting anywhere and decoding. */
  lemma RoundTrip(ps: seq<seq<Byte>>, e: Eol, chunks: seq<seq<Byte>>)
    requires Flatten(chunks) == Print(ps, e)
    ensures
      var (es, t) := FeedAll(Start, chunks);
      es + CloseStep(t) == ps <==> forall i :: 0 <= i < |ps| ==> Printable(ps[i])
  {
    ChunkedDecodeIsParse(chunks);
    DecodedArePrintable(Print(ps, e));
    if forall i :: 0 <= i < |ps| ==> Printable(ps[i]) {
      ParsePrinted(ps, e);
    }
  }
}

/** What the audit of a shard asks of single header fields, and the sizes it computes. */
module ShardFields {
  import opened Common
  import opened Json
  import opened CheckpointIndex
  import opened ShardAudit
  import T = Tiling

  /** The fifteen dtypes by width in bytes: every name that states a number of bits has that width. */
  lemma WidthsAre(d: string)
    ensures d in DTYPE_BYTES && DTYPE_BYTES[d] == 1 <==> d in ["I8", "U8", "F8_E4M3", "F8_E5M2", "BOOL"]
    ensures d in DTYPE_BYTES && DTYPE_BYTES[d] == 2 <==> d in ["F16", "BF16", "I16", "U16"]
    ensures d in DTYPE_BYTES && DTYPE_BYTES[d] == 4 <==> d in ["F32", "I32", "U32"]
    ensures d in DTYPE_BYTES && DTYPE_BYTES[d] == 8 <==> d in ["F64", "I64", "U64"]
    ensures d in DTYPE_BYTES ==> DTYPE_BYTES[d] in [1, 2, 4, 8]
  {
  }

  /** The number of elements: one for a scalar, and each further dimension multiplies it. */
  lemma {:induction false} ProductMore(shape: seq<nat>, n: nat)
    ensures Product([]) == 1 && Product(shape + [n]) == Product(shape) * n
  {
    if shape != [] {
      assert (shape + [n])[1..] == shape[1..] + [n];
      ProductMore(shape[1..], n);
      assert shape[0] * (Product(shape[1..]) * n) == shape[0] * Product(shape[1..]) * n;
    } else {
      assert shape + [n] == [n] && [n][1..] == [];
    }
  }

  /** The field describes a tensor of a known dtype whose span is as long as that calls for. */
  ghost predicate WellDescribed(x: Field) {
    exists e: Entry ::
      Describes(x.entry, e) && e.dtype in DTYPE_BYTES
      && e.span.end == e.span.start + Product(e.shape) * DTYPE_BYTES[e.dtype]
  }

  /** A good field is the metadata, or a well described tensor with a safe name. */
  lemma FieldExactly(x: Field)
    ensures FieldOk(x) <==> x.name == "__metadata__" || (SafeRelpath(x.name) && WellDescribed(x))
  {
    if x.name != "__metadata__" {
      if ReadEntry(x.entry).Some? {
        ReadEntryExactly(x.entry, ReadEntry(x.entry).value);
      }
      if WellDescribed(x) {
        var e: Entry :|
          Describes(x.entry, e) && e.dtype in DTYPE_BYTES
          && e.span.end == e.span.start + Product(e.shape) * DTYPE_BYTES[e.dtype];
        ReadEntryExactly(x.entry, e);
      }
    }
  }

  /** A header is let through exactly when it is at most 64 MiB, fits, has good fields, and its spans tile the rest. */
  lemma AdmissibleExactly(header: seq<Field>, headerLen: nat, size: nat)
    ensures Admissible(header, headerLen, size) <==>
            && headerLen <= 67108864 && 8 + headerLen <= size
            && (forall x <- header :: x.name == "__metadata__" || (SafeRelpath(x.name) && WellDescribed(x)))
            && T.Tiles(SpansOf(header), size - 8 - headerLen)
  {
    forall x <- header
      ensures FieldOk(x) <==> x.name == "__metadata__" || (SafeRelpath(x.name) && WellDescribed(x))
    {
      FieldExactly(x);
    }
  }

  /** Every span that is tiled is one that a tensor's field states, and none is left out. */
  lemma {:induction false} SpansAre(header: seq<Field>, s: T.Span)
    requires forall x <- header :: FieldOk(x)
    ensures s in SpansOf(header) <==> exists x :: x in header && x.name != "__metadata__" && States(x, s)
    ensures |SpansOf(header)| == |Tensors(header)|
  {
    if header != [] {
      var (past, x) := (header[..|header| - 1], header[|header| - 1]);
      assert header == past + [x];
      SpansAre(past, s);
      assert x in header && FieldOk(x);
      if IsTensor(x) {
        OnlyOneSpan(x, s);
      }
    }
  }

  /** The tensors' fields, in order. */
  function Tensors(header: seq<Field>): (r: seq<Field>) {
    if header == [] then []
    else
      var x := header[|header| - 1];
      Tensors(header[..|header| - 1]) + if x.name == "__metadata__" then [] else [x]
  }

  predicate States(x: Field, s: T.Span) {
    x.entry.Obj? && Get(x.entry, "data_offsets") == Arr([Int(s.start), Int(s.end)])
  }

  lemma OnlyOneSpan(x: Field, s: T.Span)
    requires ReadEntry(x.entry).Some?
    ensures States(x, s) <==> s == ReadEntry(x.entry).value.span
  {
    var e := ReadEntry(x.entry).value;
    ReadEntryExactly(x.entry, e);
    var (a, b) := ([Int(e.span.start), Int(e.span.end)], [Int(s.start), Int(s.end)]);
    assert a[0] == Int(e.span.start) && b[0] == Int(s.start) && a[1] == Int(e.span.end) && b[1] == Int(s.end);
  }
}

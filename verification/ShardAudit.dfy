/** The header audit of one shard: read every entry, then the spans must tile the data region. */
module ShardAudit {
  import opened Common
  import opened Json
  import opened CheckpointIndex
  import T = Tiling

  const METADATA := "__metadata__"
  const MAX_TENSOR_NAME_LENGTH := 4096
  const HEADER_LIMIT := 67108864

  /** One field of the header object, in file order. */
  datatype Field = Field(name: string, entry: Json)

  ghost predicate DistinctFields(header: seq<Field>) {
    forall i, j :: 0 <= i < j < |header| ==> header[i].name != header[j].name
  }

  predicate IsTensor(x: Field) { x.name != METADATA }

  predicate FieldOk(x: Field) {
    IsTensor(x) ==>
      |x.name| <= MAX_TENSOR_NAME_LENGTH && SafeRelpath(x.name) && ReadEntry(x.entry).Some?
  }

  /** The spans that the readable tensor entries state. */
  function SpansOf(header: seq<Field>): (r: seq<T.Span>) {
    if header == [] then []
    else
      var x := header[|header| - 1];
      var e := ReadEntry(x.entry);
      SpansOf(header[..|header| - 1]) + if IsTensor(x) && e.Some? then [e.value.span] else []
  }

  /** Good entries, and every byte after the header in exactly one of their spans. */
  ghost predicate Admissible(header: seq<Field>, headerLen: nat, size: nat) {
    && headerLen <= HEADER_LIMIT && 8 + headerLen <= size
    && (forall i :: 0 <= i < |header| ==> FieldOk(header[i]))
    && T.Tiles(SpansOf(header), size - 8 - headerLen)
  }

  /** A tensor of that name is in the header. */
  predicate Named(header: seq<Field>, n: string) {
    exists i :: 0 <= i < |header| && IsTensor(header[i]) && header[i].name == n
  }

  /** The names of the header's tensors. */
  function HeaderNames(header: seq<Field>): (r: set<string>)
    ensures forall n :: n in r <==> Named(header, n)
  {
    set i | 0 <= i < |header| && IsTensor(header[i]) :: header[i].name
  }

  /** The names collected, each once. */
  ghost predicate Listed(header: seq<Field>, order: seq<string>, tensors: map<string, Entry>) {
    && Distinct(order) && tensors.Keys == (set n | n in order)
    && (forall n <- order :: Named(header, n))
  }

  /** The entries collected. */
  ghost predicate Kept(header: seq<Field>, tensors: map<string, Entry>) {
    && (forall n <- tensors :: EntryOk(tensors[n]))
    && (forall i {:trigger HeldAt(header, tensors, i)} :: HeldAt(header, tensors, i))
  }

  predicate HeldAt(header: seq<Field>, tensors: map<string, Entry>, i: int) {
    0 <= i < |header| && IsTensor(header[i]) ==> Holds(header[i], tensors)
  }

  /** What has been collected from the fields looked at. */
  ghost predicate Collected(header: seq<Field>, order: seq<string>, tensors: map<string, Entry>) {
    Listed(header, order, tensors) && Kept(header, tensors) && Spans(order, tensors) == SpansOf(header)
  }

  /** The tensor is on file under its name, as its field describes it. */
  predicate Holds(x: Field, tensors: map<string, Entry>) {
    x.name in tensors && Describes(x.entry, tensors[x.name])
  }

  lemma {:induction false} SpansMore(order: seq<string>, tensors: map<string, Entry>, n: string, e: Entry)
    requires forall x <- order :: x in tensors
    requires n !in order
    ensures Spans(order + [n], tensors[n := e]) == Spans(order, tensors) + [e.span]
  {
    if order == [] {
      assert order + [n] == [n] && [n][1..] == [];
    } else {
      assert (order + [n])[1..] == order[1..] + [n];
      SpansMore(order[1..], tensors, n, e);
    }
  }

  lemma NamedMore(past: seq<Field>, x: Field, n: string)
    ensures Named(past + [x], n) <==> Named(past, n) || (IsTensor(x) && n == x.name)
  {
    var all := past + [x];
    assert all[|past|] == x;
    assert forall i :: 0 <= i < |past| ==> all[i] == past[i];
  }

  lemma ListMore(past: seq<Field>, x: Field, order: seq<string>, tensors: map<string, Entry>, e: Entry)
    requires Listed(past, order, tensors) && !Named(past, x.name) && IsTensor(x)
    ensures x.name !in order
    ensures Listed(past + [x], order + [x.name], tensors[x.name := e])
  {
    forall n <- order + [x.name] ensures Named(past + [x], n) {
      NamedMore(past, x, n);
    }
  }

  lemma KeepMore(past: seq<Field>, x: Field, tensors: map<string, Entry>, e: Entry)
    requires Kept(past, tensors) && !Named(past, x.name)
    requires IsTensor(x) && ReadEntry(x.entry) == Some(e)
    ensures Kept(past + [x], tensors[x.name := e])
  {
    var (all, more) := (past + [x], tensors[x.name := e]);
    ReadEntryExactly(x.entry, e);
    forall i ensures HeldAt(all, more, i) {
      assert HeldAt(past, tensors, i);
      if 0 <= i < |past| && IsTensor(past[i]) {
        assert past[i].name != x.name;
      }
    }
  }

  lemma CollectMore(past: seq<Field>, x: Field, order: seq<string>, tensors: map<string, Entry>, e: Entry)
    requires Collected(past, order, tensors) && !Named(past, x.name)
    requires IsTensor(x) && ReadEntry(x.entry) == Some(e)
    ensures Collected(past + [x], order + [x.name], tensors[x.name := e])
  {
    assert (past + [x])[..|past|] == past;
    ListMore(past, x, order, tensors, e);
    KeepMore(past, x, tensors, e);
    SpansMore(order, tensors, x.name, e);
  }

  lemma SkipMetadata(past: seq<Field>, x: Field, order: seq<string>, tensors: map<string, Entry>)
    requires Collected(past, order, tensors) && !IsTensor(x)
    ensures Collected(past + [x], order, tensors)
  {
    var all := past + [x];
    assert all[..|past|] == past;
    forall n <- order ensures Named(all, n) {
      NamedMore(past, x, n);
    }
    forall i ensures HeldAt(all, tensors, i) {
      assert HeldAt(past, tensors, i);
    }
  }

  lemma NotNamedYet(header: seq<Field>, k: nat)
    requires DistinctFields(header) && k < |header|
    ensures !Named(header[..k], header[k].name)
    ensures header[..k + 1] == header[..k] + [header[k]]
  {
  }

  lemma CollectAt(header: seq<Field>, k: nat, order: seq<string>, tensors: map<string, Entry>)
    requires DistinctFields(header) && k < |header| && FieldOk(header[k])
    requires Collected(header[..k], order, tensors)
    ensures
      var x := header[k];
      if IsTensor(x)
      then Collected(header[..k + 1], order + [x.name], tensors[x.name := ReadEntry(x.entry).value])
      else Collected(header[..k + 1], order, tensors)
  {
    var x := header[k];
    NotNamedYet(header, k);
    if IsTensor(x) {
      CollectMore(header[..k], x, order, tensors, ReadEntry(x.entry).value);
    } else {
      SkipMetadata(header[..k], x, order, tensors);
    }
  }

  /** The fields looked at so far are good and collected. */
  ghost predicate ReadTo(header: seq<Field>, k: nat, order: seq<string>, tensors: map<string, Entry>) {
    && k <= |header|
    && (forall i {:trigger GoodAt(header, k, i)} :: GoodAt(header, k, i))
    && Collected(header[..k], order, tensors)
  }

  predicate GoodAt(header: seq<Field>, k: nat, i: int)
    requires k <= |header|
  {
    0 <= i < k ==> FieldOk(header[i])
  }

  lemma ReadMore(header: seq<Field>, k: nat, order: seq<string>, tensors: map<string, Entry>)
    requires DistinctFields(header) && k < |header| && FieldOk(header[k])
    requires ReadTo(header, k, order, tensors)
    ensures
      var x := header[k];
      if IsTensor(x)
      then ReadTo(header, k + 1, order + [x.name], tensors[x.name := ReadEntry(x.entry).value])
      else ReadTo(header, k + 1, order, tensors)
  {
    CollectAt(header, k, order, tensors);
    var n: nat := k + 1;
    forall i ensures GoodAt(header, n, i) {
      assert GoodAt(header, k, i);
    }
  }

  lemma ReadAll(header: seq<Field>, order: seq<string>, tensors: map<string, Entry>)
    requires ReadTo(header, |header|, order, tensors)
    ensures Collected(header, order, tensors)
    ensures forall i :: 0 <= i < |header| ==> FieldOk(header[i])
  {
    assert header[..|header|] == header;
    forall i | 0 <= i < |header| ensures FieldOk(header[i]) {
      assert GoodAt(header, |header|, i);
    }
  }

  /** The entry loop: rejects at the first bad field. */
  method ReadHeader(header: seq<Field>) returns (ok: bool, order: seq<string>, tensors: map<string, Entry>)
    requires DistinctFields(header)
    ensures ok <==> forall i :: 0 <= i < |header| ==> FieldOk(header[i])
    ensures ok ==> Collected(header, order, tensors)
  {
    order, tensors := [], map[];
    var k := 0;
    while k < |header|
      invariant ReadTo(header, k, order, tensors)
    {
      var x := header[k];
      if !FieldOk(x) {
        return false, [], map[];
      }
      ReadMore(header, k, order, tensors);
      if IsTensor(x) {
        order, tensors := order + [x.name], tensors[x.name := ReadEntry(x.entry).value];
      }
      k := k + 1;
    }
    ReadAll(header, order, tensors);
    ok := true;
  }

  /** Nothing but the header's tensors has been collected. */
  lemma KeysAreNames(header: seq<Field>, order: seq<string>, tensors: map<string, Entry>)
    requires Collected(header, order, tensors)
    ensures tensors.Keys == HeaderNames(header)
  {
    forall n ensures n in tensors.Keys <==> Named(header, n) {
      if Named(header, n) {
        var i :| 0 <= i < |header| && IsTensor(header[i]) && header[i].name == n;
        assert HeldAt(header, tensors, i);
      }
    }
  }

  /** What the audit of a shard leaves: an admitted shard with exactly the tensors of the header. */
  ghost predicate AuditedAs(header: seq<Field>, headerLen: nat, size: nat, shard: Shard) {
    && Admitted(shard) && shard.size == size && shard.headerLen == headerLen
    && shard.tensors.Keys == HeaderNames(header)
    && forall i :: 0 <= i < |header| && IsTensor(header[i]) ==> Holds(header[i], shard.tensors)
  }

  lemma CollectedAudited(
    header: seq<Field>, headerLen: nat, size: nat, order: seq<string>, tensors: map<string, Entry>)
    requires Collected(header, order, tensors) && 8 + headerLen <= size
    requires T.Accepts(Spans(order, tensors), size - 8 - headerLen)
    ensures AuditedAs(header, headerLen, size, Shard(size, headerLen, order, tensors))
  {
    KeysAreNames(header, order, tensors);
    forall i | 0 <= i < |header| && IsTensor(header[i]) ensures Holds(header[i], tensors) {
      assert HeldAt(header, tensors, i);
    }
  }

  /**
   A shard is let through exactly when its entries are good and tile its data region; what is
   returned holds every tensor as described, and its bytes are accounted for.
   */
  method AuditShard(header: seq<Field>, headerLen: nat, size: nat) returns (r: Option<Shard>)
    requires DistinctFields(header)
    ensures r.Some? <==> Admissible(header, headerLen, size)
    ensures r.Some? ==> AuditedAs(header, headerLen, size, r.value)
  {
    if headerLen > HEADER_LIMIT || size < 8 + headerLen {
      return None;
    }
    var ok, order, tensors := ReadHeader(header);
    if !ok {
      return None;
    }
    var spans := Spans(order, tensors);
    T.TilingExact(spans, size - 8 - headerLen);
    ok := T.CheckTiling(spans, size - 8 - headerLen);
    if !ok {
      return None;
    }
    CollectedAudited(header, headerLen, size, order, tensors);
    r := Some(Shard(size, headerLen, order, tensors));
  }
}

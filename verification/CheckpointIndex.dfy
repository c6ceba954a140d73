/** Tensor entries, the agreement of index and headers, and where every byte of the shards goes. */
module CheckpointIndex {
  import opened Common
  import opened Json
  import opened Sums
  import T = Tiling

  // ------------------------------------------------------------------
  // Tensor entries
  // ------------------------------------------------------------------

  datatype Entry = Entry(dtype: string, shape: seq<nat>, span: T.Span)

  const DTYPE_BYTES: map<string, nat> := map[
    "F64" := 8, "F32" := 4, "F16" := 2, "BF16" := 2, "I64" := 8, "I32" := 4, "I16" := 2, "I8" := 1,
    "U64" := 8, "U32" := 4, "U16" := 2, "U8" := 1, "F8_E4M3" := 1, "F8_E5M2" := 1, "BOOL" := 1]

  function Product(shape: seq<nat>): (n: nat) {
    if shape == [] then 1 else shape[0] * Product(shape[1..])
  }

  predicate AllCounts(js: seq<Json>) { forall i :: 0 <= i < |js| ==> IsCount(js[i]) }

  function Counts(js: seq<Json>): (r: seq<nat>)
    requires AllCounts(js)
    ensures |r| == |js|
  {
    seq(|js|, i requires 0 <= i < |js| => js[i].n)
  }

  /** Payload bytes that shape and dtype call for. */
  function TensorBytes(e: Entry): (n: nat) {
    Product(e.shape) * (if e.dtype in DTYPE_BYTES then DTYPE_BYTES[e.dtype] else 0)
  }

  predicate EntryOk(e: Entry) { e.dtype in DTYPE_BYTES && e.span.end - e.span.start == TensorBytes(e) }

  /** Reads one header entry; None stands for the rejections of `_check_tensor_entry`. */
  function ReadEntry(j: Json): (r: Option<Entry>)
    ensures r.Some? ==> EntryOk(r.value)
  {
    if !j.Obj? then None
    else
      var (d, s, o) := (Get(j, "dtype"), Get(j, "shape"), Get(j, "data_offsets"));
      if !d.Str? || d.s !in DTYPE_BYTES || !s.Arr? || !AllCounts(s.items) then None
      else if !o.Arr? || |o.items| != 2 || !AllCounts(o.items) || o.items[0].n > o.items[1].n then None
      else
        var e := Entry(d.s, Counts(s.items), T.Offsets(o.items[0].n, o.items[1].n));
        if e.span.end - e.span.start == TensorBytes(e) then Some(e) else None
  }

  function Ints(ns: seq<nat>): (r: seq<Json>)
    ensures |r| == |ns|
  {
    seq(|ns|, i requires 0 <= i < |ns| => Int(ns[i]))
  }

  /** The header object says exactly this about a tensor; other fields are ignored. */
  predicate Describes(j: Json, e: Entry) {
    && j.Obj?
    && Get(j, "dtype") == Str(e.dtype)
    && Get(j, "shape") == Arr(Ints(e.shape))
    && Get(j, "data_offsets") == Arr([Int(e.span.start), Int(e.span.end)])
  }

  lemma IntsAreCounts(js: seq<Json>, ns: seq<nat>)
    ensures js == Ints(ns) <==> AllCounts(js) && Counts(js) == ns
  {
    if AllCounts(js) && Counts(js) == ns {
      forall i | 0 <= i < |js| ensures js[i] == Ints(ns)[i] {
        assert Counts(js)[i] == ns[i];
      }
    }
  }

  /** Accepted entries are exactly the well-sized ones, read as they are written. */
  lemma ReadEntryExactly(j: Json, e: Entry)
    ensures ReadEntry(j) == Some(e) <==> Describes(j, e) && EntryOk(e)
  {
    if j.Obj? && Get(j, "shape").Arr? {
      IntsAreCounts(Get(j, "shape").items, e.shape);
    }
    if j.Obj? && Get(j, "data_offsets").Arr? {
      var o := Get(j, "data_offsets").items;
      assert |o| == 2 ==> o == [o[0], o[1]];
    }
  }

  // ------------------------------------------------------------------
  // Paths
  // ------------------------------------------------------------------

  function SplitSlash(s: string): (r: seq<string>)
    ensures r != []
  {
    if s == "" then [""]
    else
      var rest := SplitSlash(s[1..]);
      if s[0] == '/' then [""] + rest else [[s[0]] + rest[0]] + rest[1..]
  }

  predicate SafeRelpath(name: string) {
    && 0 < |name| <= 1024
    && name[0] != '/' && '\\' !in name && '\0' !in name
    && forall part <- SplitSlash(name) :: part !in ["", ".", ".."]
  }

  // ------------------------------------------------------------------
  // Index and headers
  // ------------------------------------------------------------------

  /** The weight map is exactly the relation "this name is in this shard's header". */
  ghost predicate Agrees(headers: map<string, set<string>>, weightMap: map<string, string>) {
    && (forall key <- weightMap :: SafeRelpath(weightMap[key]))
    && forall key, shard ::
         (key in weightMap && weightMap[key] == shard) <==> (shard in headers && key in headers[shard])
  }

  /** The names the index claims for a shard, among the keys looked at. */
  function Claims(keys: set<string>, weightMap: map<string, string>, shard: string): (r: set<string>)
    requires keys <= weightMap.Keys
  {
    set key | key in keys && weightMap[key] == shard
  }

  method ValidateAgreement(headers: map<string, set<string>>, weightMap: map<string, string>) returns (ok: bool)
    ensures ok <==> Agrees(headers, weightMap)
  {
    var resolved, claims := CollectClaims(headers, weightMap);
    if !resolved {
      return false;
    }
    var shards := headers.Keys;
    while shards != {}
      invariant shards <= headers.Keys
      invariant forall shard <- headers.Keys - shards :: headers[shard] == claims[shard]
    {
      var shard :| shard in shards;
      if headers[shard] != claims[shard] {
        assert claims[shard] <= headers[shard];
        var key :| key in headers[shard] && key !in claims[shard];
        assert !(key in weightMap && weightMap[key] == shard);
        return false;
      }
      shards := shards - {shard};
    }
    forall key, shard | shard in headers && key in headers[shard]
      ensures key in weightMap && weightMap[key] == shard
    {
      assert key in claims[shard];
    }
    ok := true;
  }

  /** An index claim that resolves to its shard's header. */
  predicate Resolves(headers: map<string, set<string>>, key: string, shard: string) {
    SafeRelpath(shard) && shard in headers && key in headers[shard]
  }

  /** The loop over the index: every claim must resolve; claims are gathered per shard. */
  method CollectClaims(headers: map<string, set<string>>, weightMap: map<string, string>)
    returns (ok: bool, claims: map<string, set<string>>)
    ensures ok <==> forall key <- weightMap :: Resolves(headers, key, weightMap[key])
    ensures ok ==> claims.Keys == headers.Keys
    ensures ok ==> forall shard <- headers :: claims[shard] == Claims(weightMap.Keys, weightMap, shard)
  {
    claims := map shard | shard in headers :: {};
    var todo := weightMap.Keys;
    ghost var done: set<string> := {};
    while todo != {}
      invariant todo + done == weightMap.Keys && todo !! done
      invariant claims.Keys == headers.Keys
      invariant forall key <- done :: Resolves(headers, key, weightMap[key])
      invariant forall shard <- headers :: claims[shard] == Claims(done, weightMap, shard)
    {
      var key :| key in todo;
      var shard := weightMap[key];
      if !SafeRelpath(shard) || shard !in headers || key !in headers[shard] {
        assert !Resolves(headers, key, shard);
        return false, claims;
      }
      claims := claims[shard := claims[shard] + {key}];
      todo, done := todo - {key}, done + {key};
    }
    ok := true;
  }

  /** Agreement leaves no tensor name in two shards. */
  lemma AgreementSeparates(headers: map<string, set<string>>, weightMap: map<string, string>, a: string, b: string)
    requires Agrees(headers, weightMap) && a in headers && b in headers && a != b
    ensures headers[a] !! headers[b]
  {
    forall key | key in headers[a] ensures key !in headers[b] {
      assert key in weightMap && weightMap[key] == a;
    }
  }

  // ------------------------------------------------------------------
  // Conservation of bytes
  // ------------------------------------------------------------------

  /** A shard: file size, header length and tensors, listed in header order. */
  datatype Shard = Shard(size: nat, headerLen: nat, order: seq<string>, tensors: map<string, Entry>)

  ghost predicate Distinct(names: seq<string>) {
    forall i, j :: 0 <= i < j < |names| ==> names[i] != names[j]
  }

  ghost predicate WellFormed(s: Shard) {
    Distinct(s.order) && s.tensors.Keys == set n | n in s.order
  }

  function Spans(order: seq<string>, tensors: map<string, Entry>): (r: seq<T.Span>)
    requires forall n <- order :: n in tensors
  {
    if order == [] then [] else [tensors[order[0]].span] + Spans(order[1..], tensors)
  }

  /** What the header audit lets through: valid entries that tile the data region. */
  ghost predicate Admitted(s: Shard) {
    && WellFormed(s)
    && (forall n <- s.tensors :: EntryOk(s.tensors[n]))
    && s.size >= 8 + s.headerLen
    && T.Accepts(Spans(s.order, s.tensors), s.size - 8 - s.headerLen)
  }

  ghost function BytesOf(tensors: map<string, Entry>): (f: string -> int) {
    n => if n in tensors then TensorBytes(tensors[n]) else 0
  }

  lemma {:induction false} SpanSum(order: seq<string>, tensors: map<string, Entry>)
    requires Distinct(order)
    requires forall n <- order :: n in tensors && EntryOk(tensors[n])
    ensures T.Sum(Spans(order, tensors)) == SumSet((set n | n in order), BytesOf(tensors))
  {
    if order == [] {
      assert (set n | n in order) == {};
    } else {
      var rest := order[1..];
      SpanSum(rest, tensors);
      assert Spans(order, tensors)[1..] == Spans(rest, tensors);
      var names := set n | n in rest;
      assert (set n | n in order) == names + {order[0]};
      assert order[0] !in names;
      SumAdd(names, order[0], BytesOf(tensors));
    }
  }

  /** A shard is its prefix, its header and exactly the bytes its tensors call for. */
  lemma ShardBytes(s: Shard)
    requires Admitted(s)
    ensures s.size == 8 + s.headerLen + SumSet(s.tensors.Keys, BytesOf(s.tensors))
  {
    SpanSum(s.order, s.tensors);
  }

  ghost function Names(shards: map<string, Shard>): (r: map<string, set<string>>) {
    map s | s in shards :: shards[s].tensors.Keys
  }

  ghost function Overhead(shards: map<string, Shard>): (f: string -> int) {
    s => if s in shards then 8 + shards[s].headerLen else 0
  }

  ghost function Sizes(shards: map<string, Shard>): (f: string -> int) {
    s => if s in shards then shards[s].size else 0
  }

  ghost function Payload(shards: map<string, Shard>): (f: string -> int) {
    s => if s in shards then SumSet(shards[s].tensors.Keys, BytesOf(shards[s].tensors)) else 0
  }

  /** Bytes of the tensor an index entry points to. */
  ghost function Indexed(shards: map<string, Shard>, weightMap: map<string, string>): (f: string -> int) {
    key => if key in weightMap && weightMap[key] in shards
           then BytesOf(shards[weightMap[key]].tensors)(key) else 0
  }

  /** The tensors of a shard are the index entries that point to it. */
  lemma FibreIsShard(shards: map<string, Shard>, weightMap: map<string, string>, s: string)
    requires s in shards && Agrees(Names(shards), weightMap)
    ensures Preimage(weightMap, {s}) == shards[s].tensors.Keys
  {
    forall key ensures key in Preimage(weightMap, {s}) <==> key in shards[s].tensors.Keys {
      assert key in Names(shards)[s] <==> key in shards[s].tensors.Keys;
    }
  }

  lemma PayloadOfShard(shards: map<string, Shard>, weightMap: map<string, string>, s: string)
    requires s in shards && Agrees(Names(shards), weightMap)
    ensures Payload(shards)(s) == SumSet(Preimage(weightMap, {s}), Indexed(shards, weightMap))
  {
    FibreIsShard(shards, weightMap, s);
    var (f, g) := (BytesOf(shards[s].tensors), Indexed(shards, weightMap));
    forall key <- shards[s].tensors.Keys ensures f(key) == g(key) {
      assert key in Preimage(weightMap, {s});
    }
    SumAgree(shards[s].tensors.Keys, f, g);
  }

  lemma EveryKeyResolves(shards: map<string, Shard>, weightMap: map<string, string>)
    requires Agrees(Names(shards), weightMap)
    ensures Preimage(weightMap, shards.Keys) == weightMap.Keys
  {
    forall key <- weightMap.Keys ensures weightMap[key] in shards.Keys {
      assert weightMap[key] in Names(shards);
    }
  }

  /**
   For admitted shards whose index agrees with their headers, the total of the file sizes is
   eight bytes and a header per shard plus shape times dtype size over all index entries.
   */
  lemma TotalBytes(shards: map<string, Shard>, weightMap: map<string, string>)
    requires forall s <- shards :: Admitted(shards[s])
    requires Agrees(Names(shards), weightMap)
    ensures SumSet(shards.Keys, Sizes(shards)) ==
            SumSet(shards.Keys, Overhead(shards)) + SumSet(weightMap.Keys, Indexed(shards, weightMap))
  {
    var (sizes, overhead, payload) := (Sizes(shards), Overhead(shards), Payload(shards));
    forall s <- shards.Keys ensures sizes(s) == overhead(s) + payload(s) {
      ShardBytes(shards[s]);
    }
    SumPlus(shards.Keys, overhead, payload, sizes);
    forall s <- shards.Keys ensures payload(s) == SumSet(Preimage(weightMap, {s}), Indexed(shards, weightMap)) {
      PayloadOfShard(shards, weightMap, s);
    }
    SumFibres(shards.Keys, weightMap, Indexed(shards, weightMap), payload);
    EveryKeyResolves(shards, weightMap);
  }
}

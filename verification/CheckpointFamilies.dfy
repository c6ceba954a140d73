/** The whole structural audit: shards, index and the three tensor families on the same headers. */
module CheckpointFamilies {
  import opened Common
  import opened Sums
  import opened TensorNames
  import opened CheckpointIndex
  import opened ShardAudit
  import opened CheckpointAudit
  import opened ExpertFamilies
  import P = PleFamily

  /** What the trusted contract says of shards and families. */
  datatype Contract = Contract(
    shardCount: nat, mtpShard: string, nvfp4: Nvfp4, mtp: Mtp, ple: P.Ple, plePayload: nat)

  function TensorsOf(shards: map<string, Shard>): (h: Headers) { map s | s in shards :: shards[s].tensors }

  /** The PLE check passes, with the payload the contract expects. */
  ghost predicate PleOk(header: map<string, Entry>, c: Contract, nd: DigitTable) {
    var elements := CheckpointIndex.Product(c.ple.shardShape) * c.ple.count;
    P.Complete(header, c.ple, nd) && (P.ElementBytes(c.ple) == 1 || elements == 0) && elements == c.plePayload
  }

  /** The shard that carries the MTP and PLE tensors. */
  ghost predicate MtpShardOk(shards: map<string, Shard>, c: Contract, nd: DigitTable) {
    && c.mtpShard in shards && c.mtp.experts > 0
    && MtpComplete(shards[c.mtpShard].tensors, c.mtp, nd)
    && PleOk(shards[c.mtpShard].tensors, c, nd)
  }

  /** All that is asked of shards that passed their own audit. */
  ghost predicate Whole(shards: map<string, Shard>, weightMap: map<string, string>, c: Contract, nd: DigitTable) {
    && weightMap.Values == shards.Keys && |shards| == c.shardCount
    && MtpShardOk(shards, c, nd)
    && Agrees(Names(shards), weightMap)
    && Complete(MainFamily(c.nvfp4, nd), TensorsOf(shards))
  }

  /** The checks on the MTP shard. */
  method CheckMtpShard(shards: map<string, Shard>, c: Contract, nd: DigitTable) returns (ok: bool)
    requires IsDigitTable(nd) && forall s <- shards :: Admitted(shards[s])
    ensures ok <==> MtpShardOk(shards, c, nd)
  {
    if c.mtpShard !in shards {
      return false;
    }
    var header := shards[c.mtpShard].tensors;
    var counted;
    counted, ok := ValidateMtp(header, c.mtp, nd);
    if !ok {
      return;
    }
    var payload := P.ValidatePle(header, c.ple, nd);
    ok := payload == Some(c.plePayload) && c.mtp.experts > 0;
  }

  /** The checks across shards. */
  method CheckWhole(shards: map<string, Shard>, weightMap: map<string, string>, c: Contract, nd: DigitTable)
    returns (ok: bool)
    requires IsDigitTable(nd) && forall s <- shards :: Admitted(shards[s])
    ensures ok <==> Whole(shards, weightMap, c, nd)
  {
    if weightMap.Values != shards.Keys || |shards| != c.shardCount {
      return false;
    }
    ok := CheckMtpShard(shards, c, nd);
    if !ok {
      return;
    }
    ok := ValidateAgreement(map s | s in shards :: shards[s].tensors.Keys, weightMap);
    if !ok {
      return;
    }
    ok := ValidateNvfp4(TensorsOf(shards), c.nvfp4, nd);
  }

  /**
   The audit admits a checkpoint exactly when every shard passes its own audit and the shards, the
   index and the families fit together.
   */
  method AuditAll(files: map<string, File>, weightMap: map<string, string>, c: Contract, nd: DigitTable)
    returns (ok: bool, shards: map<string, Shard>, total: int)
    requires IsDigitTable(nd) && forall s <- files :: DistinctFields(files[s].header)
    ensures (forall s <- files :: FileOk(s, files[s])) ==>
              && shards.Keys == files.Keys && (forall s <- files :: Audited(files[s], shards[s]))
              && total == SumSet(files.Keys, FileSizes(files))
    ensures ok <==> (forall s <- files :: FileOk(s, files[s])) && Whole(shards, weightMap, c, nd)
  {
    ok, shards, total := AuditFiles(files);
    if !ok {
      return;
    }
    EveryShardShown(files, shards, total);
    ok := CheckWhole(shards, weightMap, c, nd);
  }

  // ------------------------------------------------------------------
  // What an admitted checkpoint holds
  // ------------------------------------------------------------------

  /** A member is one index entry, and the shard it points to, and no other, holds it as contracted. */
  lemma MemberIndexed<I(!new)>(f: Family<I>, shards: map<string, Shard>, weightMap: map<string, string>, id: I)
    requires Sound(f) && Complete(f, TensorsOf(shards)) && Agrees(Names(shards), weightMap) && f.belongs(id)
    ensures f.name(id) in weightMap && HeldAs(f, shards, weightMap, id)
  {
    var n := f.name(id);
    assert OccursOnce(f, TensorsOf(shards), id);
    var s :| s in TensorsOf(shards) && n in TensorsOf(shards)[s];
    assert s in Names(shards) && n in Names(shards)[s];
    assert f.find(n) == Some(id);
    assert NameOk(f, n, TensorsOf(shards)[s][n]);
    forall t <- shards | n in shards[t].tensors ensures t == s {
      assert t in Names(shards) && n in Names(shards)[t];
    }
  }

  ghost predicate HeldAs<I(!new)>(f: Family<I>, shards: map<string, Shard>, weightMap: map<string, string>, id: I)
    requires f.name(id) in weightMap
  {
    var (n, s) := (f.name(id), weightMap[f.name(id)]);
    && s in shards && n in shards[s].tensors && f.fits(shards[s].tensors[n], id)
    && forall t <- shards :: n in shards[t].tensors ==> t == s
  }

  /** An index entry that the family's grammar matches is a member, under its canonical name. */
  lemma IndexedIsMember<I(!new)>(f: Family<I>, shards: map<string, Shard>, weightMap: map<string, string>, key: string)
    requires Complete(f, TensorsOf(shards)) && Agrees(Names(shards), weightMap)
    requires key in weightMap && f.find(key).Some?
    ensures f.belongs(f.find(key).value) && key == f.name(f.find(key).value)
  {
    var s := weightMap[key];
    assert s in Names(shards) && key in Names(shards)[s];
    assert NameOk(f, key, TensorsOf(shards)[s][key]);
  }

  /** The index entries of a family. */
  ghost function FamilyKeys<I(!new)>(f: Family<I>, weightMap: map<string, string>): (r: set<string>) {
    set key | key in weightMap && f.find(key).Some?
  }

  /** They are the names of its members, each once. */
  lemma KeysAreMembers<I(!new)>(
    f: Family<I>, shards: map<string, Shard>, weightMap: map<string, string>, members: set<I>)
    requires Sound(f) && Members(f, members)
    requires Complete(f, TensorsOf(shards)) && Agrees(Names(shards), weightMap)
    ensures FamilyKeys(f, weightMap) == (set id | id in members :: f.name(id))
  {
    var names := set id | id in members :: f.name(id);
    forall key ensures key in FamilyKeys(f, weightMap) <==> key in names {
      if key in FamilyKeys(f, weightMap) {
        IndexedIsMember(f, shards, weightMap, key);
      }
      if key in names {
        var id :| id in members && f.name(id) == key;
        MemberIndexed(f, shards, weightMap, id);
        assert f.find(key) == Some(id);
      }
    }
  }

  /** The contract fixes how many bytes a member has. */
  ghost predicate FixesBytes<I(!new)>(f: Family<I>, bytes: I -> int) {
    forall e: Entry, id :: f.fits(e, id) ==> TensorBytes(e) == bytes(id)
  }

  lemma MemberBytes<I(!new)>(
    f: Family<I>, shards: map<string, Shard>, weightMap: map<string, string>, id: I, bytes: I -> int)
    requires Sound(f) && Complete(f, TensorsOf(shards)) && Agrees(Names(shards), weightMap) && f.belongs(id)
    requires FixesBytes(f, bytes)
    ensures Indexed(shards, weightMap)(f.name(id)) == bytes(id)
  {
    MemberIndexed(f, shards, weightMap, id);
    var (n, s) := (f.name(id), weightMap[f.name(id)]);
    assert f.fits(shards[s].tensors[n], id);
    assert BytesOf(shards[s].tensors)(n) == TensorBytes(shards[s].tensors[n]);
  }

  /** The bytes of a family's index entries are what the contract says of its members. */
  lemma FamilyBytes<I(!new)>(
    f: Family<I>, shards: map<string, Shard>, weightMap: map<string, string>, members: set<I>, bytes: I -> int)
    requires Sound(f) && Members(f, members)
    requires Complete(f, TensorsOf(shards)) && Agrees(Names(shards), weightMap)
    requires FixesBytes(f, bytes)
    ensures SumSet(FamilyKeys(f, weightMap), Indexed(shards, weightMap)) == SumSet(members, bytes)
  {
    KeysAreMembers(f, shards, weightMap, members);
    forall x, y | x in members && y in members && f.name(x) == f.name(y) ensures x == y {
      assert f.find(f.name(x)) == Some(x) && f.find(f.name(y)) == Some(y);
    }
    forall id <- members ensures Indexed(shards, weightMap)(f.name(id)) == bytes(id) {
      MemberBytes(f, shards, weightMap, id, bytes);
    }
    SumImage(members, f.name, Indexed(shards, weightMap), bytes);
  }

  /** The total of the file sizes with one family's share taken out. */
  lemma TotalSplit<I(!new)>(
    f: Family<I>, shards: map<string, Shard>, weightMap: map<string, string>, members: set<I>, bytes: I -> int)
    requires Sound(f) && Members(f, members)
    requires Complete(f, TensorsOf(shards)) && Agrees(Names(shards), weightMap)
    requires FixesBytes(f, bytes)
    requires forall s <- shards :: Admitted(shards[s])
    ensures SumSet(shards.Keys, Sizes(shards)) ==
            SumSet(shards.Keys, Overhead(shards)) + SumSet(members, bytes)
            + SumSet(weightMap.Keys - FamilyKeys(f, weightMap), Indexed(shards, weightMap))
  {
    var keys := FamilyKeys(f, weightMap);
    TotalBytes(shards, weightMap);
    FamilyBytes(f, shards, weightMap, members, bytes);
    assert weightMap.Keys == keys + (weightMap.Keys - keys);
    SumUnion(keys, weightMap.Keys - keys, Indexed(shards, weightMap));
  }

  // ------------------------------------------------------------------
  // The NVFP4 experts in the total
  // ------------------------------------------------------------------

  function Width(dtype: string): (n: nat) { if dtype in DTYPE_BYTES then DTYPE_BYTES[dtype] else 0 }

  /** Bytes of one expert tensor, by the contract. */
  function ExpertBytes(c: Nvfp4): (f: Id -> int) {
    (id: Id) =>
      match id.3
      case Weight => Product(c.weightShapes(id.2)) * Width(c.weightDtype)
      case WeightScale => Product(c.scaleShapes(id.2)) * Width(c.scaleDtype)
      case WeightScale2 => Width(c.scale2Dtype)
      case InputScale => Width(c.inputScaleDtype)
  }

  lemma ExpertFixesBytes(c: Nvfp4, nd: DigitTable)
    ensures FixesBytes(MainFamily(c, nd), ExpertBytes(c))
  {
    var (f, bytes) := (MainFamily(c, nd), ExpertBytes(c));
    forall e: Entry, id: Id | f.fits(e, id) ensures TensorBytes(e) == bytes(id) {
      assert Fits(e, id, c);
      assert Product([]) == 1;
    }
  }

  /** Every expert is exactly one index entry, and that entry's shard holds it as contracted. */
  lemma ExpertIndexed(shards: map<string, Shard>, weightMap: map<string, string>, c: Contract, nd: DigitTable, id: Id)
    requires IsDigitTable(nd) && Whole(shards, weightMap, c, nd) && InRange(id, c.nvfp4)
    ensures
      var f := MainFamily(c.nvfp4, nd);
      f.name(id) == Canonical(id) && Canonical(id) in weightMap && HeldAs(f, shards, weightMap, id)
  {
    MainSound(c.nvfp4, nd);
    MemberIndexed(MainFamily(c.nvfp4, nd), shards, weightMap, id);
  }

  /**
   In an admitted checkpoint the total of the file sizes is: eight bytes and a header per shard,
   the contracted bytes of every layer, expert, projection and kind, and the bytes of the index
   entries outside that family.
   */
  lemma TotalByFamily(shards: map<string, Shard>, weightMap: map<string, string>, c: Contract, nd: DigitTable)
    requires IsDigitTable(nd) && Whole(shards, weightMap, c, nd)
    requires forall s <- shards :: Admitted(shards[s])
    ensures
      var experts := FamilyKeys(MainFamily(c.nvfp4, nd), weightMap);
      SumSet(shards.Keys, Sizes(shards)) ==
        SumSet(shards.Keys, Overhead(shards))
        + SumSet(FullProduct(c.nvfp4.layers, c.nvfp4.experts), ExpertBytes(c.nvfp4))
        + SumSet(weightMap.Keys - experts, Indexed(shards, weightMap))
  {
    MainSound(c.nvfp4, nd);
    FullProductMembers(c.nvfp4, nd);
    ExpertFixesBytes(c.nvfp4, nd);
    TotalSplit(MainFamily(c.nvfp4, nd), shards, weightMap,
               FullProduct(c.nvfp4.layers, c.nvfp4.experts), ExpertBytes(c.nvfp4));
  }

  /** A name in a shard's header is an index entry that points there. */
  lemma InShard(shards: map<string, Shard>, weightMap: map<string, string>, s: string, key: string)
    requires Agrees(Names(shards), weightMap) && s in shards && key in shards[s].tensors
    ensures key in weightMap && weightMap[key] == s
  {
    assert s in Names(shards) && key in Names(shards)[s];
  }

  /** Every MTP expert tensor is an index entry that points to its shard. */
  lemma MtpIndexed(
    shards: map<string, Shard>, weightMap: map<string, string>, c: Contract, nd: DigitTable, id: MtpId)
    requires Whole(shards, weightMap, c, nd) && MtpInRange(id, c.mtp)
    ensures MtpCanonical(id) in weightMap && weightMap[MtpCanonical(id)] == c.mtpShard
  {
    InShard(shards, weightMap, c.mtpShard, MtpCanonical(id));
  }

  lemma ExactHolds<I(!new)>(f: Family<I>, header: map<string, Entry>, id: I)
    requires P.Exact(f, header) && f.belongs(id)
    ensures f.name(id) in header
  {
  }

  /** And so is every PLE shard. */
  lemma PleIndexed(
    shards: map<string, Shard>, weightMap: map<string, string>, c: Contract, nd: DigitTable, i: nat)
    requires Whole(shards, weightMap, c, nd) && i < c.ple.count
    ensures P.PleName(i) in weightMap && weightMap[P.PleName(i)] == c.mtpShard
  {
    ExactHolds(P.Shards(c.ple, nd), shards[c.mtpShard].tensors, i);
    InShard(shards, weightMap, c.mtpShard, P.PleName(i));
  }
}

/** An admitted checkpoint in full, and where every byte of it goes. */
module CheckpointTotals {
  import opened Common
  import opened Cardinality
  import opened Sums
  import opened TensorNames
  import opened CheckpointIndex
  import opened ExpertFamilies
  import opened CheckpointFamilies
  import opened FamilyContracts
  import P = PleFamily

  /** All that an admitted checkpoint holds, tensor by tensor. */
  ghost predicate InFull(shards: map<string, Shard>, weightMap: map<string, string>, c: Contract, nd: DigitTable) {
    && weightMap.Values == shards.Keys && |shards| == c.shardCount
    && Agrees(Names(shards), weightMap)
    && ExpertsInFull(TensorsOf(shards), c.nvfp4, nd)
    && c.mtpShard in shards && c.mtp.experts > 0
    && MtpInFull(shards[c.mtpShard].tensors, c.mtp, nd)
    && PleInFull(shards[c.mtpShard].tensors, c.ple, nd)
    && var elements := Product(c.ple.shardShape) * c.ple.count;
    elements == c.plePayload && (P.ElementBytes(c.ple) == 1 || elements == 0)
  }

  lemma WholeInFull(shards: map<string, Shard>, weightMap: map<string, string>, c: Contract, nd: DigitTable)
    requires IsDigitTable(nd)
    ensures Whole(shards, weightMap, c, nd) <==> InFull(shards, weightMap, c, nd)
  {
    ExpertsExactly(TensorsOf(shards), c.nvfp4, nd);
    if c.mtpShard in shards {
      MtpExactly(shards[c.mtpShard].tensors, c.mtp, nd);
      PleExactly(shards[c.mtpShard].tensors, c.ple, nd);
    }
  }

  // ------------------------------------------------------------------
  // The names of the three families differ
  // ------------------------------------------------------------------

  lemma MtpIsNoExpert(id: MtpId, nd: DigitTable)
    ensures MatchMain(MtpCanonical(id), nd).None?
  {
    var n := MtpCanonical(id);
    assert MTP_PREFIX[1] == 't' && MAIN_PREFIX[1] == 'o';
    assert n[1] == MTP_PREFIX[1];
  }

  /** A PLE name after the prefix that it shares with expert names: layer 1, and then something else. */
  lemma PleTail(i: nat) returns (tail: string)
    ensures P.PleName(i) == MAIN_PREFIX + (Decimal(1) + tail)
    ensures |tail| > 1 && tail[0] == '.' && tail[1] == 'p'
  {
    tail := P.PLE_PART + (P.SHARD + (Decimal(i) + P.WEIGHT));
    PleNames(i);
    assert tail[0] == P.PLE_PART[0] && tail[1] == P.PLE_PART[1];
  }

  lemma PleIsNoExpert(i: nat, nd: DigitTable)
    requires IsDigitTable(nd)
    ensures MatchMain(P.PleName(i), nd).None?
  {
    var tail := PleTail(i);
    var n := P.PleName(i);
    assert n[|MAIN_PREFIX|..] == Decimal(1) + tail;
    assert MID[1] == 'm';
    ReadDecimal(1, tail, nd);
  }

  lemma MtpIsNoPle(id: MtpId, i: nat)
    ensures MtpCanonical(id) != P.PleName(i)
  {
    var tail := PleTail(i);
    assert MTP_PREFIX[1] == 't' && MAIN_PREFIX[1] == 'o';
    assert MtpCanonical(id)[1] == MTP_PREFIX[1] && P.PleName(i)[1] == MAIN_PREFIX[1];
  }

  // ------------------------------------------------------------------
  // Shares
  // ------------------------------------------------------------------

  /** The names of a family's members. */
  ghost function NamesOf<I(!new)>(f: Family<I>, members: set<I>): (r: set<string>) {
    set id | id in members :: f.name(id)
  }

  ghost function MtpKeys(c: Mtp, nd: DigitTable): (r: set<string>) {
    NamesOf(MtpFamily(c, nd), MtpProduct(c.experts))
  }

  ghost function PleKeys(c: P.Ple, nd: DigitTable): (r: set<string>) { NamesOf(P.Shards(c, nd), Below(c.count)) }

  /** Bytes of an MTP tensor: its contracted shape, at the width of the dtype it has. */
  ghost function MtpBytes(header: map<string, Entry>, c: Mtp): (f: MtpId -> int) {
    (id: MtpId) =>
      var shape := if id.3.MtpWeight? then c.shapes(id.2) else c.scaleGrids(id.2);
      if MtpCanonical(id) in header then Product(shape) * Width(header[MtpCanonical(id)].dtype) else 0
  }

  lemma IndexedAt(shards: map<string, Shard>, weightMap: map<string, string>, s: string, key: string)
    requires Agrees(Names(shards), weightMap) && s in shards && key in shards[s].tensors
    ensures Indexed(shards, weightMap)(key) == TensorBytes(shards[s].tensors[key])
  {
    InShard(shards, weightMap, s, key);
    assert BytesOf(shards[s].tensors)(key) == TensorBytes(shards[s].tensors[key]);
  }

  /** Summing over names that can be told apart is summing over what they name. */
  lemma NamedSum<I(!new)>(f: Family<I>, members: set<I>, g: string -> int, bytes: I -> int)
    requires Sound(f) && forall x <- members :: g(f.name(x)) == bytes(x)
    ensures SumSet(NamesOf(f, members), g) == SumSet(members, bytes)
  {
    forall x, y | x in members && y in members && f.name(x) == f.name(y) ensures x == y {
      assert f.find(f.name(x)) == Some(x) && f.find(f.name(y)) == Some(y);
    }
    SumImage(members, f.name, g, bytes);
  }

  lemma MtpOneShare(
    shards: map<string, Shard>, weightMap: map<string, string>, c: Contract, nd: DigitTable, id: MtpId)
    requires IsDigitTable(nd) && Whole(shards, weightMap, c, nd) && MtpInRange(id, c.mtp)
    ensures Indexed(shards, weightMap)(MtpCanonical(id)) == MtpBytes(shards[c.mtpShard].tensors, c.mtp)(id)
  {
    var (header, n) := (shards[c.mtpShard].tensors, MtpCanonical(id));
    MtpMemberFits(header, id.1, id.2, id.3, c.mtp, nd);
    MtpNames(id.1, id.2, id.3);
    MtpEntry(header[n], id.1, id.2, c.mtp);
    IndexedAt(shards, weightMap, c.mtpShard, n);
    assert TensorBytes(header[n]) == Product(header[n].shape) * Width(header[n].dtype);
  }

  lemma MtpFound(shards: map<string, Shard>, weightMap: map<string, string>, c: Contract, nd: DigitTable, id: MtpId)
    requires IsDigitTable(nd) && Whole(shards, weightMap, c, nd) && id in MtpProduct(c.mtp.experts)
    ensures
      Indexed(shards, weightMap)(MtpFamily(c.mtp, nd).name(id)) == MtpBytes(shards[c.mtpShard].tensors, c.mtp)(id)
  {
    MtpProductMembers(c.mtp, nd);
    assert MtpFamily(c.mtp, nd).belongs(id);
    MtpOneShare(shards, weightMap, c, nd, id);
  }

  lemma MtpShare(shards: map<string, Shard>, weightMap: map<string, string>, c: Contract, nd: DigitTable)
    requires IsDigitTable(nd) && Whole(shards, weightMap, c, nd)
    ensures SumSet(MtpKeys(c.mtp, nd), Indexed(shards, weightMap)) ==
            SumSet(MtpProduct(c.mtp.experts), MtpBytes(shards[c.mtpShard].tensors, c.mtp))
  {
    var (f, g) := (MtpFamily(c.mtp, nd), Indexed(shards, weightMap));
    var (members, bytes) := (MtpProduct(c.mtp.experts), MtpBytes(shards[c.mtpShard].tensors, c.mtp));
    MtpSound(c.mtp, nd);
    forall id <- members ensures g(f.name(id)) == bytes(id) {
      MtpFound(shards, weightMap, c, nd, id);
    }
    NamedSum(f, members, g, bytes);
  }

  lemma PleOneShare(shards: map<string, Shard>, weightMap: map<string, string>, c: Contract, nd: DigitTable, i: nat)
    requires IsDigitTable(nd) && Whole(shards, weightMap, c, nd) && i < c.ple.count
    ensures Indexed(shards, weightMap)(P.PleName(i)) == Product(c.ple.shardShape) * P.ElementBytes(c.ple)
  {
    var (header, n) := (shards[c.mtpShard].tensors, P.PleName(i));
    PleExactly(header, c.ple, nd);
    PleNames(i);
    assert PleShardIs(header, i, c.ple);
    IndexedAt(shards, weightMap, c.mtpShard, n);
  }

  lemma PleShare(shards: map<string, Shard>, weightMap: map<string, string>, c: Contract, nd: DigitTable)
    requires IsDigitTable(nd) && Whole(shards, weightMap, c, nd)
    ensures SumSet(PleKeys(c.ple, nd), Indexed(shards, weightMap)) == c.plePayload
  {
    var (f, g) := (P.Shards(c.ple, nd), Indexed(shards, weightMap));
    var each := Product(c.ple.shardShape) * P.ElementBytes(c.ple);
    var bytes: nat -> int := i => each;
    P.ShardsSound(c.ple, nd);
    forall i <- Below(c.ple.count) ensures g(f.name(i)) == bytes(i) {
      PleOneShare(shards, weightMap, c, nd, i);
    }
    NamedSum(f, Below(c.ple.count), g, bytes);
    SumConstant(Below(c.ple.count), bytes, each);
    PayloadIs(c);
  }

  lemma PayloadIs(c: Contract)
    requires
      var elements := Product(c.ple.shardShape) * c.ple.count;
      elements == c.plePayload && (P.ElementBytes(c.ple) == 1 || elements == 0)
    ensures c.ple.count * (Product(c.ple.shardShape) * P.ElementBytes(c.ple)) == c.plePayload
  {
    var (n, e, w) := (c.ple.count, Product(c.ple.shardShape), P.ElementBytes(c.ple));
    if e * n == 0 {
      assert n == 0 || e == 0;
    }
  }

  // ------------------------------------------------------------------
  // The whole total
  // ------------------------------------------------------------------

  lemma MtpKeysIndexed(shards: map<string, Shard>, weightMap: map<string, string>, c: Contract, nd: DigitTable)
    requires IsDigitTable(nd) && Whole(shards, weightMap, c, nd)
    ensures MtpKeys(c.mtp, nd) <= weightMap.Keys
    ensures forall key <- MtpKeys(c.mtp, nd) :: MatchMain(key, nd).None?
  {
    var f := MtpFamily(c.mtp, nd);
    forall key <- MtpKeys(c.mtp, nd) ensures key in weightMap && MatchMain(key, nd).None? {
      var id :| id in MtpProduct(c.mtp.experts) && f.name(id) == key;
      MtpProductMembers(c.mtp, nd);
      assert f.belongs(id);
      MtpIndexed(shards, weightMap, c, nd, id);
      MtpIsNoExpert(id, nd);
    }
  }

  lemma PleKeysIndexed(shards: map<string, Shard>, weightMap: map<string, string>, c: Contract, nd: DigitTable)
    requires IsDigitTable(nd) && Whole(shards, weightMap, c, nd)
    ensures PleKeys(c.ple, nd) <= weightMap.Keys && PleKeys(c.ple, nd) !! MtpKeys(c.mtp, nd)
    ensures forall key <- PleKeys(c.ple, nd) :: MatchMain(key, nd).None?
  {
    var (f, g) := (P.Shards(c.ple, nd), MtpFamily(c.mtp, nd));
    forall key <- PleKeys(c.ple, nd)
      ensures key in weightMap && key !in MtpKeys(c.mtp, nd) && MatchMain(key, nd).None?
    {
      var i :| i in Below(c.ple.count) && f.name(i) == key;
      PleIndexed(shards, weightMap, c, nd, i);
      PleIsNoExpert(i, nd);
      forall id: MtpId ensures g.name(id) != key {
        MtpIsNoPle(id, i);
      }
    }
  }

  /** A sum over keys, with three disjoint parts named. */
  lemma SumParts(all: set<string>, a: set<string>, b: set<string>, c: set<string>, g: string -> int)
    requires a <= all && b <= all && c <= all && a !! b && a !! c && b !! c
    ensures SumSet(all - a, g) == SumSet(b, g) + SumSet(c, g) + SumSet(all - a - b - c, g)
  {
    var rest := all - a - b - c;
    assert all - a == (b + c) + rest;
    SumUnion(b + c, rest, g);
    SumUnion(b, c, g);
  }

  /** The index entries that belong to no family. */
  ghost function Others(weightMap: map<string, string>, c: Contract, nd: DigitTable): (r: set<string>) {
    weightMap.Keys - FamilyKeys(MainFamily(c.nvfp4, nd), weightMap) - MtpKeys(c.mtp, nd) - PleKeys(c.ple, nd)
  }

  /**
   In an admitted checkpoint the total of the file sizes is: eight bytes and a header per shard,
   the contracted bytes of every NVFP4 expert tensor, those of every MTP tensor, the PLE payload,
   and the bytes of the index entries outside the three families.
   */
  lemma TotalByFamilies(shards: map<string, Shard>, weightMap: map<string, string>, c: Contract, nd: DigitTable)
    requires IsDigitTable(nd) && Whole(shards, weightMap, c, nd)
    requires forall s <- shards :: Admitted(shards[s])
    ensures SumSet(shards.Keys, Sizes(shards)) ==
            SumSet(shards.Keys, Overhead(shards))
            + SumSet(FullProduct(c.nvfp4.layers, c.nvfp4.experts), ExpertBytes(c.nvfp4))
            + SumSet(MtpProduct(c.mtp.experts), MtpBytes(shards[c.mtpShard].tensors, c.mtp))
            + c.plePayload
            + SumSet(Others(weightMap, c, nd), Indexed(shards, weightMap))
  {
    var g := Indexed(shards, weightMap);
    var (a, b, d) := (FamilyKeys(MainFamily(c.nvfp4, nd), weightMap), MtpKeys(c.mtp, nd), PleKeys(c.ple, nd));
    TotalByFamily(shards, weightMap, c, nd);
    MtpKeysIndexed(shards, weightMap, c, nd);
    PleKeysIndexed(shards, weightMap, c, nd);
    KeysApart(weightMap, c, nd, a, b);
    KeysApart(weightMap, c, nd, a, d);
    SumParts(weightMap.Keys, a, b, d, g);
    MtpShare(shards, weightMap, c, nd);
    PleShare(shards, weightMap, c, nd);
  }

  lemma KeysApart(weightMap: map<string, string>, c: Contract, nd: DigitTable, a: set<string>, b: set<string>)
    requires a == FamilyKeys(MainFamily(c.nvfp4, nd), weightMap) && forall key <- b :: MatchMain(key, nd).None?
    ensures a !! b
  {
    forall key | key in a ensures key !in b {
      assert MainFamily(c.nvfp4, nd).find(key) == MatchMain(key, nd);
    }
  }
}

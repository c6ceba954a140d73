/** The tensor families said in full: spelled names, dtypes and shapes, entry by entry. */
module FamilyContracts {
  import opened Common
  import opened TensorNames
  import opened CheckpointIndex
  import opened ExpertFamilies
  import P = PleFamily
  import T = Tiling

  // ------------------------------------------------------------------
  // Names as they are written
  // ------------------------------------------------------------------

  function Spelled(front: string, layer: nat, expert: nat, back: string): (s: string) {
    front + (Decimal(layer) + (".mlp.experts." + (Decimal(expert) + back)))
  }

  function ProjSpelled(p: Proj): (s: string) {
    match p
    case GateProj => ".gate_proj."
    case UpProj => ".up_proj."
    case DownProj => ".down_proj."
  }

  function KindSpelled(k: Kind): (s: string) {
    match k
    case Weight => "weight"
    case WeightScale => "weight_scale"
    case WeightScale2 => "weight_scale_2"
    case InputScale => "input_scale"
  }

  function MtpKindSpelled(k: MtpKind): (s: string) {
    match k
    case MtpWeight => "weight"
    case MtpScale => "weight_scale_inv"
  }

  /** The name of an expert tensor. */
  function ExpertSpelled(layer: nat, expert: nat, p: Proj, k: Kind): (s: string) {
    Spelled("model.language_model.layers.", layer, expert, ProjSpelled(p) + KindSpelled(k))
  }

  /** The name of an MTP tensor. */
  function MtpSpelled(expert: nat, p: Proj, k: MtpKind): (s: string) {
    Spelled("mtp.layers.", 0, expert, ProjSpelled(p) + MtpKindSpelled(k))
  }

  /** The name of a PLE shard. */
  function PleSpelled(i: nat): (s: string) {
    "model.language_model.layers."
    + (Decimal(1) + (".ple.ple_embedding.ngram_embedding" + (".shard_" + (Decimal(i) + ".weight"))))
  }

  lemma ProjTailSpelled(p: Proj, kind: string)
    ensures ProjTail(p, kind) == ProjSpelled(p) + kind
  {
    match p
    case GateProj => assert "." + "gate_proj" + "." == ".gate_proj.";
    case UpProj => assert "." + "up_proj" + "." == ".up_proj.";
    case DownProj => assert "." + "down_proj" + "." == ".down_proj.";
  }

  lemma ExpertNames(id: Id)
    ensures Canonical(id) == ExpertSpelled(id.0, id.1, id.2, id.3)
  {
    ProjTailSpelled(id.2, KindName(id.3));
  }

  lemma MtpNames(expert: nat, p: Proj, k: MtpKind)
    ensures MtpCanonical((0, expert, p, k)) == MtpSpelled(expert, p, k)
  {
    ProjTailSpelled(p, MtpKindName(k));
  }

  lemma PleNames(i: nat)
    ensures P.PleName(i) == PleSpelled(i)
  {
    var rest := P.SHARD + (Decimal(i) + P.WEIGHT);
    Assoc(MAIN_PREFIX, "1" + P.PLE_PART, rest);
    Assoc("1", P.PLE_PART, rest);
    assert Decimal(1) == "1";
  }

  // ------------------------------------------------------------------
  // The contracts, entry by entry
  // ------------------------------------------------------------------

  predicate Is(e: Entry, dtype: string, shape: seq<nat>) { e.dtype == dtype && e.shape == shape }

  /** What the contract asks of an expert tensor. */
  lemma ExpertEntry(e: Entry, layer: nat, expert: nat, p: Proj, c: Nvfp4)
    ensures Fits(e, (layer, expert, p, Weight), c) <==> Is(e, c.weightDtype, c.weightShapes(p))
    ensures Fits(e, (layer, expert, p, WeightScale), c) <==> Is(e, c.scaleDtype, c.scaleShapes(p))
    ensures Fits(e, (layer, expert, p, WeightScale2), c) <==> Is(e, c.scale2Dtype, [])
    ensures Fits(e, (layer, expert, p, InputScale), c) <==> Is(e, c.inputScaleDtype, [])
  {
  }

  /** What it asks of an MTP tensor: the scale grid, too. */
  lemma MtpEntry(e: Entry, expert: nat, p: Proj, c: Mtp)
    ensures MtpFits(e, (0, expert, p, MtpWeight), c) <==> Is(e, c.weightDtype, c.shapes(p))
    ensures MtpFits(e, (0, expert, p, MtpScale), c) <==> e.dtype in c.scaleDtypes && e.shape == c.scaleGrids(p)
  {
  }

  /** Both tensors of one MTP expert's projection are in the header, with dtype and shape. */
  predicate MtpPair(header: map<string, Entry>, expert: nat, p: Proj, c: Mtp) {
    var (weight, scale) := (MtpSpelled(expert, p, MtpWeight), MtpSpelled(expert, p, MtpScale));
    && weight in header && scale in header
    && Is(header[weight], c.weightDtype, c.shapes(p))
    && header[scale].dtype in c.scaleDtypes && header[scale].shape == c.scaleGrids(p)
  }

  /** A name that the grammar matches is one of those tensors' names. */
  ghost predicate MtpNamed(name: string, c: Mtp, nd: DigitTable) {
    MatchMtp(name, nd).Some? ==> exists expert: nat, p, k :: expert < c.experts && name == MtpSpelled(expert, p, k)
  }

  ghost predicate MtpInFull(header: map<string, Entry>, c: Mtp, nd: DigitTable) {
    && (forall expert: nat, p :: expert < c.experts ==> MtpPair(header, expert, p, c))
    && (forall n <- header :: MtpNamed(n, c, nd))
  }

  lemma MtpMemberFits(header: map<string, Entry>, expert: nat, p: Proj, k: MtpKind, c: Mtp, nd: DigitTable)
    requires IsDigitTable(nd) && MtpComplete(header, c, nd) && expert < c.experts
    ensures MtpSpelled(expert, p, k) in header && MtpFits(header[MtpSpelled(expert, p, k)], (0, expert, p, k), c)
  {
    var (f, id) := (MtpFamily(c, nd), (0, expert, p, k));
    MtpNames(expert, p, k);
    MatchMtpCanonical(id, nd);
    assert MtpInRange(id, c);
    assert MtpCanonical(id) in header;
    assert NameOk(f, MtpCanonical(id), header[MtpCanonical(id)]);
    assert f.find(MtpCanonical(id)) == Some(id);
  }

  lemma MtpNameFits(header: map<string, Entry>, n: string, c: Mtp, nd: DigitTable)
    requires IsDigitTable(nd) && MtpInFull(header, c, nd) && n in header
    ensures NameOk(MtpFamily(c, nd), n, header[n])
  {
    var f := MtpFamily(c, nd);
    if MatchMtp(n, nd).Some? {
      assert MtpNamed(n, c, nd);
      var expert: nat, p, k :| expert < c.experts && n == MtpSpelled(expert, p, k);
      var id := (0, expert, p, k);
      MtpNames(expert, p, k);
      MatchMtpCanonical(id, nd);
      MtpEntry(header[n], expert, p, c);
      assert MtpPair(header, expert, p, c);
      assert f.find(n) == Some(id) && f.name(id) == n && f.belongs(id) && f.fits(header[n], id);
    }
  }

  /** The MTP family is complete exactly when the header says so in full. */
  lemma MtpExactly(header: map<string, Entry>, c: Mtp, nd: DigitTable)
    requires IsDigitTable(nd)
    ensures MtpComplete(header, c, nd) <==> MtpInFull(header, c, nd)
  {
    if MtpComplete(header, c, nd) {
      forall expert: nat, p | expert < c.experts ensures MtpPair(header, expert, p, c) {
        MtpMemberFits(header, expert, p, MtpWeight, c, nd);
        MtpMemberFits(header, expert, p, MtpScale, c, nd);
      }
      forall n <- header ensures MtpNamed(n, c, nd) {
        MtpNameSpelled(header, n, c, nd);
      }
    }
    if MtpInFull(header, c, nd) {
      forall n <- header ensures NameOk(MtpFamily(c, nd), n, header[n]) {
        MtpNameFits(header, n, c, nd);
      }
      forall id: MtpId | MtpInRange(id, c) ensures MtpCanonical(id) in header {
        MtpNames(id.1, id.2, id.3);
        assert MtpPair(header, id.1, id.2, c);
      }
    }
  }

  lemma MtpNameSpelled(header: map<string, Entry>, n: string, c: Mtp, nd: DigitTable)
    requires MtpComplete(header, c, nd) && n in header
    ensures MtpNamed(n, c, nd)
  {
    var f := MtpFamily(c, nd);
    assert NameOk(f, n, header[n]);
    assert f.find(n) == MatchMtp(n, nd);
    if MatchMtp(n, nd).Some? {
      var id := MatchMtp(n, nd).value;
      assert n == f.name(id) && f.belongs(id);
      MtpNames(id.1, id.2, id.3);
      assert n == MtpSpelled(id.1, id.2, id.3);
    }
  }

  // ------------------------------------------------------------------
  // The NVFP4 family in full
  // ------------------------------------------------------------------

  /** Dtype and shape of an expert tensor, kind by kind. */
  predicate ExpertIs(e: Entry, p: Proj, k: Kind, c: Nvfp4) {
    match k
    case Weight => Is(e, c.weightDtype, c.weightShapes(p))
    case WeightScale => Is(e, c.scaleDtype, c.scaleShapes(p))
    case WeightScale2 => Is(e, c.scale2Dtype, [])
    case InputScale => Is(e, c.inputScaleDtype, [])
  }

  /** The name is in exactly one shard, with a contracted entry. */
  ghost predicate HeldOnce(headers: Headers, n: string, p: Proj, k: Kind, c: Nvfp4) {
    exists s :: s in headers && n in headers[s] && ExpertIs(headers[s][n], p, k, c)
      && forall t :: t in headers && n in headers[t] ==> t == s
  }

  ghost predicate ExpertNamed(name: string, c: Nvfp4, nd: DigitTable) {
    MatchMain(name, nd).Some? ==>
      exists layer: nat, expert: nat, p, k ::
        layer < c.layers && expert < c.experts && name == ExpertSpelled(layer, expert, p, k)
  }

  ghost predicate ExpertsInFull(headers: Headers, c: Nvfp4, nd: DigitTable) {
    && (forall layer: nat, expert: nat, p, k :: layer < c.layers && expert < c.experts ==>
          HeldOnce(headers, ExpertSpelled(layer, expert, p, k), p, k, c))
    && (forall s, n :: s in headers && n in headers[s] ==> ExpertNamed(n, c, nd))
  }

  lemma ExpertFits(e: Entry, id: Id, c: Nvfp4)
    ensures Fits(e, id, c) <==> ExpertIs(e, id.2, id.3, c)
  {
    ExpertEntry(e, id.0, id.1, id.2, c);
  }

  lemma ExpertHeld(headers: Headers, id: Id, c: Nvfp4, nd: DigitTable)
    requires IsDigitTable(nd) && Complete(MainFamily(c, nd), headers) && InRange(id, c)
    ensures HeldOnce(headers, ExpertSpelled(id.0, id.1, id.2, id.3), id.2, id.3, c)
  {
    var (f, n) := (MainFamily(c, nd), Canonical(id));
    ExpertNames(id);
    MatchCanonical(id, nd);
    assert f.belongs(id) && f.name(id) == n && f.find(n) == Some(id);
    assert OccursOnce(f, headers, id);
    var s :| s in headers && n in headers[s];
    assert NameOk(f, n, headers[s][n]);
    ExpertFits(headers[s][n], id, c);
  }

  lemma ExpertNameSpelled(headers: Headers, s: string, n: string, c: Nvfp4, nd: DigitTable)
    requires Complete(MainFamily(c, nd), headers) && s in headers && n in headers[s]
    ensures ExpertNamed(n, c, nd)
  {
    var f := MainFamily(c, nd);
    assert NameOk(f, n, headers[s][n]);
    assert f.find(n) == MatchMain(n, nd);
    if MatchMain(n, nd).Some? {
      var id := MatchMain(n, nd).value;
      assert n == f.name(id) && f.belongs(id);
      ExpertNames(id);
      assert n == ExpertSpelled(id.0, id.1, id.2, id.3);
    }
  }

  lemma ExpertNameFits(headers: Headers, s: string, n: string, c: Nvfp4, nd: DigitTable)
    requires IsDigitTable(nd) && ExpertsInFull(headers, c, nd) && s in headers && n in headers[s]
    ensures NameOk(MainFamily(c, nd), n, headers[s][n])
  {
    if MatchMain(n, nd).Some? {
      assert ExpertNamed(n, c, nd);
      var layer: nat, expert: nat, p, k :|
        layer < c.layers && expert < c.experts && n == ExpertSpelled(layer, expert, p, k);
      assert HeldOnce(headers, n, p, k, c);
      ExpertMemberFits(headers[s][n], n, (layer, expert, p, k), c, nd);
    }
  }

  lemma ExpertMemberFits(e: Entry, n: string, id: Id, c: Nvfp4, nd: DigitTable)
    requires IsDigitTable(nd) && InRange(id, c) && n == ExpertSpelled(id.0, id.1, id.2, id.3)
    requires ExpertIs(e, id.2, id.3, c)
    ensures NameOk(MainFamily(c, nd), n, e)
  {
    var f := MainFamily(c, nd);
    ExpertNames(id);
    MatchCanonical(id, nd);
    ExpertFits(e, id, c);
    assert f.find(n) == Some(id) && f.name(id) == n && f.belongs(id) && f.fits(e, id);
  }

  lemma ExpertOccurs(headers: Headers, id: Id, c: Nvfp4, nd: DigitTable)
    requires ExpertsInFull(headers, c, nd) && InRange(id, c)
    ensures OccursOnce(MainFamily(c, nd), headers, id)
  {
    var n := ExpertSpelled(id.0, id.1, id.2, id.3);
    ExpertNames(id);
    assert HeldOnce(headers, n, id.2, id.3, c);
    assert MainFamily(c, nd).name(id) == n;
  }

  /** The NVFP4 family is complete exactly when the headers say so in full. */
  lemma ExpertsExactly(headers: Headers, c: Nvfp4, nd: DigitTable)
    requires IsDigitTable(nd)
    ensures Complete(MainFamily(c, nd), headers) <==> ExpertsInFull(headers, c, nd)
  {
    var f := MainFamily(c, nd);
    if Complete(f, headers) {
      forall layer: nat, expert: nat, p, k | layer < c.layers && expert < c.experts
        ensures HeldOnce(headers, ExpertSpelled(layer, expert, p, k), p, k, c)
      {
        ExpertHeld(headers, (layer, expert, p, k), c, nd);
      }
      forall s, n | s in headers && n in headers[s] ensures ExpertNamed(n, c, nd) {
        ExpertNameSpelled(headers, s, n, c, nd);
      }
    }
    if ExpertsInFull(headers, c, nd) {
      forall s, n | s in headers && n in headers[s] ensures NameOk(f, n, headers[s][n]) {
        ExpertNameFits(headers, s, n, c, nd);
      }
      forall id | f.belongs(id) ensures OccursOnce(f, headers, id) {
        ExpertOccurs(headers, id, c, nd);
      }
    }
  }

  // ------------------------------------------------------------------
  // The PLE family in full
  // ------------------------------------------------------------------

  predicate PleShardIs(header: map<string, Entry>, i: nat, c: P.Ple) {
    PleSpelled(i) in header && Is(header[PleSpelled(i)], c.shardDtype, c.shardShape)
  }

  ghost predicate PleNamed(name: string, nd: DigitTable) {
    P.MatchPle(name, nd).Some? ==> exists i: nat :: name == PleSpelled(i)
  }

  ghost predicate PleInFull(header: map<string, Entry>, c: P.Ple, nd: DigitTable) {
    && c.scaleName in header && Is(header[c.scaleName], c.scaleDtype, c.scaleShape)
    && (forall i: nat :: i < c.count ==> PleShardIs(header, i, c))
    && (forall i: nat :: PleSpelled(i) in header ==> i < c.count)
    && (forall n <- header :: PleNamed(n, nd))
  }

  lemma PleFamilyIs(c: P.Ple, nd: DigitTable, e: Entry, n: string, i: nat)
    ensures
      var f := P.Shards(c, nd);
      && f.name(i) == PleSpelled(i) && (f.belongs(i) <==> i < c.count)
      && f.find(n) == P.MatchPle(n, nd) && (f.fits(e, i) <==> Is(e, c.shardDtype, c.shardShape))
  {
    PleNames(i);
  }

  lemma PleNameSpelled(header: map<string, Entry>, n: string, c: P.Ple, nd: DigitTable)
    requires P.Exact(P.Shards(c, nd), header) && n in header
    ensures PleNamed(n, nd)
  {
    var f := P.Shards(c, nd);
    assert P.Canonically(f, n);
    PleFamilyIs(c, nd, header[n], n, 0);
    if P.MatchPle(n, nd).Some? {
      PleFamilyIs(c, nd, header[n], n, P.MatchPle(n, nd).value);
    }
  }

  lemma PleNameCanonical(header: map<string, Entry>, n: string, c: P.Ple, nd: DigitTable)
    requires IsDigitTable(nd) && PleNamed(n, nd) && n in header
    ensures P.Canonically(P.Shards(c, nd), n)
  {
    var f := P.Shards(c, nd);
    PleFamilyIs(c, nd, header[n], n, 0);
    if P.MatchPle(n, nd).Some? {
      var i: nat :| n == PleSpelled(i);
      PleNames(i);
      P.MatchPleName(i, nd);
      PleFamilyIs(c, nd, header[n], n, i);
    }
  }

  lemma PleShardThere(header: map<string, Entry>, i: nat, c: P.Ple, nd: DigitTable)
    requires P.Exact(P.Shards(c, nd), header)
    ensures PleSpelled(i) in header <==> i < c.count
    ensures i < c.count ==> PleShardIs(header, i, c)
  {
    var f := P.Shards(c, nd);
    PleFamilyIs(c, nd, Entry("", [], T.Offsets(0, 0)), "", i);
    assert f.name(i) in header <==> f.belongs(i);
    if i < c.count {
      PleFamilyIs(c, nd, header[f.name(i)], "", i);
    }
  }

  lemma PleMember(header: map<string, Entry>, i: nat, c: P.Ple, nd: DigitTable)
    requires PleInFull(header, c, nd)
    ensures
      var f := P.Shards(c, nd);
      (f.name(i) in header <==> f.belongs(i)) && (f.name(i) in header ==> f.fits(header[f.name(i)], i))
  {
    var f := P.Shards(c, nd);
    PleFamilyIs(c, nd, Entry("", [], T.Offsets(0, 0)), "", i);
    assert i < c.count ==> PleShardIs(header, i, c);
    if f.name(i) in header {
      PleFamilyIs(c, nd, header[f.name(i)], "", i);
    }
  }

  /** The PLE family is complete exactly when the header says so in full. */
  lemma PleExactly(header: map<string, Entry>, c: P.Ple, nd: DigitTable)
    requires IsDigitTable(nd)
    ensures P.Complete(header, c, nd) <==> PleInFull(header, c, nd)
  {
    var f := P.Shards(c, nd);
    if P.Complete(header, c, nd) {
      forall n <- header ensures PleNamed(n, nd) {
        PleNameSpelled(header, n, c, nd);
      }
      forall i: nat
        ensures (PleSpelled(i) in header ==> i < c.count) && (i < c.count ==> PleShardIs(header, i, c))
      {
        PleShardThere(header, i, c, nd);
      }
    }
    if PleInFull(header, c, nd) {
      forall n <- header ensures P.Canonically(f, n) {
        PleNameCanonical(header, n, c, nd);
      }
      forall i
        ensures f.name(i) in header <==> f.belongs(i)
        ensures f.belongs(i) && f.name(i) in header ==> f.fits(header[f.name(i)], i)
      {
        PleMember(header, i, c, nd);
      }
    }
  }

  // ------------------------------------------------------------------
  // The pinned contract hangs together
  // ------------------------------------------------------------------

  /**
   Two 4-bit weights share a byte and sixteen of them a scale; MTP weights are scaled in blocks of
   128 by 128; the three projections go between 2560 and 640.
   */
  lemma TrustedShapes(p: Proj)
    ensures
      var (rows, cols) := if p.DownProj? then (2560, 640) else (640, 2560);
      && TRUSTED_NVFP4.weightShapes(p) == [rows, cols / 2] && TRUSTED_NVFP4.scaleShapes(p) == [rows, cols / 16]
      && TRUSTED_MTP.shapes(p) == [rows, cols] && TRUSTED_MTP.scaleGrids(p) == [rows / 128, cols / 128]
  {
  }

  /** What a tensor of the pinned checkpoint takes: an expert's projection has 1638400 weights. */
  lemma TrustedBytes(e: Entry, layer: nat, expert: nat, p: Proj)
    ensures
      var c := TRUSTED_NVFP4;
      && (Fits(e, (layer, expert, p, Weight), c) ==> e.dtype == "U8" && TensorBytes(e) == 819200)
      && (Fits(e, (layer, expert, p, WeightScale), c) ==> e.dtype == "F8_E4M3" && TensorBytes(e) == 102400)
      && (Fits(e, (layer, expert, p, WeightScale2), c) ==> e.dtype == "F32" && TensorBytes(e) == 4)
      && (Fits(e, (layer, expert, p, InputScale), c) ==> e.dtype == "F32" && TensorBytes(e) == 4)
    ensures
      var c := TRUSTED_MTP;
      && (MtpFits(e, (0, expert, p, MtpWeight), c) ==> e.dtype == "F8_E4M3" && TensorBytes(e) == 1638400)
      && (MtpFits(e, (0, expert, p, MtpScale), c) ==>
            (e.dtype == "BF16" && TensorBytes(e) == 200) || (e.dtype == "F32" && TensorBytes(e) == 400))
  {
    ExpertEntry(e, layer, expert, p, TRUSTED_NVFP4);
    MtpEntry(e, expert, p, TRUSTED_MTP);
    TrustedShapes(p);
    if |e.shape| == 2 {
      Rectangle(e.shape[0], e.shape[1]);
      assert e.shape == [e.shape[0], e.shape[1]];
    }
  }

  lemma Rectangle(rows: nat, cols: nat)
    ensures Product([rows, cols]) == rows * cols
  {
    assert [rows, cols][1..] == [cols] && [cols][1..] == [];
    assert Product([]) == 1;
    assert Product([cols]) == cols * Product([]);
  }
}

/** The PLE embedding shards: numbering, entries and the byte total (scripts/audit_checkpoint.py). */
module PleFamily {
  import opened Common
  import opened Cardinality
  import opened TensorNames
  import opened CheckpointIndex
  import opened ExpertFamilies

  const PLE_PREFIX := MAIN_PREFIX + ("1" + PLE_PART)
  const PLE_PART := ".ple.ple_embedding.ngram_embedding"
  const SHARD := ".shard_"
  const WEIGHT := ".weight"

  type Header = map<string, Entry>

  datatype Ple = Ple(
    count: nat, shardDtype: string, shardShape: seq<nat>,
    scaleName: string, scaleDtype: string, scaleShape: seq<nat>)

  /** The contract of the pinned checkpoint. */
  const TRUSTED_PLE: Ple := Ple(128, "F8_E4M3", [2500012, 160], PLE_PREFIX + ".weight_scale", "BF16", [1])

  // ------------------------------------------------------------------
  // Names
  // ------------------------------------------------------------------

  /** The canonical name of shard `i`. */
  function PleName(i: nat): (s: string) { PLE_PREFIX + (SHARD + (Decimal(i) + WEIGHT)) }

  /** The regular expression; `$` under `match` also lets one final line feed pass. */
  function MatchPle(name: string, nd: DigitTable): (r: Option<nat>) {
    if !(PLE_PREFIX + SHARD <= name) then None
    else match ReadNumber(name[|PLE_PREFIX + SHARD|..], nd)
         case None => None
         case Some((i, rest)) => if rest == WEIGHT || rest == WEIGHT + "\n" then Some(i) else None
  }

  lemma MatchPleName(i: nat, nd: DigitTable)
    requires IsDigitTable(nd)
    ensures MatchPle(PleName(i), nd) == Some(i)
  {
    var front := PLE_PREFIX + SHARD;
    var rest := Decimal(i) + WEIGHT;
    Assoc(PLE_PREFIX, SHARD, rest);
    assert PleName(i) == front + rest;
    assert PleName(i)[..|front|] == front && PleName(i)[|front|..] == rest;
    ReadDecimal(i, WEIGHT, nd);
  }

  // ------------------------------------------------------------------
  // Collecting the members of a family
  // ------------------------------------------------------------------

  /** A name that the family matches is the canonical one. */
  predicate Canonically<I(==)>(f: Family<I>, name: string) {
    f.find(name).Some? ==> name == f.name(f.find(name).value)
  }

  /** The members among the names looked at. */
  ghost predicate Found<I(!new)>(f: Family<I>, header: Header, names: set<string>, found: map<I, Entry>) {
    && names <= header.Keys
    && (forall n <- names :: Canonically(f, n))
    && (forall i :: i in found <==> f.name(i) in names)
    && (forall i <- found :: f.name(i) in header && found[i] == header[f.name(i)])
  }

  lemma FoundMore<I(!new)>(f: Family<I>, header: Header, names: set<string>, found: map<I, Entry>, n: string)
    requires Sound(f) && Found(f, header, names, found)
    requires n in header && n !in names && Canonically(f, n)
    ensures f.find(n).Some? ==> f.find(n).value !in found
    ensures
      var i := f.find(n);
      Found(f, header, names + {n}, if i.Some? then found[i.value := header[n]] else found)
  {
    forall i ensures f.name(i) == n <==> f.find(n) == Some(i) {
      assert f.find(f.name(i)) == Some(i);
    }
  }

  /** The loop over the header; with canonical names, no member can come up twice. */
  method FindMembers<I(==,!new)>(f: Family<I>, header: Header) returns (ok: bool, found: map<I, Entry>)
    requires Sound(f)
    ensures ok <==> forall n <- header :: Canonically(f, n)
    ensures ok ==> Found(f, header, header.Keys, found)
  {
    found := map[];
    var todo := header.Keys;
    ghost var done: set<string> := {};
    while todo != {}
      invariant todo !! done && todo + done == header.Keys
      invariant Found(f, header, done, found)
    {
      var name :| name in todo;
      var i := f.find(name);
      if i.Some? && name != f.name(i.value) {
        assert !Canonically(f, name);
        return false, map[];
      }
      FoundMore(f, header, done, found, name);
      if i.Some? {
        found := found[i.value := header[name]];
      }
      todo, done := todo - {name}, done + {name};
    }
    ok := true;
  }

  /** Canonical names only, and exactly the members, each with a fitting entry. */
  ghost predicate Exact<I(!new)>(f: Family<I>, header: Header) {
    && (forall n <- header :: Canonically(f, n))
    && (forall i :: f.name(i) in header <==> f.belongs(i))
    && (forall i :: f.belongs(i) && f.name(i) in header ==> f.fits(header[f.name(i)], i))
  }

  /** The members found decide whether the family is exact. */
  lemma FoundDecides<I(!new)>(f: Family<I>, header: Header, found: map<I, Entry>, members: set<I>)
    requires Found(f, header, header.Keys, found) && Members(f, members)
    ensures Exact(f, header) <==> found.Keys == members && forall i <- found :: f.fits(found[i], i)
    ensures (forall n <- header :: EntryOk(header[n])) ==> forall i <- found :: EntryOk(found[i])
  {
    if Exact(f, header) {
      forall i ensures i in found.Keys <==> i in members {
        assert f.name(i) in header <==> f.belongs(i);
      }
    }
    if found.Keys == members && forall i <- found :: f.fits(found[i], i) {
      forall i ensures f.name(i) in header <==> f.belongs(i) {
        assert i in found.Keys <==> i in members;
      }
    }
  }

  /** The members by identity, if all names are canonical and exactly the members are there. */
  method CollectMembers<I(==,!new)>(f: Family<I>, header: Header, members: set<I>) returns (r: Option<map<I, Entry>>)
    requires Sound(f) && Members(f, members) && forall n <- header :: EntryOk(header[n])
    ensures r.None? ==> !Exact(f, header)
    ensures r.Some? ==>
              && r.value.Keys == members && (forall i <- r.value :: EntryOk(r.value[i]))
              && (Exact(f, header) <==> forall i <- r.value :: f.fits(r.value[i], i))
  {
    var ok, found := FindMembers(f, header);
    if !ok {
      return None;
    }
    FoundDecides(f, header, found, members);
    assert |found| == |found.Keys|;
    if |found| != |members| || found.Keys != members {
      return None;
    }
    r := Some(found);
  }

  // ------------------------------------------------------------------
  // The check
  // ------------------------------------------------------------------

  predicate ScaleOk(header: Header, c: Ple) {
    && c.scaleName in header
    && header[c.scaleName].dtype == c.scaleDtype && header[c.scaleName].shape == c.scaleShape
  }

  predicate ShardFits(e: Entry, c: Ple) { e.dtype == c.shardDtype && e.shape == c.shardShape }

  function Shards(c: Ple, nd: DigitTable): (f: Family<nat>) {
    Family((n: string) => MatchPle(n, nd), (i: nat) => PleName(i), (i: nat) => i < c.count,
           (e: Entry, i: nat) => ShardFits(e, c))
  }

  lemma ShardsSound(c: Ple, nd: DigitTable)
    requires IsDigitTable(nd)
    ensures Sound(Shards(c, nd)) && Members(Shards(c, nd), Below(c.count))
  {
    var f := Shards(c, nd);
    forall i: nat ensures f.find(f.name(i)) == Some(i) {
      MatchPleName(i, nd);
    }
  }

  /** The scale and exactly the shards 0 to count - 1, canonically named, with dtype and shape. */
  ghost predicate Complete(header: Header, c: Ple, nd: DigitTable) {
    ScaleOk(header, c) && Exact(Shards(c, nd), header)
  }

  /** Bytes of one element of the shards. */
  function ElementBytes(c: Ple): (n: nat) { if c.shardDtype in DTYPE_BYTES then DTYPE_BYTES[c.shardDtype] else 0 }

  lemma OneShardMore(k: nat, elements: nat, width: nat)
    ensures elements * k * width + elements * width == elements * (k + 1) * width
  {
    assert elements * (k + 1) == elements * k + elements;
  }

  /** The loop over the shards, with the payload it sums up. */
  method SumShards(found: map<nat, Entry>, c: Ple) returns (ok: bool, payload: nat)
    requires forall i: nat :: i in found <==> i < c.count
    requires forall i <- found :: EntryOk(found[i])
    ensures ok <==> forall i <- found :: ShardFits(found[i], c)
    ensures ok ==> payload == Product(c.shardShape) * c.count * ElementBytes(c)
  {
    payload := 0;
    for k := 0 to c.count
      invariant forall i :: 0 <= i < k ==> ShardFits(found[i], c)
      invariant payload == Product(c.shardShape) * k * ElementBytes(c)
    {
      var e := found[k];
      if !ShardFits(e, c) {
        return false, 0;
      }
      assert e.span.end - e.span.start == Product(c.shardShape) * ElementBytes(c);
      OneShardMore(k, Product(c.shardShape), ElementBytes(c));
      payload := payload + (e.span.end - e.span.start);
    }
    ok := true;
  }

  /** The final test compares bytes with elements. */
  lemma BytesAreElements(elements: nat, width: nat)
    ensures elements * width == elements <==> width == 1 || elements == 0
  {
    if elements > 0 && width > 1 {
      assert elements * width == elements + elements * (width - 1);
      assert elements * (width - 1) > 0;
    }
  }

  lemma KeysBelow(found: map<nat, Entry>, n: nat)
    requires found.Keys == Below(n)
    ensures forall i: nat :: i in found <==> i < n
  {
    assert forall i: nat :: i in found.Keys <==> i in Below(n);
  }

  lemma FitsAgree(found: map<nat, Entry>, c: Ple, nd: DigitTable)
    ensures (forall i <- found :: Shards(c, nd).fits(found[i], i)) <==> forall i <- found :: ShardFits(found[i], c)
  {
    var f := Shards(c, nd);
    assert forall e: Entry, i: nat :: f.fits(e, i) == ShardFits(e, c);
  }

  /** The shards by number, if their names are canonical and their numbers are 0 to count - 1. */
  method NumberedShards(header: Header, c: Ple, nd: DigitTable) returns (r: Option<map<nat, Entry>>)
    requires IsDigitTable(nd) && forall n <- header :: EntryOk(header[n])
    ensures r.None? ==> !Exact(Shards(c, nd), header)
    ensures r.Some? ==>
              && (forall i: nat :: i in r.value <==> i < c.count)
              && (forall i <- r.value :: EntryOk(r.value[i]))
              && (Exact(Shards(c, nd), header) <==> forall i <- r.value :: ShardFits(r.value[i], c))
  {
    ShardsSound(c, nd);
    r := CollectMembers(Shards(c, nd), header, Below(c.count));
    if r.Some? {
      KeysBelow(r.value, c.count);
      FitsAgree(r.value, c, nd);
    }
  }

  /**
   The whole check, on entries the header audit let through. It accepts exactly the complete
   families, except that the final byte test also asks for a dtype of one byte (or no elements
   at all); for such a dtype it never fails.
   */
  method ValidatePle(header: Header, c: Ple, nd: DigitTable) returns (r: Option<nat>)
    requires IsDigitTable(nd) && forall n <- header :: EntryOk(header[n])
    ensures
      var elements := Product(c.shardShape) * c.count;
      && (r.Some? <==> Complete(header, c, nd) && (ElementBytes(c) == 1 || elements == 0))
      && (r.Some? ==> r.value == elements)
  {
    if !ScaleOk(header, c) {
      return None;
    }
    var got := NumberedShards(header, c, nd);
    if got.None? {
      return None;
    }
    var found := got.value;
    var ok;
    var payload;
    ok, payload := SumShards(found, c);
    if !ok {
      return None;
    }
    BytesAreElements(Product(c.shardShape) * c.count, ElementBytes(c));
    if payload != Product(c.shardShape) * c.count {
      return None;
    }
    r := Some(payload);
  }

  /** For the pinned checkpoint the payload is the number of bytes its index facts expect. */
  lemma TrustedPayload()
    ensures ElementBytes(TRUSTED_PLE) == 1
    ensures Product(TRUSTED_PLE.shardShape) * TRUSTED_PLE.count == 51200245760
  {
    var s := [2500012, 160];
    assert s[1..] == [160] && [160][1..] == [];
    assert Product([160]) == 160 && Product(s) == 2500012 * 160;
  }
}

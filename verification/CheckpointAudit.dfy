/** All shards of a checkpoint together with its index. */
module CheckpointAudit {
  import opened Common
  import opened Sums
  import opened CheckpointIndex
  import opened ShardAudit

  /**
   A shard file: whether it is a regular file under the root and no link, its header, parsed, the
   length of the header and the size of the file.
   */
  datatype File = File(plain: bool, header: seq<Field>, headerLen: nat, size: nat)

  ghost predicate FileOk(name: string, file: File) {
    SafeRelpath(name) && file.plain && Admissible(file.header, file.headerLen, file.size)
  }

  ghost predicate Audited(file: File, shard: Shard) {
    AuditedAs(file.header, file.headerLen, file.size, shard)
  }

  method AuditFile(name: string, file: File) returns (r: Option<Shard>)
    requires DistinctFields(file.header)
    ensures r.Some? <==> FileOk(name, file)
    ensures r.Some? ==> Audited(file, r.value)
  {
    if !SafeRelpath(name) || !file.plain {
      return None;
    }
    r := AuditShard(file.header, file.headerLen, file.size);
  }

  ghost function FileSizes(files: map<string, File>): (f: string -> int) {
    s => if s in files then files[s].size else 0
  }

  /** A relation that holds of every entry made so far. */
  ghost predicate Holding<K(!new), V(!new), W(!new)>(from: map<K, V>, made: map<K, W>, rel: (K, V, W) -> bool) {
    forall k {:trigger HoldsAt(from, made, rel, k)} :: HoldsAt(from, made, rel, k)
  }

  predicate HoldsAt<K(==), V, W>(from: map<K, V>, made: map<K, W>, rel: (K, V, W) -> bool, k: K) {
    k in made ==> k in from && rel(k, from[k], made[k])
  }

  lemma HoldingMore<K(!new), V(!new), W(!new)>(
    from: map<K, V>, made: map<K, W>, rel: (K, V, W) -> bool, key: K, value: W)
    requires Holding(from, made, rel) && key in from && rel(key, from[key], value)
    ensures Holding(from, made[key := value], rel)
  {
    var more := made[key := value];
    forall k ensures HoldsAt(from, more, rel, k) {
      assert HoldsAt(from, made, rel, k);
    }
  }

  ghost function Passed(): (rel: (string, File, Shard) -> bool) {
    (name, file, shard) => FileOk(name, file) && Audited(file, shard)
  }

  /** The shards audited so far, and the total of their sizes. */
  ghost predicate Progress(files: map<string, File>, shards: map<string, Shard>, total: int) {
    && shards.Keys <= files.Keys
    && Holding(files, shards, Passed())
    && total == SumSet(shards.Keys, FileSizes(files))
  }

  lemma ProgressMore(files: map<string, File>, shards: map<string, Shard>, total: int, name: string, shard: Shard)
    requires name in files && name !in shards
    ensures Progress(files, shards, total) && Passed()(name, files[name], shard) ==>
              Progress(files, shards[name := shard], total + files[name].size)
  {
    if Progress(files, shards, total) && Passed()(name, files[name], shard) {
      HoldingMore(files, shards, Passed(), name, shard);
      SumAdd(shards.Keys, name, FileSizes(files));
      assert shards[name := shard].Keys == shards.Keys + {name};
    }
  }

  /** The loop over the shards, with the total it reports. */
  method AuditFiles(files: map<string, File>) returns (ok: bool, shards: map<string, Shard>, total: int)
    requires forall s <- files :: DistinctFields(files[s].header)
    ensures ok <==> forall s <- files :: FileOk(s, files[s])
    ensures ok ==> shards.Keys == files.Keys && Progress(files, shards, total)
  {
    shards, total := map[], 0;
    var todo := files.Keys;
    while todo != {}
      invariant todo <= files.Keys && shards.Keys == files.Keys - todo
      invariant Progress(files, shards, total)
    {
      var name :| name in todo;
      var audited := AuditFile(name, files[name]);
      if audited.None? {
        return false, map[], 0;
      }
      ProgressMore(files, shards, total, name, audited.value);
      shards, total := shards[name := audited.value], total + files[name].size;
      todo := todo - {name};
    }
    EveryShardShown(files, shards, total);
    ok := true;
  }

  /** The header names of every shard. */
  ghost function AllNames(files: map<string, File>): (r: map<string, set<string>>) {
    map s | s in files :: HeaderNames(files[s].header)
  }

  lemma EveryShardShown(files: map<string, File>, shards: map<string, Shard>, total: int)
    requires shards.Keys == files.Keys && Progress(files, shards, total)
    ensures forall s <- files :: FileOk(s, files[s]) && Audited(files[s], shards[s])
  {
    forall s <- files ensures FileOk(s, files[s]) && Audited(files[s], shards[s]) {
      assert HoldsAt(files, shards, Passed(), s);
    }
  }

  lemma NamesAgree(files: map<string, File>, shards: map<string, Shard>, total: int)
    requires shards.Keys == files.Keys && Progress(files, shards, total)
    ensures Names(shards) == AllNames(files)
  {
    var (a, b) := (Names(shards), AllNames(files));
    forall s <- files ensures a[s] == b[s] {
      assert HoldsAt(files, shards, Passed(), s);
    }
  }

  /** The total of the file sizes, seen from the index. */
  lemma TotalFromIndex(
    files: map<string, File>, shards: map<string, Shard>, total: int, weightMap: map<string, string>)
    requires shards.Keys == files.Keys && Progress(files, shards, total)
    requires Agrees(Names(shards), weightMap)
    ensures total == SumSet(shards.Keys, Overhead(shards)) + SumSet(weightMap.Keys, Indexed(shards, weightMap))
  {
    forall s <- shards ensures Admitted(shards[s]) && FileSizes(files)(s) == Sizes(shards)(s) {
      assert HoldsAt(files, shards, Passed(), s);
    }
    TotalBytes(shards, weightMap);
    SumAgree(files.Keys, FileSizes(files), Sizes(shards));
  }

  /**
   Headers and index together: let through exactly when every shard is good and the index is the
   relation its headers state; then the total is accounted for to the byte.
   */
  method AuditCheckpoint(files: map<string, File>, weightMap: map<string, string>)
    returns (ok: bool, shards: map<string, Shard>, total: int)
    requires forall s <- files :: DistinctFields(files[s].header)
    ensures ok <==> (forall s <- files :: FileOk(s, files[s])) && Agrees(AllNames(files), weightMap)
    ensures ok ==> shards.Keys == files.Keys && forall s <- files :: Audited(files[s], shards[s])
    ensures ok ==> total == SumSet(files.Keys, FileSizes(files))
    ensures ok ==>
              total == SumSet(shards.Keys, Overhead(shards)) + SumSet(weightMap.Keys, Indexed(shards, weightMap))
  {
    ok, shards, total := AuditFiles(files);
    if !ok {
      return;
    }
    EveryShardShown(files, shards, total);
    NamesAgree(files, shards, total);
    ok := ValidateAgreement(map s | s in shards :: shards[s].tensors.Keys, weightMap);
    if ok {
      TotalFromIndex(files, shards, total, weightMap);
    }
  }
}

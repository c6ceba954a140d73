/** The receipt that full verification writes and the launcher checks (verify_files.py, guard.py). */
module Receipts {
  import opened Common
  import opened Sums
  import opened Sorting
  import CheckpointIndex
  import Launcher

  const RECEIPT_KIND := "CHECKPOINT_VERIFIED"
  /** The launcher reads no JSON document longer than this. */
  const MAX_JSON_BYTES := 16777216

  // ------------------------------------------------------------------
  // Files and hashes
  // ------------------------------------------------------------------

  datatype Stat = Stat(dev: int, inode: int, size: int, mtime: int, ctime: int)

  /**
   A file under the root. `plain`: regular, with no link anywhere on its path. `inside`: regular,
   not itself a link, and resolving to somewhere under the root.
   */
  datatype FileInfo = FileInfo(plain: bool, inside: bool, stat: Stat, content: Bytes)

  type Tree = map<string, FileInfo>

  ghost predicate TreeOk(t: Tree) { forall p <- t :: t[p].plain ==> t[p].inside }

  /** SHA-256 of a file and its Git blob hash, as hex strings. */
  datatype Hashes = Hashes(sha256: Bytes -> string, gitBlob: Bytes -> string)

  ghost predicate HashesOk(h: Hashes) {
    forall b :: Launcher.IsHex(h.sha256(b), 64) && Launcher.IsHex(h.gitBlob(b), 40)
  }

  /** Hashes exactly `size` bytes read in any cuts; fails if the file is shorter or longer. */
  method HashFile(content: Bytes, size: nat, cut: nat -> nat, h: Hashes) returns (r: Option<string>)
    requires forall i :: cut(i) > 0
    ensures r == if |content| == size then Some(h.sha256(content)) else None
  {
    var hashed: Bytes := [];
    var remaining, turn := size, 0;
    while remaining > 0
      invariant 0 <= remaining && remaining + |hashed| == size && |hashed| <= |content|
      invariant hashed == content[..|hashed|]
    {
      var want := if cut(turn) < remaining then cut(turn) else remaining;
      var left := |content| - |hashed|;
      var n := if want < left then want else left;
      if n == 0 {
        return None;
      }
      hashed := hashed + content[|hashed|..|hashed| + n];
      remaining, turn := remaining - n, turn + 1;
    }
    if |hashed| < |content| {
      return None;
    }
    assert hashed == content;
    r := Some(h.sha256(hashed));
  }

  // ------------------------------------------------------------------
  // The lock, as each side admits it
  // ------------------------------------------------------------------

  datatype LockRow = LockRow(path: string, size: Option<int>, sha256: Option<string>, gitBlob: Option<string>)

  datatype Lock = Lock(id: string, sha: string, rows: seq<LockRow>)

  predicate PartsPlain(name: string) {
    forall part <- CheckpointIndex.SplitSlash(name) :: part !in ["", ".", ".."]
  }

  predicate GuardName(name: string) {
    && name != "" && name[0] != '/' && '\\' !in name
    && (name == "." || PartsPlain(name))
    && forall i :: 0 <= i < |name| ==> name[i] as int >= 32
  }

  predicate HexAnyCase(s: string, n: nat) {
    |s| == n && forall i :: 0 <= i < |s| ==> '0' <= s[i] <= '9' || 'a' <= s[i] <= 'f' || 'A' <= s[i] <= 'F'
  }

  predicate SizeOk(size: Option<int>) { size.Some? && size.value >= 0 }

  predicate VerifyRow(row: LockRow) {
    && CheckpointIndex.SafeRelpath(row.path)
    && (row.sha256.Some? || row.gitBlob.Some?)
    && (row.sha256.Some? ==> HexAnyCase(row.sha256.value, 64))
    && (row.gitBlob.Some? ==> HexAnyCase(row.gitBlob.value, 40))
    && SizeOk(row.size)
  }

  predicate GuardRow(row: LockRow) {
    && GuardName(row.path)
    && SizeOk(row.size)
    && if row.sha256.Some? then Launcher.IsHex(row.sha256.value, 64)
       else row.gitBlob.Some? && Launcher.IsHex(row.gitBlob.value, 40)
  }

  ghost predicate DistinctPaths(rows: seq<LockRow>) {
    forall i, j :: 0 <= i < j < |rows| ==> rows[i].path != rows[j].path
  }

  ghost predicate VerifyAdmits(lock: Lock) {
    && lock.id != "" && Launcher.IsHex(lock.sha, 40) && lock.rows != []
    && (forall i :: 0 <= i < |lock.rows| ==> VerifyRow(lock.rows[i]))
    && DistinctPaths(lock.rows)
  }

  ghost predicate GuardAdmits(lock: Lock) {
    && lock.id == MODEL_ID && Launcher.IsHex(lock.sha, 40) && lock.rows != []
    && (forall i :: 0 <= i < |lock.rows| ==> GuardRow(lock.rows[i]))
    && DistinctPaths(lock.rows)
  }

  /** The inventory: lock rows by path. */
  type Inventory = map<string, LockRow>

  ghost predicate InventoryOf(inv: Inventory, lock: Lock) {
    && (forall p <- inv :: inv[p] in lock.rows && inv[p].path == p)
    && (forall i :: 0 <= i < |lock.rows| ==> lock.rows[i].path in inv && inv[lock.rows[i].path] == lock.rows[i])
  }

  /** Collects rows by path, refusing a bad row or a repeated path. */
  method CollectRows(rows: seq<LockRow>, good: LockRow -> bool) returns (r: Option<Inventory>)
    ensures r.Some? <==> DistinctPaths(rows) && forall i :: 0 <= i < |rows| ==> good(rows[i])
    ensures r.Some? ==> forall id, sha :: InventoryOf(r.value, Lock(id, sha, rows))
  {
    var result: Inventory := map[];
    for i := 0 to |rows|
      invariant forall k :: 0 <= k < i ==> good(rows[k]) && rows[k].path in result && result[rows[k].path] == rows[k]
      invariant forall p <- result :: exists k :: 0 <= k < i && rows[k] == result[p] && result[p].path == p
      invariant DistinctPaths(rows[..i])
    {
      var row := rows[i];
      if !good(row) {
        return None;
      }
      if row.path in result {
        assert exists k :: 0 <= k < i && rows[k].path == row.path;
        return None;
      }
      result := result[row.path := row];
    }
    assert rows[..|rows|] == rows;
    r := Some(result);
  }

  /** `source_inventory` */
  method SourceInventory(lock: Lock) returns (r: Option<Inventory>)
    ensures r.Some? <==> GuardAdmits(lock)
    ensures r.Some? ==> InventoryOf(r.value, lock)
  {
    if lock.id != MODEL_ID || !Launcher.IsHex(lock.sha, 40) || lock.rows == [] {
      return None;
    }
    r := CollectRows(lock.rows, (row: LockRow) => GuardRow(row));
    assert lock == Lock(lock.id, lock.sha, lock.rows);
  }

  // ------------------------------------------------------------------
  // Receipts
  // ------------------------------------------------------------------

  /** A receipt row; a stat field that is not an integer makes the whole stat None. */
  datatype Row = Row(path: string, stat: Option<Stat>, sha256: Option<string>, gitBlob: Option<string>)

  datatype Receipt = Receipt(
    kind: string, root: string, id: string, sha: string,
    fileCount: Option<int>, totalBytes: Option<int>, rows: seq<Row>)

  function RowSize(row: Row): (n: int) { if row.stat.Some? then row.stat.value.size else 0 }

  function TotalSize(rows: seq<Row>): (n: int) {
    if rows == [] then 0 else TotalSize(rows[..|rows| - 1]) + RowSize(rows[|rows| - 1])
  }

  /** What the launcher asks of one row. */
  predicate RowOk(row: Row, want: LockRow, tree: Tree) {
    && row.path in tree && tree[row.path].inside
    && row.stat == Some(tree[row.path].stat)
    && want.size == Some(RowSize(row))
    && row.sha256.Some? && Launcher.IsHex(row.sha256.value, 64)
    && (want.sha256.Some? ==> row.sha256 == want.sha256)
    && (want.sha256.None? ==> row.gitBlob == want.gitBlob)
  }

  predicate RowFine(row: Row, inv: Inventory, tree: Tree) {
    row.path in inv && RowOk(row, inv[row.path], tree)
  }

  predicate AllFine(rows: seq<Row>, inv: Inventory, tree: Tree) { forall row <- rows :: RowFine(row, inv, tree) }

  function Paths(rows: seq<Row>): (r: set<string>) {
    set i | 0 <= i < |rows| :: rows[i].path
  }

  /** What the launcher asks of a receipt, given the lock's inventory. */
  ghost predicate Matches(r: Receipt, lock: Lock, inv: Inventory, root: string, tree: Tree) {
    && r.kind == RECEIPT_KIND && r.root == root && r.id == lock.id && r.sha == lock.sha
    && r.fileCount == Some(|inv|) && |r.rows| == |inv| && Paths(r.rows) == inv.Keys
    && AllFine(r.rows, inv, tree)
    && r.totalBytes == Some(TotalSize(r.rows))
  }

  /** The row loop of `check_receipt` with its running total. */
  method CheckRows(rows: seq<Row>, inv: Inventory, tree: Tree) returns (ok: bool, total: int)
    requires forall i :: 0 <= i < |rows| ==> rows[i].path in inv
    ensures ok <==> AllFine(rows, inv, tree)
    ensures ok ==> total == TotalSize(rows)
  {
    total := 0;
    for i := 0 to |rows|
      invariant total == TotalSize(rows[..i])
      invariant AllFine(rows[..i], inv, tree)
    {
      if !RowOk(rows[i], inv[rows[i].path], tree) {
        assert !RowFine(rows[i], inv, tree);
        return false, 0;
      }
      assert rows[..i + 1][..i] == rows[..i];
      total := total + RowSize(rows[i]);
    }
    assert rows[..|rows|] == rows;
    ok := true;
  }

  /** Everything `check_receipt` asks, of a receipt whose text has the given length and digest. */
  ghost predicate Accepted(
    r: Receipt, textLen: nat, digestMatches: bool, lock: Lock, inv: Inventory, root: string, tree: Tree)
  {
    textLen <= MAX_JSON_BYTES && digestMatches && GuardAdmits(lock) && Matches(r, lock, inv, root, tree)
  }

  /** Accepts exactly the receipts that can be read and match the lock's inventory. */
  method CheckReceipt(
    r: Receipt, textLen: nat, digestMatches: bool, lock: Lock, ghost inv: Inventory, root: string, tree: Tree)
    returns (ok: bool)
    requires GuardAdmits(lock) ==> InventoryOf(inv, lock)
    ensures ok <==> Accepted(r, textLen, digestMatches, lock, inv, root, tree)
  {
    if textLen > MAX_JSON_BYTES || !digestMatches {
      return false;
    }
    var got := SourceInventory(lock);
    if got.None? {
      return false;
    }
    var inventory := got.value;
    InventoryUnique(inv, inventory, lock);
    if r.kind != RECEIPT_KIND || r.root != root || r.id != lock.id || r.sha != lock.sha {
      return false;
    }
    if r.fileCount != Some(|inventory|) || |r.rows| != |inventory| || Paths(r.rows) != inventory.Keys {
      return false;
    }
    forall i | 0 <= i < |r.rows| ensures r.rows[i].path in inventory {
      assert r.rows[i].path in Paths(r.rows);
    }
    var total;
    ok, total := CheckRows(r.rows, inventory, tree);
    ok := ok && r.totalBytes == Some(total);
  }

  lemma InventoryUnique(a: Inventory, b: Inventory, lock: Lock)
    requires InventoryOf(a, lock) && InventoryOf(b, lock)
    ensures a == b
  {
    forall p | p in a ensures p in b && a[p] == b[p] {
      var i :| 0 <= i < |lock.rows| && lock.rows[i] == a[p];
    }
    forall p | p in b ensures p in a {
      var i :| 0 <= i < |lock.rows| && lock.rows[i] == b[p];
    }
  }

  // ------------------------------------------------------------------
  // Accepted rows pair one to one with the lock
  // ------------------------------------------------------------------

  lemma {:induction false} AsManyPathsAsRows(rows: seq<Row>)
    ensures |Paths(rows)| <= |rows|
    ensures |Paths(rows)| == |rows| ==> forall i, j :: 0 <= i < j < |rows| ==> rows[i].path != rows[j].path
  {
    if rows != [] {
      var (past, x) := (rows[..|rows| - 1], rows[|rows| - 1]);
      AsManyPathsAsRows(past);
      PathsMore(past, x);
      assert past + [x] == rows;
      if x.path in Paths(past) {
        assert Paths(rows) == Paths(past);
      } else {
        assert |Paths(rows)| == |Paths(past)| + 1;
      }
    }
  }

  lemma PathsMore(past: seq<Row>, x: Row)
    ensures Paths(past + [x]) == Paths(past) + {x.path}
  {
    var all := past + [x];
    forall p ensures p in Paths(all) <==> p in Paths(past) + {x.path} {
      if p in Paths(past) {
        var i :| 0 <= i < |past| && past[i].path == p;
        assert all[i].path == p;
      }
      assert all[|past|].path == x.path;
    }
  }

  ghost function LockSizes(inv: Inventory): (f: string -> int) {
    p => if p in inv && inv[p].size.Some? then inv[p].size.value else 0
  }

  lemma {:induction false} TotalIsSum(rows: seq<Row>, inv: Inventory)
    requires forall i, j :: 0 <= i < j < |rows| ==> rows[i].path != rows[j].path
    requires forall i :: 0 <= i < |rows| ==> rows[i].path in inv && inv[rows[i].path].size == Some(RowSize(rows[i]))
    ensures TotalSize(rows) == SumSet(Paths(rows), LockSizes(inv))
  {
    if rows == [] {
      assert Paths(rows) == {};
    } else {
      var (past, x) := (rows[..|rows| - 1], rows[|rows| - 1]);
      TotalIsSum(past, inv);
      PathsMore(past, x);
      assert past + [x] == rows;
      assert x.path !in Paths(past);
      SumAdd(Paths(past), x.path, LockSizes(inv));
    }
  }

  /** An accepted receipt has each file of the lock in exactly one row, and the lock's byte total. */
  lemma AcceptedPairsWithLock(r: Receipt, lock: Lock, inv: Inventory, root: string, tree: Tree)
    requires Matches(r, lock, inv, root, tree)
    ensures forall i, j :: 0 <= i < j < |r.rows| ==> r.rows[i].path != r.rows[j].path
    ensures forall p <- inv :: exists i :: 0 <= i < |r.rows| && r.rows[i].path == p
    ensures r.totalBytes == Some(SumSet(inv.Keys, LockSizes(inv)))
  {
    AsManyPathsAsRows(r.rows);
    assert |inv.Keys| == |inv|;
    FineSizes(r.rows, inv, tree);
    TotalIsSum(r.rows, inv);
    forall p <- inv ensures exists i :: 0 <= i < |r.rows| && r.rows[i].path == p {
      assert p in Paths(r.rows);
    }
  }

  /** Acceptance does not depend on the order of the rows. */
  lemma RowOrderIrrelevant(a: Receipt, b: Receipt, lock: Lock, inv: Inventory, root: string, tree: Tree)
    requires multiset(a.rows) == multiset(b.rows) && b == a.(rows := b.rows)
    requires Matches(a, lock, inv, root, tree)
    ensures Matches(b, lock, inv, root, tree)
  {
    PermutedRows(a.rows, b.rows);
    AcceptedPairsWithLock(a, lock, inv, root, tree);
    FineSizes(b.rows, inv, tree);
    AsManyPathsAsRows(b.rows);
    assert |inv.Keys| == |inv|;
    TotalIsSum(b.rows, inv);
  }

  lemma FineSizes(rows: seq<Row>, inv: Inventory, tree: Tree)
    requires AllFine(rows, inv, tree)
    ensures forall i :: 0 <= i < |rows| ==> rows[i].path in inv && inv[rows[i].path].size == Some(RowSize(rows[i]))
  {
    forall i | 0 <= i < |rows|
      ensures rows[i].path in inv && inv[rows[i].path].size == Some(RowSize(rows[i]))
    {
      assert RowFine(rows[i], inv, tree);
    }
  }

  lemma PermutedRows(s: seq<Row>, t: seq<Row>)
    requires multiset(s) == multiset(t)
    ensures |s| == |t| && Paths(s) == Paths(t)
    ensures forall i :: 0 <= i < |t| ==> t[i] in s
  {
    assert |s| == |multiset(s)| && |t| == |multiset(t)|;
    forall x ensures x in s <==> x in t {
      assert (x in s <==> x in multiset(s)) && (x in t <==> x in multiset(t));
    }
    SubPaths(s, t);
    SubPaths(t, s);
  }

  lemma SubPaths(s: seq<Row>, t: seq<Row>)
    requires forall x <- s :: x in t
    ensures Paths(s) <= Paths(t)
  {
    forall p | p in Paths(s) ensures p in Paths(t) {
      var i :| 0 <= i < |s| && s[i].path == p;
      assert s[i] in t;
      var j :| 0 <= j < |t| && t[j] == s[i];
    }
  }

  // ------------------------------------------------------------------
  // What verification writes is accepted
  // ------------------------------------------------------------------

  /** The content of a file is what the lock pins, and the file is the same after hashing. */
  predicate FileGood(want: LockRow, tree: Tree, after: Tree, h: Hashes) {
    && want.path in tree && tree[want.path].plain
    && want.path in after && after[want.path].plain && after[want.path].stat == tree[want.path].stat
    && var f := tree[want.path];
    && Some(f.stat.size) == want.size && |f.content| == f.stat.size
    && (want.sha256.Some? ==> h.sha256(f.content) == want.sha256.value)
    && (want.sha256.None? && want.gitBlob.Some? ==> h.gitBlob(f.content) == want.gitBlob.value)
  }

  function RowFor(want: LockRow, f: FileInfo, h: Hashes): (r: Row) {
    Row(want.path, Some(f.stat), Some(h.sha256(f.content)),
        if want.sha256.None? && want.gitBlob.Some? then Some(h.gitBlob(f.content)) else None)
  }

  predicate RowRight(row: Row, inv: Inventory, tree: Tree, h: Hashes) {
    row.path in inv && row.path in tree && row == RowFor(inv[row.path], tree[row.path], h)
  }

  /** A receipt for this lock with a row for every file of it, each once. */
  ghost predicate Attests(r: Receipt, lock: Lock, inv: Inventory, root: string, tree: Tree, h: Hashes) {
    && r.kind == RECEIPT_KIND && r.root == root && r.id == lock.id && r.sha == lock.sha
    && r.fileCount == Some(|inv|) && r.totalBytes == Some(TotalSize(r.rows))
    && |r.rows| == |inv| && Paths(r.rows) == inv.Keys
    && forall i :: 0 <= i < |r.rows| ==> RowRight(r.rows[i], inv, tree, h)
  }

  /** Reads, hashes and compares one file; `after` is the tree as the second look finds it. */
  method VerifyOne(want: LockRow, tree: Tree, after: Tree, h: Hashes, cut: nat -> nat) returns (r: Option<Row>)
    requires forall i :: cut(i) > 0
    requires SizeOk(want.size)
    ensures r.Some? <==> FileGood(want, tree, after, h)
    ensures r.Some? ==> r.value == RowFor(want, tree[want.path], h)
  {
    if want.path !in tree || !tree[want.path].plain || Some(tree[want.path].stat.size) != want.size {
      return None;
    }
    var file := tree[want.path];
    var sha := HashFile(file.content, file.stat.size, cut, h);
    if sha.None? {
      return None;
    }
    if want.path !in after || !after[want.path].plain || after[want.path].stat != file.stat {
      return None;
    }
    if want.sha256.Some? && sha != want.sha256 {
      return None;
    }
    if want.sha256.None? && want.gitBlob.Some? && h.gitBlob(file.content) != want.gitBlob.value {
      return None;
    }
    r := Some(RowFor(want, file, h));
  }

  predicate Named(p: string, inv: Inventory) { p in inv && SizeOk(inv[p].size) && inv[p].path == p }

  predicate Good(p: string, inv: Inventory, tree: Tree, after: Tree, h: Hashes) {
    p in inv && FileGood(inv[p], tree, after, h)
  }

  /** One row per path, in the order of the paths. */
  ghost predicate RowsFor(rows: seq<Row>, order: seq<string>, inv: Inventory, tree: Tree, h: Hashes) {
    && |rows| == |order|
    && forall k :: 0 <= k < |rows| ==> rows[k].path == order[k] && RowRight(rows[k], inv, tree, h)
  }

  /** Verifies file after file; one failure is a failure. */
  method VerifyRows(inv: Inventory, order: seq<string>, tree: Tree, after: Tree, h: Hashes, cut: nat -> nat)
    returns (rows: Option<seq<Row>>, total: int)
    requires forall i :: cut(i) > 0
    requires forall k :: 0 <= k < |order| ==> Named(order[k], inv)
    ensures rows.Some? <==> forall k :: 0 <= k < |order| ==> Good(order[k], inv, tree, after, h)
    ensures rows.Some? ==> RowsFor(rows.value, order, inv, tree, h) && total == TotalSize(rows.value)
  {
    var verified: seq<Row> := [];
    total := 0;
    for k := 0 to |order|
      invariant RowsFor(verified, order[..k], inv, tree, h) && total == TotalSize(verified)
      invariant forall i :: 0 <= i < k ==> Good(order[i], inv, tree, after, h)
    {
      var rel := order[k];
      assert Named(rel, inv);
      var got := VerifyOne(inv[rel], tree, after, h, cut);
      if got.None? {
        assert !Good(rel, inv, tree, after, h);
        return None, 0;
      }
      assert (verified + [got.value])[..|verified|] == verified;
      verified := verified + [got.value];
      total := total + RowSize(got.value);
    }
    assert order[..|order|] == order;
    rows := Some(verified);
  }

  // ------------------------------------------------------------------
  // The order of the rows
  // ------------------------------------------------------------------

  /** Strings compare character by character. */
  predicate PathLeq(a: string, b: string) {
    a == "" || (b != "" && (a[0] < b[0] || (a[0] == b[0] && PathLeq(a[1..], b[1..]))))
  }

  lemma {:induction false} PathTotal(a: string, b: string)
    ensures PathLeq(a, b) || PathLeq(b, a)
    ensures PathLeq(a, b) && PathLeq(b, a) ==> a == b
  {
    if a != "" && b != "" && a[0] == b[0] {
      PathTotal(a[1..], b[1..]);
      assert a == [a[0]] + a[1..] && b == [b[0]] + b[1..];
    }
  }

  lemma {:induction false} PathTransitive(a: string, b: string, c: string)
    requires PathLeq(a, b) && PathLeq(b, c)
    ensures PathLeq(a, c)
  {
    if a != "" && a[0] == b[0] == c[0] {
      PathTransitive(a[1..], b[1..], c[1..]);
    }
  }

  lemma PathOrder()
    ensures IsTotalOrder(PathLeq)
  {
    forall a, b ensures PathLeq(a, b) || PathLeq(b, a) {
      PathTotal(a, b);
    }
    forall a, b | PathLeq(a, b) && PathLeq(b, a) ensures a == b {
      PathTotal(a, b);
    }
    forall a, b, c | PathLeq(a, b) && PathLeq(b, c) ensures PathLeq(a, c) {
      PathTransitive(a, b, c);
    }
  }

  function LockPaths(rows: seq<LockRow>): (r: seq<string>)
    ensures |r| == |rows|
  {
    seq(|rows|, i requires 0 <= i < |rows| => rows[i].path)
  }

  lemma {:induction false} DistinctSize(s: seq<string>)
    requires forall i, j :: 0 <= i < j < |s| ==> s[i] != s[j]
    ensures |set x | x in s| == |s|
  {
    if s != [] {
      var n := |s| - 1;
      DistinctSize(s[..n]);
      assert s == s[..n] + [s[n]];
      assert (set x | x in s) == (set x | x in s[..n]) + {s[n]};
    }
  }

  lemma PathsAreKeys(lock: Lock, inv: Inventory)
    requires InventoryOf(inv, lock)
    ensures (set p | p in LockPaths(lock.rows)) == inv.Keys
  {
    var paths := LockPaths(lock.rows);
    forall p ensures p in paths <==> p in inv.Keys {
      if p in inv {
        var i :| 0 <= i < |lock.rows| && lock.rows[i] == inv[p];
        assert paths[i] == p;
      }
    }
  }

  /** The sorted paths are the inventory's, each once. */
  lemma SortedPaths(lock: Lock, inv: Inventory)
    requires InventoryOf(inv, lock) && DistinctPaths(lock.rows)
    ensures
      var order := Sort(LockPaths(lock.rows), PathLeq);
      Ordered(order, PathLeq) && |order| == |inv| && forall p :: p in order <==> p in inv
  {
    var paths := LockPaths(lock.rows);
    PathOrder();
    SortOrdered(paths, PathLeq);
    SortMembers(paths, PathLeq);
    DistinctSize(paths);
    PathsAreKeys(lock, inv);
    assert |inv.Keys| == |inv|;
    assert forall p :: p in paths <==> p in (set q | q in paths);
  }

  lemma RowsForPaths(rows: seq<Row>, order: seq<string>, inv: Inventory, tree: Tree, h: Hashes)
    requires RowsFor(rows, order, inv, tree, h) && forall p :: p in order <==> p in inv
    ensures Paths(rows) == inv.Keys
  {
    forall p ensures p in Paths(rows) <==> p in inv.Keys {
      if p in inv {
        var k :| 0 <= k < |order| && order[k] == p;
        assert rows[k].path == p;
      }
    }
  }

  // ------------------------------------------------------------------
  // The whole verification
  // ------------------------------------------------------------------

  ghost predicate AllGood(inv: Inventory, tree: Tree, after: Tree, h: Hashes) {
    forall p <- inv :: FileGood(inv[p], tree, after, h)
  }

  ghost predicate InPathOrder(rows: seq<Row>) {
    forall i, j :: 0 <= i < j < |rows| ==> PathLeq(rows[i].path, rows[j].path)
  }

  /**
   Full verification: every file of the lock is read, hashed, compared and looked at again; the
   receipt lists them all in the order of their paths. `cut` is how reads are cut.
   */
  method VerifyFiles(
    lock: Lock, ghost inv: Inventory, root: string, tree: Tree, after: Tree, h: Hashes, cut: nat -> nat)
    returns (r: Option<Receipt>)
    requires forall i :: cut(i) > 0
    requires VerifyAdmits(lock) ==> InventoryOf(inv, lock)
    ensures r.Some? <==> VerifyAdmits(lock) && AllGood(inv, tree, after, h)
    ensures r.Some? ==> Attests(r.value, lock, inv, root, tree, h) && InPathOrder(r.value.rows)
  {
    if lock.id == "" || !Launcher.IsHex(lock.sha, 40) || lock.rows == [] {
      return None;
    }
    var got := CollectRows(lock.rows, (row: LockRow) => VerifyRow(row));
    if got.None? {
      return None;
    }
    assert lock == Lock(lock.id, lock.sha, lock.rows);
    InventoryUnique(inv, got.value, lock);
    r := VerifyInventory(lock, got.value, root, tree, after, h, cut);
  }

  /** The file loop and the receipt, once the inventory is collected. */
  method VerifyInventory(
    lock: Lock, inv: Inventory, root: string, tree: Tree, after: Tree, h: Hashes, cut: nat -> nat)
    returns (r: Option<Receipt>)
    requires forall i :: cut(i) > 0
    requires VerifyAdmits(lock) && InventoryOf(inv, lock)
    ensures r.Some? <==> AllGood(inv, tree, after, h)
    ensures r.Some? ==> Attests(r.value, lock, inv, root, tree, h) && InPathOrder(r.value.rows)
  {
    NamedRows(inv, lock);
    SortedPaths(lock, inv);
    var order := Sort(LockPaths(lock.rows), PathLeq);
    var rows, total := VerifyRows(inv, order, tree, after, h, cut);
    GoodByOrder(inv, order, tree, after, h);
    if rows.None? {
      return None;
    }
    RowsForPaths(rows.value, order, inv, tree, h);
    r := Some(Receipt(RECEIPT_KIND, root, lock.id, lock.sha, Some(|rows.value|), Some(total), rows.value));
  }

  lemma GoodByOrder(inv: Inventory, order: seq<string>, tree: Tree, after: Tree, h: Hashes)
    requires forall p :: p in order <==> p in inv
    ensures AllGood(inv, tree, after, h) <==>
            forall k :: 0 <= k < |order| ==> Good(order[k], inv, tree, after, h)
  {
    if forall k :: 0 <= k < |order| ==> Good(order[k], inv, tree, after, h) {
      forall p <- inv ensures FileGood(inv[p], tree, after, h) {
        var k :| 0 <= k < |order| && order[k] == p;
      }
    }
  }

  lemma NamedRows(inv: Inventory, lock: Lock)
    requires VerifyAdmits(lock) && InventoryOf(inv, lock)
    ensures forall p <- inv :: Named(p, inv)
  {
    forall p <- inv ensures Named(p, inv) {
      var i :| 0 <= i < |lock.rows| && lock.rows[i] == inv[p];
      assert VerifyRow(lock.rows[i]);
    }
  }

  /** While the tree is unchanged, what verification wrote matches the lock and the tree. */
  lemma VerifiedMatches(r: Receipt, lock: Lock, inv: Inventory, root: string, tree: Tree, h: Hashes)
    requires HashesOk(h) && TreeOk(tree)
    requires VerifyAdmits(lock) && GuardAdmits(lock) && InventoryOf(inv, lock)
    requires AllGood(inv, tree, tree, h)
    requires Attests(r, lock, inv, root, tree, h)
    ensures Matches(r, lock, inv, root, tree)
  {
    forall row <- r.rows ensures RowFine(row, inv, tree) {
      var p := row.path;
      assert FileGood(inv[p], tree, tree, h);
      assert Launcher.IsHex(h.sha256(tree[p].content), 64);
    }
  }

  /**
   While the tree is unchanged, the launcher accepts what verification wrote exactly when it admits
   the lock and the text of the receipt is not too long for it to read.
   */
  lemma VerifiedIsAccepted(
    r: Receipt, textLen: nat, lock: Lock, inv: Inventory, root: string, tree: Tree, h: Hashes)
    requires HashesOk(h) && TreeOk(tree)
    requires VerifyAdmits(lock) && InventoryOf(inv, lock)
    requires AllGood(inv, tree, tree, h)
    requires Attests(r, lock, inv, root, tree, h)
    ensures Accepted(r, textLen, true, lock, inv, root, tree) <==> GuardAdmits(lock) && textLen <= MAX_JSON_BYTES
  {
    if GuardAdmits(lock) {
      VerifiedMatches(r, lock, inv, root, tree, h);
    }
  }

  /**
   Verification followed by the launcher's check of the receipt under its own digest, on an
   unchanged tree. `textLen` is the length of a receipt as it is written.
   */
  method VerifyThenCheck(
    lock: Lock, ghost inv: Inventory, root: string, tree: Tree, h: Hashes, cut: nat -> nat, textLen: Receipt -> nat)
    returns (receipt: Option<Receipt>, accepted: bool)
    requires forall i :: cut(i) > 0
    requires HashesOk(h) && TreeOk(tree)
    requires VerifyAdmits(lock) || GuardAdmits(lock) ==> InventoryOf(inv, lock)
    ensures receipt.Some? <==> VerifyAdmits(lock) && AllGood(inv, tree, tree, h)
    ensures accepted <==> receipt.Some? && GuardAdmits(lock) && textLen(receipt.value) <= MAX_JSON_BYTES
  {
    receipt := VerifyFiles(lock, inv, root, tree, tree, h, cut);
    if receipt.None? {
      return receipt, false;
    }
    accepted := CheckReceipt(receipt.value, textLen(receipt.value), true, lock, inv, root, tree);
    VerifiedIsAccepted(receipt.value, textLen(receipt.value), lock, inv, root, tree, h);
  }
}

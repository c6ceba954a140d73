/** What an accepted receipt says, file by file, and what verification found when it wrote one. */
module ReceiptFields {
  import opened Common
  import opened Sums
  import opened Sorting
  import opened Receipts
  import Cardinality
  import Launcher

  // ------------------------------------------------------------------
  // Acceptance, said of receipt, lock and tree
  // ------------------------------------------------------------------

  predicate SameStat(a: Stat, b: Stat) {
    a.dev == b.dev && a.inode == b.inode && a.size == b.size && a.mtime == b.mtime && a.ctime == b.ctime
  }

  /** The row vouches for the locked file: it is there, unchanged, and its digest is the pinned one. */
  predicate Vouches(row: Row, want: LockRow, tree: Tree) {
    && row.path == want.path
    && want.path in tree && tree[want.path].inside
    && row.stat.Some? && SameStat(row.stat.value, tree[want.path].stat)
    && want.size == Some(tree[want.path].stat.size)
    && row.sha256.Some? && Launcher.IsHex(row.sha256.value, 64)
    && if want.sha256.Some? then row.sha256 == want.sha256 else row.gitBlob == want.gitBlob
  }

  lemma RowVouches(row: Row, want: LockRow, tree: Tree)
    requires row.path == want.path
    ensures RowOk(row, want, tree) <==> Vouches(row, want, tree)
  {
    if Vouches(row, want, tree) {
      assert row.stat.value == tree[want.path].stat;
    }
  }

  /** Some row vouches for every locked file, and there are no more rows than files. */
  ghost predicate VouchesForAll(rows: seq<Row>, lock: Lock, tree: Tree) {
    && |rows| == |lock.rows|
    && forall i :: 0 <= i < |lock.rows| ==> exists k :: 0 <= k < |rows| && Vouches(rows[k], lock.rows[i], tree)
  }

  lemma InventorySize(lock: Lock, inv: Inventory)
    requires InventoryOf(inv, lock) && DistinctPaths(lock.rows)
    ensures |inv| == |lock.rows|
  {
    SortedPaths(lock, inv);
    SortMembers(LockPaths(lock.rows), PathLeq);
  }

  lemma MatchesVouches(r: Receipt, lock: Lock, inv: Inventory, root: string, tree: Tree)
    requires GuardAdmits(lock) && InventoryOf(inv, lock) && Matches(r, lock, inv, root, tree)
    ensures VouchesForAll(r.rows, lock, tree)
  {
    InventorySize(lock, inv);
    forall i | 0 <= i < |lock.rows| ensures exists k :: 0 <= k < |r.rows| && Vouches(r.rows[k], lock.rows[i], tree) {
      var p := lock.rows[i].path;
      assert p in inv && p in Paths(r.rows);
      var k :| 0 <= k < |r.rows| && r.rows[k].path == p;
      assert RowFine(r.rows[k], inv, tree);
      RowVouches(r.rows[k], lock.rows[i], tree);
    }
  }

  lemma VouchedPaths(rows: seq<Row>, lock: Lock, inv: Inventory, tree: Tree)
    requires GuardAdmits(lock) && InventoryOf(inv, lock) && VouchesForAll(rows, lock, tree)
    ensures |rows| == |inv| && Paths(rows) == inv.Keys
    ensures forall i, j :: 0 <= i < j < |rows| ==> rows[i].path != rows[j].path
  {
    InventorySize(lock, inv);
    forall p | p in inv.Keys ensures p in Paths(rows) {
      var i :| 0 <= i < |lock.rows| && lock.rows[i] == inv[p];
      var k :| 0 <= k < |rows| && Vouches(rows[k], lock.rows[i], tree);
      assert rows[k].path == p;
    }
    AsManyPathsAsRows(rows);
    assert |inv.Keys| == |inv|;
    Cardinality.SubsetSize(inv.Keys, Paths(rows));
    Cardinality.FullSubset(inv.Keys, Paths(rows));
  }

  lemma VouchesFine(rows: seq<Row>, lock: Lock, inv: Inventory, tree: Tree)
    requires GuardAdmits(lock) && InventoryOf(inv, lock) && VouchesForAll(rows, lock, tree)
    ensures AllFine(rows, inv, tree)
  {
    VouchedPaths(rows, lock, inv, tree);
    forall row <- rows ensures RowFine(row, inv, tree) {
      var k :| 0 <= k < |rows| && rows[k] == row;
      assert row.path in Paths(rows);
      var i :| 0 <= i < |lock.rows| && lock.rows[i] == inv[row.path];
      var m :| 0 <= m < |rows| && Vouches(rows[m], lock.rows[i], tree);
      assert rows[m].path == row.path && m == k;
      RowVouches(row, lock.rows[i], tree);
    }
  }

  /** The names and totals a receipt must carry. */
  ghost predicate Heads(r: Receipt, lock: Lock, inv: Inventory, root: string) {
    && r.kind == "CHECKPOINT_VERIFIED" && r.root == root && r.id == lock.id && r.sha == lock.sha
    && r.fileCount == Some(|lock.rows|)
    && r.totalBytes == Some(SumSet(inv.Keys, LockSizes(inv)))
  }

  /**
   A receipt is accepted exactly when it can be read and has the digest, the lock is admitted, its
   head names the lock and its totals, and a row vouches for every locked file as it is now.
   */
  lemma AcceptedExactly(
    r: Receipt, textLen: nat, digestMatches: bool, lock: Lock, inv: Inventory, root: string, tree: Tree)
    requires GuardAdmits(lock) ==> InventoryOf(inv, lock)
    ensures Accepted(r, textLen, digestMatches, lock, inv, root, tree) <==>
            && textLen <= 16777216 && digestMatches && GuardAdmits(lock)
            && Heads(r, lock, inv, root) && VouchesForAll(r.rows, lock, tree)
  {
    if GuardAdmits(lock) {
      InventorySize(lock, inv);
      if Matches(r, lock, inv, root, tree) {
        MatchesVouches(r, lock, inv, root, tree);
        AcceptedPairsWithLock(r, lock, inv, root, tree);
      }
      if VouchesForAll(r.rows, lock, tree) {
        VouchedPaths(r.rows, lock, inv, tree);
        VouchesFine(r.rows, lock, inv, tree);
        FineSizes(r.rows, inv, tree);
        TotalIsSum(r.rows, inv);
      }
    }
  }

  // ------------------------------------------------------------------
  // A tree that has changed since
  // ------------------------------------------------------------------

  /**
   A receipt written on `tree` and checked on `later` is accepted only if every locked file is
   still there, inside the root, with the same device, inode, size and times.
   */
  lemma ChangedIsRefused(
    r: Receipt, textLen: nat, lock: Lock, inv: Inventory, root: string, tree: Tree, later: Tree, h: Hashes, p: string)
    requires VerifyAdmits(lock) && InventoryOf(inv, lock) && p in inv
    requires Attests(r, lock, inv, root, tree, h)
    requires Accepted(r, textLen, true, lock, inv, root, later)
    ensures p in tree && p in later && later[p].inside && SameStat(later[p].stat, tree[p].stat)
  {
    assert p in Paths(r.rows);
    var k :| 0 <= k < |r.rows| && r.rows[k].path == p;
    assert RowRight(r.rows[k], inv, tree, h);
    assert RowFine(r.rows[k], inv, later);
  }

  // ------------------------------------------------------------------
  // What verification found
  // ------------------------------------------------------------------

  /** The file is there with no link on its path, twice the same, and its bytes are the pinned ones. */
  predicate Found(want: LockRow, tree: Tree, after: Tree, h: Hashes) {
    && want.path in tree && tree[want.path].plain
    && want.path in after && after[want.path].plain && SameStat(after[want.path].stat, tree[want.path].stat)
    && var f := tree[want.path];
    && want.size == Some(f.stat.size) && f.stat.size == |f.content|
    && match want.sha256
       case Some(sha) => h.sha256(f.content) == sha
       case None => want.gitBlob.Some? ==> h.gitBlob(f.content) == want.gitBlob.value
  }

  lemma GoodIsFound(want: LockRow, tree: Tree, after: Tree, h: Hashes)
    ensures FileGood(want, tree, after, h) <==> Found(want, tree, after, h)
  {
    if Found(want, tree, after, h) {
      assert after[want.path].stat == tree[want.path].stat;
    }
  }

  /** Every row of a written receipt says what was found: the file's stat, and the hashes of its bytes. */
  lemma WrittenRow(r: Receipt, lock: Lock, inv: Inventory, root: string, tree: Tree, h: Hashes, p: string)
    requires InventoryOf(inv, lock) && Attests(r, lock, inv, root, tree, h) && p in inv
    ensures p in tree
    ensures exists k :: 0 <= k < |r.rows| && r.rows[k] == Row(
              p, Some(tree[p].stat), Some(h.sha256(tree[p].content)),
              if inv[p].sha256.None? && inv[p].gitBlob.Some? then Some(h.gitBlob(tree[p].content)) else None)
  {
    assert p in Paths(r.rows);
    var k :| 0 <= k < |r.rows| && r.rows[k].path == p;
    assert RowRight(r.rows[k], inv, tree, h);
  }
}

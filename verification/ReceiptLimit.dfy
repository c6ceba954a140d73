/** The launcher's limit on the length of a receipt, and a lock whose receipt is over it. */
module ReceiptLimit {
  import opened Common
  import opened Sorting
  import opened TensorNames
  import opened Receipts
  import CheckpointIndex
  import Launcher

  /**
   The least a receipt row takes as it is written: its braces, its eleven keys with their
   indentation, one digit per number, a path of one character and the digests that are never null.
   */
  const ROW_TEXT_MIN := 388

  /** A text that spells out every row. */
  ghost predicate SpellsRows(textLen: Receipt -> nat) { forall r :: textLen(r) >= ROW_TEXT_MIN * |r.rows| }

  /** With more files than this, no receipt can be read. */
  const MAX_FILES := 43240

  /** A lock of many files: its receipt is written and then refused, on an unchanged tree. */
  lemma ManyFilesRefused(
    r: Receipt, textLen: Receipt -> nat, lock: Lock, inv: Inventory, root: string, tree: Tree, h: Hashes)
    requires SpellsRows(textLen) && |inv| > MAX_FILES
    requires Attests(r, lock, inv, root, tree, h)
    ensures !Accepted(r, textLen(r), true, lock, inv, root, tree)
  {
    assert textLen(r) >= ROW_TEXT_MIN * |r.rows|;
  }

  // ------------------------------------------------------------------
  // Such a lock
  // ------------------------------------------------------------------

  function AsciiDigit(c: char): (r: Option<nat>) {
    if '0' <= c <= '9' then Some(c as nat - '0' as nat) else None
  }

  lemma DecimalDigits(n: nat)
    ensures forall i :: 0 <= i < |Decimal(n)| ==> '0' <= Decimal(n)[i] <= '9'
    ensures Value(Decimal(n), AsciiDigit) == n
  {
    DecimalValue(n, AsciiDigit);
    forall i | 0 <= i < |Decimal(n)| ensures '0' <= Decimal(n)[i] <= '9' {
      assert AsciiDigit(Decimal(n)[i]).Some?;
    }
  }

  function Pow10(k: nat): (p: nat) { if k == 0 then 1 else 10 * Pow10(k - 1) }

  lemma {:induction false} DecimalShort(n: nat, k: nat)
    requires k > 0 && n < Pow10(k)
    ensures |Decimal(n)| <= k
  {
    if n >= 10 {
      DecimalShort(n / 10, k - 1);
    }
  }

  lemma {:induction false} NoSlash(s: string)
    requires '/' !in s
    ensures CheckpointIndex.SplitSlash(s) == [s]
  {
    if s != "" {
      NoSlash(s[1..]);
      assert s == [s[0]] + s[1..];
    }
  }

  /** Short decimal names are names for both sides. */
  lemma DecimalNames(n: nat)
    requires n < 100000
    ensures CheckpointIndex.SafeRelpath(Decimal(n)) && GuardName(Decimal(n))
  {
    var s := Decimal(n);
    DecimalDigits(n);
    assert Pow10(5) == 100000;
    DecimalShort(n, 5);
    assert '/' !in s && '\\' !in s && '\0' !in s;
    NoSlash(s);
    assert s[0] != '.';
  }

  function BigRow(path: string, sha: string): (row: LockRow) { LockRow(path, Some(0), Some(sha), None) }

  /** A lock of `n` empty files. */
  function BigLock(n: nat, revision: string, sha: string): (lock: Lock) {
    Lock(MODEL_ID, revision, seq(n, i requires 0 <= i => BigRow(Decimal(i), sha)))
  }

  function BigInventory(n: nat, sha: string): (inv: Inventory) {
    map p | p in LockPaths(BigLock(n, "", sha).rows) :: BigRow(p, sha)
  }

  function BigTree(n: nat, sha: string): (tree: Tree) {
    map p | p in LockPaths(BigLock(n, "", sha).rows) :: FileInfo(true, true, Stat(0, 0, 0, 0, 0), [])
  }

  lemma BigDistinct(n: nat, revision: string, sha: string)
    ensures DistinctPaths(BigLock(n, revision, sha).rows)
  {
    forall i, j | 0 <= i < j < n ensures Decimal(i) != Decimal(j) {
      DecimalDigits(i);
      DecimalDigits(j);
    }
  }

  lemma BigInventoryOf(n: nat, revision: string, sha: string)
    ensures InventoryOf(BigInventory(n, sha), BigLock(n, revision, sha))
  {
    var (inv, rows) := (BigInventory(n, sha), BigLock(n, revision, sha).rows);
    var paths := LockPaths(rows);
    assert rows == BigLock(n, "", sha).rows;
    forall p <- inv ensures inv[p] in rows && inv[p].path == p {
      var i :| 0 <= i < n && paths[i] == p;
      assert rows[i] == inv[p];
    }
    forall i | 0 <= i < n ensures rows[i].path in inv && inv[rows[i].path] == rows[i] {
      assert paths[i] in paths;
    }
  }

  lemma BigSize(n: nat, revision: string, sha: string)
    ensures |BigInventory(n, sha)| == n
  {
    var (lock, inv) := (BigLock(n, revision, sha), BigInventory(n, sha));
    BigDistinct(n, revision, sha);
    BigInventoryOf(n, revision, sha);
    SortedPaths(lock, inv);
    SortMembers(LockPaths(lock.rows), PathLeq);
  }

  lemma BigAdmitted(n: nat, revision: string, sha: string)
    requires 0 < n < 100000 && Launcher.IsHex(revision, 40) && Launcher.IsHex(sha, 64)
    ensures VerifyAdmits(BigLock(n, revision, sha)) && GuardAdmits(BigLock(n, revision, sha))
  {
    var rows := BigLock(n, revision, sha).rows;
    BigDistinct(n, revision, sha);
    forall i | 0 <= i < n ensures VerifyRow(rows[i]) && GuardRow(rows[i]) {
      DecimalNames(i);
    }
    assert MODEL_ID[0] == 'n';
  }

  lemma BigGood(n: nat, h: Hashes)
    ensures
      var sha := h.sha256([]);
      AllGood(BigInventory(n, sha), BigTree(n, sha), BigTree(n, sha), h) && TreeOk(BigTree(n, sha))
  {
  }

  /**
   For every hash and every way of writing receipts that spells out their rows there is a lock that
   both sides admit, with a tree in which every file is good, whose receipt the launcher refuses.
   */
  lemma RefusedReceipt(h: Hashes, textLen: Receipt -> nat, revision: string, r: Receipt, root: string)
    requires HashesOk(h) && SpellsRows(textLen) && Launcher.IsHex(revision, 40)
    ensures
      var (n, sha) := (MAX_FILES + 1, h.sha256([]));
      var (lock, inv, tree) := (BigLock(n, revision, sha), BigInventory(n, sha), BigTree(n, sha));
      && VerifyAdmits(lock) && GuardAdmits(lock) && InventoryOf(inv, lock)
      && TreeOk(tree) && AllGood(inv, tree, tree, h)
      && (Attests(r, lock, inv, root, tree, h) ==> !Accepted(r, textLen(r), true, lock, inv, root, tree))
  {
    var (n, sha) := (MAX_FILES + 1, h.sha256([]));
    var (lock, inv, tree) := (BigLock(n, revision, sha), BigInventory(n, sha), BigTree(n, sha));
    BigAdmitted(n, revision, sha);
    BigInventoryOf(n, revision, sha);
    BigSize(n, revision, sha);
    BigGood(n, h);
    if Attests(r, lock, inv, root, tree, h) {
      ManyFilesRefused(r, textLen, lock, inv, root, tree, h);
    }
  }
}

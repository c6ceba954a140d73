/** Which names are admitted, said of where they lead, and which locks. */
module SafePaths {
  import opened Common
  import opened CheckpointIndex
  import opened Receipts
  import Launcher

  // ------------------------------------------------------------------
  // Parts of a path
  // ------------------------------------------------------------------

  function JoinSlash(parts: seq<string>): (s: string)
    requires parts != []
  {
    if |parts| == 1 then parts[0] else parts[0] + ("/" + JoinSlash(parts[1..]))
  }

  /** The parts are what lies between the slashes. */
  lemma {:induction false} PartsAre(s: string)
    ensures JoinSlash(SplitSlash(s)) == s
    ensures forall part <- SplitSlash(s) :: '/' !in part
  {
    if s != "" {
      PartsAre(s[1..]);
      var rest := SplitSlash(s[1..]);
      if s[0] == '/' {
        assert ([""] + rest)[1..] == rest;
        assert "" + ("/" + s[1..]) == s;
      } else {
        var head := [s[0]] + rest[0];
        assert ([head] + rest[1..])[1..] == rest[1..];
        if |rest| > 1 {
          assert head + ("/" + JoinSlash(rest[1..])) == [s[0]] + s[1..];
        }
      }
    }
  }

  /** Where a path leads, part by part: `..` goes up, `.` and nothing stay. */
  function Follow(at: seq<string>, parts: seq<string>): (r: seq<string>)
    decreases |parts|
  {
    if parts == [] then at
    else if parts[0] == ".." then Follow(if at == [] then [] else at[..|at| - 1], parts[1..])
    else if parts[0] == "." || parts[0] == "" then Follow(at, parts[1..])
    else Follow(at + [parts[0]], parts[1..])
  }

  lemma {:induction false} PlainPartsStay(at: seq<string>, parts: seq<string>)
    requires forall part <- parts :: part !in ["", ".", ".."]
    ensures Follow(at, parts) == at + parts
    decreases |parts|
  {
    if parts == [] {
      assert at + parts == at;
    } else {
      assert parts[0] !in ["", ".", ".."];
      PlainPartsStay(at + [parts[0]], parts[1..]);
      assert at + [parts[0]] + parts[1..] == at + parts;
    }
  }

  lemma {:induction false} StayingIsPlain(at: seq<string>, parts: seq<string>)
    requires Follow(at, parts) == at + parts
    ensures forall part <- parts :: part !in ["", ".", ".."]
    decreases |parts|
  {
    if parts != [] {
      FollowShrinks(at, parts);
      if parts[0] !in ["", ".", ".."] {
        assert at + parts == at + [parts[0]] + parts[1..];
        StayingIsPlain(at + [parts[0]], parts[1..]);
      }
    }
  }

  /** A path never leads further down than it has parts, and less far with every part that is not plain. */
  lemma {:induction false} FollowShrinks(at: seq<string>, parts: seq<string>)
    ensures |Follow(at, parts)| <= |at| + |parts|
    ensures parts != [] && parts[0] in ["", ".", ".."] ==> |Follow(at, parts)| < |at| + |parts|
    decreases |parts|
  {
    if parts != [] {
      FollowShrinks(
        if parts[0] == ".." then (if at == [] then [] else at[..|at| - 1])
        else if parts[0] == "." || parts[0] == "" then at else at + [parts[0]],
        parts[1..]);
    }
  }

  /** From any directory the name leads to the place below it that its parts spell. */
  predicate StaysBelow(root: seq<string>, name: string) {
    Follow(root, SplitSlash(name)) == root + SplitSlash(name)
  }

  lemma StaysExactly(root: seq<string>, name: string)
    ensures StaysBelow(root, name) <==> forall part <- SplitSlash(name) :: part !in ["", ".", ".."]
  {
    if StaysBelow(root, name) {
      StayingIsPlain(root, SplitSlash(name));
    } else if forall part <- SplitSlash(name) :: part !in ["", ".", ".."] {
      PlainPartsStay(root, SplitSlash(name));
    }
  }

  /** A name is safe exactly when it stays below any directory, is not long and has no backslash or NUL. */
  lemma SafeExactly(root: seq<string>, name: string)
    ensures SafeRelpath(name) <==>
            0 < |name| <= 1024 && '\\' !in name && '\0' !in name && StaysBelow(root, name)
  {
    StaysExactly(root, name);
    LeadingSlash(name);
  }

  lemma LeadingSlash(name: string)
    ensures name != "" && name[0] == '/' ==> "" in SplitSlash(name)
  {
    if name != "" && name[0] == '/' {
      assert SplitSlash(name)[0] == "";
    }
  }

  /** The launcher's names, too, of any length and without control characters; it also lets the root through. */
  lemma GuardNameExactly(root: seq<string>, name: string)
    ensures GuardName(name) <==>
            && name != "" && '\\' !in name && (name == "." || StaysBelow(root, name))
            && forall i :: 0 <= i < |name| ==> name[i] as int >= 32
  {
    StaysExactly(root, name);
    LeadingSlash(name);
  }

  // ------------------------------------------------------------------
  // Locks
  // ------------------------------------------------------------------

  predicate Digits(s: string, n: nat, alphabet: string) { |s| == n && forall i :: 0 <= i < |s| ==> s[i] in alphabet }

  lemma LowerDigit(c: char)
    ensures c in "0123456789abcdef" <==> '0' <= c <= '9' || 'a' <= c <= 'f'
  {
    var digits := "0123456789abcdef";
    if '0' <= c <= '9' {
      assert digits[c as int - '0' as int] == c;
    } else if 'a' <= c <= 'f' {
      assert digits[c as int - 'a' as int + 10] == c;
    }
  }

  lemma AnyDigit(c: char)
    ensures c in "0123456789abcdefABCDEF" <==> c in "0123456789abcdef" || 'A' <= c <= 'F'
  {
    var (digits, lower) := ("0123456789abcdefABCDEF", "0123456789abcdef");
    assert digits[..16] == lower;
    assert digits == lower + digits[16..];
    if 'A' <= c <= 'F' {
      assert digits[c as int - 'A' as int + 16] == c;
    }
  }

  lemma HexIs(s: string, n: nat)
    ensures Launcher.IsHex(s, n) <==> Digits(s, n, "0123456789abcdef")
    ensures HexAnyCase(s, n) <==> Digits(s, n, "0123456789abcdefABCDEF")
  {
    forall i | 0 <= i < |s|
      ensures s[i] in "0123456789abcdef" <==> '0' <= s[i] <= '9' || 'a' <= s[i] <= 'f'
      ensures s[i] in "0123456789abcdefABCDEF" <==> s[i] in "0123456789abcdef" || 'A' <= s[i] <= 'F'
    {
      LowerDigit(s[i]);
      AnyDigit(s[i]);
    }
  }

  /** A digest, if there is one, has this many digits. */
  predicate DigestOk(d: Option<string>, n: nat, alphabet: string) { d.Some? ==> Digits(d.value, n, alphabet) }

  /** What verification asks of a lock row: a safe name, a size, and digests in hex of either case, at least one. */
  lemma VerifyRowExactly(row: LockRow)
    ensures VerifyRow(row) <==>
            && SafeRelpath(row.path) && row.size.Some? && row.size.value >= 0
            && !(row.sha256.None? && row.gitBlob.None?)
            && DigestOk(row.sha256, 64, "0123456789abcdefABCDEF")
            && DigestOk(row.gitBlob, 40, "0123456789abcdefABCDEF")
  {
    if row.sha256.Some? {
      HexIs(row.sha256.value, 64);
    }
    if row.gitBlob.Some? {
      HexIs(row.gitBlob.value, 40);
    }
  }

  /** What the launcher asks: a name of its kind, a size, and a lower-case SHA-256, or else a Git blob. */
  lemma GuardRowExactly(row: LockRow)
    ensures GuardRow(row) <==>
            && GuardName(row.path) && row.size.Some? && row.size.value >= 0
            && !(row.sha256.None? && row.gitBlob.None?)
            && DigestOk(row.sha256, 64, "0123456789abcdef")
            && (row.sha256.None? ==> DigestOk(row.gitBlob, 40, "0123456789abcdef"))
  {
    if row.sha256.Some? {
      HexIs(row.sha256.value, 64);
    } else if row.gitBlob.Some? {
      HexIs(row.gitBlob.value, 40);
    }
  }

  /** The launcher's locks are for one model, at a revision, with rows of distinct paths. */
  lemma GuardAdmitsExactly(lock: Lock)
    ensures GuardAdmits(lock) <==>
            && lock.id == "nvidia/Qwen3.8-Flash-Next-NVFP4" && Digits(lock.sha, 40, "0123456789abcdef")
            && lock.rows != [] && (forall row <- lock.rows :: GuardRow(row))
            && forall i, j :: 0 <= i < j < |lock.rows| ==> lock.rows[i].path != lock.rows[j].path
  {
    HexIs(lock.sha, 40);
  }
}

/** The deduplicating tree walk that charges present bytes (scripts/preflight.py). */
module TreeWalk {
  import opened Common
  import opened Sums

  /** Device and inode number. */
  type Inode = (nat, nat)

  /** What `scandir` of a path gives. */
  datatype Listing = Entries(items: seq<Node>) | Missing | Unreadable

  /** One directory entry, links not followed; `Failing` raises when it is looked at. */
  datatype Node = Dir(sub: Listing) | File(id: Inode) | Symlink | Special | Failing

  datatype Stat = Stat(size: nat, blocks: nat)

  /** What a regular file is charged; hard links share one inode and so one charge. */
  function Charge(st: Stat, onDisk: bool): (n: nat) {
    if onDisk then st.blocks * 512 else st.size
  }

  // ------------------------------------------------------------------
  // What a tree holds
  // ------------------------------------------------------------------

  /** Regular files reachable without following links. */
  function Files(l: Listing): (r: set<Inode>) {
    if l.Entries? then FilesIn(l.items) else {}
  }

  function FilesIn(items: seq<Node>): (r: set<Inode>) {
    if items == [] then {} else FilesAt(items[0]) + FilesIn(items[1..])
  }

  function FilesAt(n: Node): (r: set<Inode>) {
    match n
    case Dir(sub) => Files(sub)
    case File(id) => {id}
    case _ => {}
  }

  /** Nothing reachable refuses to be read. */
  predicate Readable(l: Listing) {
    match l
    case Entries(items) => ReadableIn(items)
    case Missing => true
    case Unreadable => false
  }

  predicate ReadableIn(items: seq<Node>) {
    items == [] || (ReadableAt(items[0]) && ReadableIn(items[1..]))
  }

  predicate ReadableAt(n: Node) {
    match n
    case Dir(sub) => Readable(sub)
    case Failing => false
    case _ => true
  }

  /** Number of nodes. */
  function Size(l: Listing): (n: nat) {
    1 + if l.Entries? then SizeIn(l.items) else 0
  }

  function SizeIn(items: seq<Node>): (n: nat) {
    if items == [] then 0 else SizeAt(items[0]) + SizeIn(items[1..])
  }

  function SizeAt(n: Node): (k: nat) {
    1 + if n.Dir? then Size(n.sub) else 0
  }

  // ------------------------------------------------------------------
  // The work list
  // ------------------------------------------------------------------

  function StackFiles(stack: seq<Listing>): (r: set<Inode>) {
    if stack == [] then {} else StackFiles(stack[..|stack| - 1]) + Files(stack[|stack| - 1])
  }

  predicate StackReadable(stack: seq<Listing>) {
    stack == [] || (StackReadable(stack[..|stack| - 1]) && Readable(stack[|stack| - 1]))
  }

  function StackSize(stack: seq<Listing>): (n: nat) {
    if stack == [] then 0 else StackSize(stack[..|stack| - 1]) + Size(stack[|stack| - 1])
  }

  lemma Pushed(stack: seq<Listing>, l: Listing)
    ensures StackFiles(stack + [l]) == StackFiles(stack) + Files(l)
    ensures StackReadable(stack + [l]) == (StackReadable(stack) && Readable(l))
    ensures StackSize(stack + [l]) == StackSize(stack) + Size(l)
  {
    assert (stack + [l])[..|stack|] == stack;
  }

  ghost function ChargeOf(stat: Inode -> Stat, onDisk: bool): (f: Inode -> int) {
    id => Charge(stat(id), onDisk)
  }

  /** The walk's answer: the charge of every distinct file, or unknown. */
  ghost function PresentBytes(root: Option<Listing>, stat: Inode -> Stat, onDisk: bool): (r: Option<int>) {
    match root
    case None => Some(0)
    case Some(l) => if Readable(l) then Some(SumSet(Files(l), ChargeOf(stat, onDisk))) else None
  }

  /** The entries of one directory: count new files, push directories, give up on an error. */
  method WalkEntries(
    items: seq<Node>, stack0: seq<Listing>, seen0: set<Inode>, total0: int,
    stat: Inode -> Stat, onDisk: bool)
    returns (ok: bool, stack: seq<Listing>, seen: set<Inode>, total: int)
    requires total0 == SumSet(seen0, ChargeOf(stat, onDisk))
    ensures !ok ==> !ReadableIn(items)
    ensures ok ==>
              && seen + StackFiles(stack) == seen0 + StackFiles(stack0) + FilesIn(items)
              && StackReadable(stack) == (StackReadable(stack0) && ReadableIn(items))
              && StackSize(stack) <= StackSize(stack0) + SizeIn(items)
              && total == SumSet(seen, ChargeOf(stat, onDisk))
  {
    stack, seen, total := stack0, seen0, total0;
    assert items[0..] == items;
    for i := 0 to |items|
      invariant seen + StackFiles(stack) + FilesIn(items[i..]) == seen0 + StackFiles(stack0) + FilesIn(items)
      invariant (StackReadable(stack) && ReadableIn(items[i..])) == (StackReadable(stack0) && ReadableIn(items))
      invariant ReadableIn(items) ==> ReadableIn(items[i..])
      invariant StackSize(stack) + SizeIn(items[i..]) <= StackSize(stack0) + SizeIn(items)
      invariant total == SumSet(seen, ChargeOf(stat, onDisk))
    {
      var entry := items[i];
      assert items[i..][1..] == items[i + 1..];
      match entry {
        case Failing => return false, [], {}, 0;
        case Symlink =>
        case Special =>
        case Dir(sub) =>
          Pushed(stack, sub);
          stack := stack + [sub];
        case File(id) =>
          if id !in seen {
            SumAdd(seen, id, ChargeOf(stat, onDisk));
            total := total + Charge(stat(id), onDisk);
            seen := seen + {id};
          }
      }
    }
    ok := true;
  }

  /**
   The walk ends, and returns the charge of the distinct regular files reachable without
   following links; unknown exactly when something reachable cannot be read.
   */
  method Walk(root: Option<Listing>, stat: Inode -> Stat, onDisk: bool) returns (r: Option<int>)
    ensures r == PresentBytes(root, stat, onDisk)
    ensures root.None? ==> r == Some(0)
    ensures root.Some? ==> (r.None? <==> !Readable(root.value))
    ensures root.Some? && r.Some? ==>
              && (!onDisk ==> r == Some(SumSet(Files(root.value), id => stat(id).size)))
              && (onDisk ==> r == Some(SumSet(Files(root.value), id => stat(id).blocks * 512)))
  {
    if root.None? {
      return Some(0);
    }
    var total := 0;
    var seen: set<Inode> := {};
    var stack := [root.value];
    Pushed([], root.value);
    assert [] + [root.value] == [root.value];
    while stack != []
      invariant seen + StackFiles(stack) == Files(root.value)
      invariant StackReadable(stack) == Readable(root.value)
      invariant total == SumSet(seen, ChargeOf(stat, onDisk))
      decreases StackSize(stack)
    {
      var current := stack[|stack| - 1];
      stack := stack[..|stack| - 1];
      match current {
        case Missing =>
        case Unreadable => return None;
        case Entries(items) =>
          var ok;
          ok, stack, seen, total := WalkEntries(items, stack, seen, total, stat, onDisk);
          if !ok {
            return None;
          }
      }
    }
    ChargesAre(Files(root.value), stat, onDisk);
    r := Some(total);
  }

  /** What is charged: the size, or 512 bytes for each block on disk. */
  lemma ChargesAre(files: set<Inode>, stat: Inode -> Stat, onDisk: bool)
    ensures !onDisk ==> SumSet(files, ChargeOf(stat, onDisk)) == SumSet(files, id => stat(id).size)
    ensures onDisk ==> SumSet(files, ChargeOf(stat, onDisk)) == SumSet(files, id => stat(id).blocks * 512)
  {
    if onDisk {
      SumAgree(files, ChargeOf(stat, onDisk), id => stat(id).blocks * 512);
    } else {
      SumAgree(files, ChargeOf(stat, onDisk), id => stat(id).size);
    }
  }

  /** A file is counted exactly when it is an entry of some directory reached without following links. */
  ghost predicate Reaches(l: Listing, id: Inode)
    decreases l
  {
    l.Entries? && exists n :: n in l.items && (n == File(id) || (n.Dir? && Reaches(n.sub, id)))
  }

  lemma {:induction false} FilesAreReached(l: Listing, id: Inode)
    ensures id in Files(l) <==> Reaches(l, id)
    decreases l
  {
    if l.Entries? {
      if id in Files(l) {
        var n := MemberOfFilesIn(l.items, id);
        if n.Dir? {
          FilesAreReached(n.sub, id);
        }
      } else if Reaches(l, id) {
        var n :| n in l.items && (n == File(id) || (n.Dir? && Reaches(n.sub, id)));
        if n.Dir? {
          FilesAreReached(n.sub, id);
        }
        FilesInMember(l.items, n, id);
      }
    }
  }

  /** Reading fails exactly when some directory or entry reached that way fails. */
  ghost predicate MeetsFailure(l: Listing)
    decreases l
  {
    || l.Unreadable?
    || (l.Entries? && exists n :: n in l.items && (n.Failing? || (n.Dir? && MeetsFailure(n.sub))))
  }

  lemma {:induction false} FailuresAreMet(l: Listing)
    ensures !Readable(l) <==> MeetsFailure(l)
    decreases l
  {
    if l.Entries? {
      if !Readable(l) {
        var n := MemberUnreadable(l.items);
        if n.Dir? {
          FailuresAreMet(n.sub);
        }
      } else if MeetsFailure(l) {
        var n :| n in l.items && (n.Failing? || (n.Dir? && MeetsFailure(n.sub)));
        if n.Dir? {
          FailuresAreMet(n.sub);
        }
        UnreadableMember(l.items, n);
      }
    }
  }

  // ------------------------------------------------------------------
  // Scan order does not matter
  // ------------------------------------------------------------------

  /** The same tree, with the entries of any directory listed in another order. */
  ghost predicate Reordered(a: Listing, b: Listing)
    decreases a, 0
  {
    if a.Entries? && b.Entries? then
      && (forall x {:trigger TwinIn(x, b.items)} :: x in a.items ==> TwinIn(x, b.items))
      && (forall y {:trigger TwinOf(a.items, y)} :: y in b.items ==> TwinOf(a.items, y))
    else a == b
  }

  ghost predicate TwinIn(x: Node, items: seq<Node>)
    decreases x, 2
  {
    exists y :: y in items && ReorderedNode(x, y)
  }

  ghost predicate TwinOf(items: seq<Node>, y: Node)
    decreases items, 2
  {
    exists x :: x in items && ReorderedNode(x, y)
  }

  ghost predicate ReorderedNode(x: Node, y: Node)
    decreases x, 1
  {
    if x.Dir? && y.Dir? then Reordered(x.sub, y.sub) else x == y
  }

  lemma {:induction false} FilesInMember(items: seq<Node>, n: Node, id: Inode)
    requires n in items && id in FilesAt(n)
    ensures id in FilesIn(items)
  {
    if n != items[0] {
      FilesInMember(items[1..], n, id);
    }
  }

  lemma {:induction false} MemberOfFilesIn(items: seq<Node>, id: Inode) returns (n: Node)
    requires id in FilesIn(items)
    ensures n in items && id in FilesAt(n)
  {
    if id in FilesAt(items[0]) {
      n := items[0];
    } else {
      n := MemberOfFilesIn(items[1..], id);
    }
  }

  lemma {:induction false} UnreadableMember(items: seq<Node>, n: Node)
    requires n in items && !ReadableAt(n)
    ensures !ReadableIn(items)
  {
    if n != items[0] {
      UnreadableMember(items[1..], n);
    }
  }

  lemma {:induction false} MemberUnreadable(items: seq<Node>) returns (n: Node)
    requires !ReadableIn(items)
    ensures n in items && !ReadableAt(n)
  {
    if !ReadableAt(items[0]) {
      n := items[0];
    } else {
      n := MemberUnreadable(items[1..]);
    }
  }

  lemma {:induction false} FilesCarryOver(a: Listing, b: Listing, id: Inode)
    requires Reordered(a, b)
    ensures id in Files(a) <==> id in Files(b)
    decreases a
  {
    if a.Entries? && b.Entries? {
      if id in Files(a) {
        var x := MemberOfFilesIn(a.items, id);
        assert TwinIn(x, b.items);
        var y :| y in b.items && ReorderedNode(x, y);
        if x.Dir? && y.Dir? {
          FilesCarryOver(x.sub, y.sub, id);
        }
        FilesInMember(b.items, y, id);
      } else if id in Files(b) {
        var y := MemberOfFilesIn(b.items, id);
        assert TwinOf(a.items, y);
        var x :| x in a.items && ReorderedNode(x, y);
        if x.Dir? && y.Dir? {
          FilesCarryOver(x.sub, y.sub, id);
        }
        FilesInMember(a.items, x, id);
      }
    }
  }

  lemma {:induction false} ReadableCarriesOver(a: Listing, b: Listing)
    requires Reordered(a, b)
    ensures Readable(a) == Readable(b)
    decreases a
  {
    if a.Entries? && b.Entries? {
      if !Readable(a) {
        var x := MemberUnreadable(a.items);
        assert TwinIn(x, b.items);
        var y :| y in b.items && ReorderedNode(x, y);
        if x.Dir? && y.Dir? {
          ReadableCarriesOver(x.sub, y.sub);
        }
        UnreadableMember(b.items, y);
      } else if !Readable(b) {
        var y := MemberUnreadable(b.items);
        assert TwinOf(a.items, y);
        var x :| x in a.items && ReorderedNode(x, y);
        if x.Dir? && y.Dir? {
          ReadableCarriesOver(x.sub, y.sub);
        }
        UnreadableMember(a.items, x);
      }
    }
  }

  /** Reordering any directory of the tree leaves the answer as it is. */
  lemma OrderIndependent(a: Listing, b: Listing, stat: Inode -> Stat, onDisk: bool)
    requires Reordered(a, b)
    ensures PresentBytes(Some(a), stat, onDisk) == PresentBytes(Some(b), stat, onDisk)
  {
    forall id: Inode ensures id in Files(a) <==> id in Files(b) {
      FilesCarryOver(a, b, id);
    }
    ReadableCarriesOver(a, b);
    assert Files(a) == Files(b);
  }
}

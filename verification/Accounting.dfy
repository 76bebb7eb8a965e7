/** Which blocks are in use: reserved, live, and referenced by snapshots (`volume.rs`, `snapshot.rs`). */
module Accounting {
  import opened Common
  import opened Disk
  import opened Directory
  import opened Allocator
  import opened Banks
  import opened Files
  import opened Rename

  datatype Snapshot = Snapshot(id: nat, name: string, logicalTime: u64, allocator: AllocatorSnapshot, directory: Dir)

  ghost function SnapBlocks(snaps: seq<Snapshot>): set<nat> {
    if snaps == [] then {} else DataBlocks(snaps[0].directory) + SnapBlocks(snaps[1..])
  }

  lemma {:induction false} SnapBlocksOf(snaps: seq<Snapshot>, i: nat)
    requires i < |snaps|
    ensures DataBlocks(snaps[i].directory) <= SnapBlocks(snaps)
  {
    if i > 0 { SnapBlocksOf(snaps[1..], i - 1); }
  }

  lemma {:induction false} SnapBlocksConcat(a: seq<Snapshot>, b: seq<Snapshot>)
    ensures SnapBlocks(a + b) == SnapBlocks(a) + SnapBlocks(b)
  {
    if a == [] {
      assert a + b == b;
    } else {
      SnapBlocksConcat(a[1..], b);
      assert (a + b)[1..] == a[1..] + b;
    }
  }

  lemma {:induction false} SnapBlocksRange(snaps: seq<Snapshot>, limit: nat)
    requires forall i :: 0 <= i < |snaps| ==> Live(snaps[i].directory, limit)
    ensures forall b :: b in SnapBlocks(snaps) ==> RESERVED_END <= b < limit
  {
    if snaps != [] {
      LiveBlocks(snaps[0].directory, limit);
      SnapBlocksRange(snaps[1..], limit);
    }
  }

  /**
   * The accounts of a volume: the blocks in use are exactly the reserved ones, those of the live
   * directory and those that some snapshot refers to; no two live paths share a block.
   */
  ghost predicate Accounts(d: Dir, snaps: seq<Snapshot>, kept: set<nat>, used: set<nat>, limit: nat) {
    && Live(d, limit) && Exclusive(d)
    && (forall i :: 0 <= i < |snaps| ==> Live(snaps[i].directory, limit))
    && (forall b :: 1 <= b < RESERVED_END ==> b in kept)
    && kept !! DataBlocks(d) && kept !! SnapBlocks(snaps)
    && used == kept + DataBlocks(d) + SnapBlocks(snaps)
  }

  /**
   * What the bitmap in each snapshot is good for: it is that of this device, and has the blocks of the snapshot and
   * of those before it in use.
   */
  ghost predicate Remembered(snaps: seq<Snapshot>, kept: set<nat>, limit: nat) {
    && (forall i :: 0 <= i < |snaps| ==>
          var a := snaps[i].allocator;
          Saved(a) && a.base == 1 && 1 + a.total == limit && kept <= UsedIn(a) && Exclusive(snaps[i].directory))
    && (forall i, j :: 0 <= j <= i < |snaps| ==> DataBlocks(snaps[j].directory) <= UsedIn(snaps[i].allocator))
  }

  lemma RememberedAppend(snaps: seq<Snapshot>, kept: set<nat>, limit: nat, s: Snapshot)
    requires Remembered(snaps, kept, limit) && Saved(s.allocator) && s.allocator.base == 1
    requires 1 + s.allocator.total == limit
    requires Exclusive(s.directory)
    requires kept + DataBlocks(s.directory) + SnapBlocks(snaps) <= UsedIn(s.allocator)
    ensures Remembered(snaps + [s], kept, limit)
  {
    var snaps' := snaps + [s];
    forall i, j | 0 <= j <= i < |snaps'| ensures DataBlocks(snaps'[j].directory) <= UsedIn(snaps'[i].allocator) {
      if i == |snaps| && j < i { SnapBlocksOf(snaps, j); }
    }
  }

  lemma RememberedDrop(snaps: seq<Snapshot>, kept: set<nat>, limit: nat, i: nat)
    requires Remembered(snaps, kept, limit) && i < |snaps|
    ensures Remembered(snaps[..i] + snaps[i + 1..], kept, limit)
  {
    var rest := snaps[..i] + snaps[i + 1..];
    assert forall j :: 0 <= j < |rest| ==> rest[j] == snaps[if j < i then j else j + 1];
  }

  ghost function OwnedAt(d: Dir, p: string): set<nat> {
    if p in d then Owned(d[p]) else {}
  }

  lemma OwnedLive(d: Dir, p: string)
    ensures OwnedAt(d, p) <= DataBlocks(d)
  {
    if p in d {
      forall b | b in Owned(d[p]) ensures b in DataBlocks(d) { BlockOf(d, p, b); }
    }
  }

  /** Replacing a file by one in free blocks, and freeing the old blocks no snapshot refers to. */
  lemma AccountsInsert(d: Dir, snaps: seq<Snapshot>, kept: set<nat>, used: set<nat>, limit: nat, p: string, e: Entry)
    requires Accounts(d, snaps, kept, used, limit) && Normal(p) && Sound(e, limit) && Owned(e) !! used
    ensures Accounts(d[p := e], snaps, kept, used + Owned(e) - (OwnedAt(d, p) - SnapBlocks(snaps)), limit)
  {
    BlocksInsert(d, p, e);
    ExclusiveInsert(d, p, e);
    OwnedLive(d, p);
  }

  lemma AccountsRemove(d: Dir, snaps: seq<Snapshot>, kept: set<nat>, used: set<nat>, limit: nat, p: string)
    requires Accounts(d, snaps, kept, used, limit) && p in d
    ensures Accounts(d - {p}, snaps, kept, used - (Owned(d[p]) - SnapBlocks(snaps)), limit)
  {
    BlocksRemove(d, p);
    OwnedLive(d, p);
  }

  lemma RekeyBlocks(d: Dir, key: string -> string)
    requires OneToOne(d, key) && Exclusive(d)
    ensures DataBlocks(Rekey(d, key)) == DataBlocks(d) && Exclusive(Rekey(d, key))
  {
    var r := Rekey(d, key);
    forall b | b in DataBlocks(r) ensures b in DataBlocks(d) {
      var k :| k in r && b in Owned(r[k]);
      var p := RekeyOrigin(d, key, k);
      BlockOf(d, p, b);
    }
    forall b | b in DataBlocks(d) ensures b in DataBlocks(r) {
      var p :| p in d && b in Owned(d[p]);
      RekeyValue(d, key, p);
      BlockOf(r, key(p), b);
    }
    forall k, l | k in r && l in r && k != l ensures Owned(r[k]) !! Owned(r[l]) {
      var p := RekeyOrigin(d, key, k);
      var q := RekeyOrigin(d, key, l);
    }
  }

  lemma RekeyLive(d: Dir, key: string -> string, limit: nat)
    requires OneToOne(d, key) && Live(d, limit) && forall p :: p in d ==> Normal(key(p))
    ensures Live(Rekey(d, key), limit)
  {
    forall k | k in Rekey(d, key) ensures Normal(k) && Sound(Rekey(d, key)[k], limit) {
      var p := RekeyOrigin(d, key, k);
    }
  }

  lemma AccountsRekey(d: Dir, snaps: seq<Snapshot>, kept: set<nat>, used: set<nat>, limit: nat, key: string -> string)
    requires Accounts(d, snaps, kept, used, limit) && OneToOne(d, key) && forall p :: p in d ==> Normal(key(p))
    ensures Accounts(Rekey(d, key), snaps, kept, used, limit)
  {
    RekeyBlocks(d, key);
    RekeyLive(d, key, limit);
  }

  lemma AccountsSnapshot(d: Dir, snaps: seq<Snapshot>, kept: set<nat>, used: set<nat>, limit: nat, s: Snapshot)
    requires Accounts(d, snaps, kept, used, limit) && s.directory == d
    ensures Accounts(d, snaps + [s], kept, used, limit)
  {
    SnapBlocksConcat(snaps, [s]);
  }

  lemma SnapBlocksWithout(snaps: seq<Snapshot>, i: nat)
    requires i < |snaps|
    ensures SnapBlocks(snaps) == SnapBlocks(snaps[..i] + snaps[i + 1..]) + DataBlocks(snaps[i].directory)
  {
    assert snaps == snaps[..i] + snaps[i..] && snaps[i..][1..] == snaps[i + 1..];
    SnapBlocksConcat(snaps[..i], snaps[i..]);
    SnapBlocksConcat(snaps[..i], snaps[i + 1..]);
  }

  lemma Released(kept: set<nat>, live: set<nat>, mine: set<nat>, others: set<nat>)
    requires kept !! mine
    ensures kept + live + (others + mine) - (mine - (live + others)) == kept + live + others
  {}

  /** Deleting a snapshot and freeing those of its blocks that nothing else refers to. */
  lemma AccountsDelete(d: Dir, snaps: seq<Snapshot>, kept: set<nat>, used: set<nat>, limit: nat, i: nat,
                       rest: seq<Snapshot>)
    requires Accounts(d, snaps, kept, used, limit) && i < |snaps| && rest == snaps[..i] + snaps[i + 1..]
    ensures Accounts(d, rest, kept, used - (DataBlocks(snaps[i].directory) - (DataBlocks(d) + SnapBlocks(rest))), limit)
  {
    SnapBlocksWithout(snaps, i);
    Released(kept, DataBlocks(d), DataBlocks(snaps[i].directory), SnapBlocks(rest));
    forall j | 0 <= j < |rest| ensures Live(rest[j].directory, limit) {
      assert rest[j] == if j < i then snaps[j] else snaps[j + 1];
    }
  }

  // ---- The operations on the allocator and the snapshots ----

  lemma SetOfNext(blocks: seq<u64>, i: nat)
    requires i < |blocks|
    ensures SetOf(blocks[..i + 1]) == SetOf(blocks[..i]) + {blocks[i]}
  {}

  /** `blocks` were taken, one by one, from the blocks of `[lo, hi)` not in use before. */
  ghost predicate Taken(before: set<nat>, used: set<nat>, blocks: seq<u64>, lo: nat, hi: nat) {
    && Distinct(blocks) && SetOf(blocks) !! before && used == before + SetOf(blocks)
    && forall b :: b in blocks ==> lo <= b < hi
  }

  lemma TakenNext(before: set<nat>, used: set<nat>, blocks: seq<u64>, lo: nat, hi: nat, b: u64)
    requires Taken(before, used, blocks, lo, hi) && b !in used && lo <= b < hi
    ensures Taken(before, used + {b}, blocks + [b], lo, hi)
  {
    assert SetOf(blocks + [b]) == SetOf(blocks) + {b};
    forall x | x in blocks ensures x != b { assert x in SetOf(blocks); }
  }

  method AllocateBlocks(a: BlockAllocator, count: nat) returns (r: Option<seq<u64>>)
    requires a.Valid()
    modifies a`bitmap, a`free
    ensures a.Valid()
    ensures r.None? <==> count > old(a.free)
    ensures r.None? ==> a.Used() == old(a.Used())
    ensures r.Some? ==> |r.value| == count && Taken(old(a.Used()), a.Used(), r.value, a.base, a.base + a.total)
  {
    var blocks: seq<u64> := [];
    ghost var before := a.Used();
    while |blocks| < count
      invariant a.Valid() && |blocks| <= count && a.free == old(a.free) - |blocks|
      invariant Taken(before, a.Used(), blocks, a.base, a.base + a.total)
    {
      ghost var used := a.Used();
      var got := a.Allocate();
      if got.Err? {
        FreeBlocks(a, blocks);
        return None;
      }
      TakenNext(before, used, blocks, a.base, a.base + a.total, got.value);
      blocks := blocks + [got.value];
    }
    r := Some(blocks);
  }

  method FreeBlocks(a: BlockAllocator, blocks: seq<u64>)
    requires a.Valid()
    modifies a`bitmap, a`free
    ensures a.Valid() && a.Used() == old(a.Used()) - SetOf(blocks)
  {
    ghost var before := a.Used();
    for i := 0 to |blocks|
      invariant a.Valid() && a.Used() == before - SetOf(blocks[..i])
    {
      SetOfNext(blocks, i);
      var _ := a.Free(blocks[i]);
    }
    assert blocks[..|blocks|] == blocks;
  }

  ghost predicate Ascending(snaps: seq<Snapshot>, nextId: nat) {
    && (forall i :: 0 <= i < |snaps| ==> snaps[i].id < nextId)
    && (forall i, j :: 0 <= i < j < |snaps| ==> snaps[i].id < snaps[j].id)
  }

  lemma OthersKept(snaps: seq<Snapshot>, i: nat, nextId: nat)
    requires i < |snaps| && Ascending(snaps, nextId)
    ensures Ascending(snaps[..i] + snaps[i + 1..], nextId)
    ensures forall t :: t in snaps[..i] + snaps[i + 1..] <==> t in snaps && t.id != snaps[i].id
  {
    forall t | t in snaps && t.id != snaps[i].id ensures t in snaps[..i] + snaps[i + 1..] {
      var j :| 0 <= j < |snaps| && snaps[j] == t;
      assert if j < i then snaps[..i][j] == t else snaps[i + 1..][j - i - 1] == t;
    }
  }

  /** The snapshots of a volume, oldest first; ids are never reused. */
  class SnapshotManager {
    var nextId: nat
    var snapshots: seq<Snapshot>

    ghost predicate Valid()
      reads this
    {
      Ascending(snapshots, nextId)
    }

    constructor ()
      ensures Valid() && snapshots == []
    {
      nextId, snapshots := 1, [];
    }

    method Create(name: string, logicalTime: u64, allocator: AllocatorSnapshot, directory: Dir) returns (s: Snapshot)
      requires Valid()
      modifies this
      ensures Valid() && snapshots == old(snapshots) + [s]
      ensures s == Snapshot(old(nextId), name, logicalTime, allocator, directory)
      ensures forall t :: t in old(snapshots) ==> t.id != s.id
    {
      s := Snapshot(nextId, name, logicalTime, allocator, directory);
      nextId := nextId + 1;
      snapshots := snapshots + [s];
    }

    /** Whether any snapshot refers to the block. */
    method References(block: nat) returns (r: bool)
      ensures r <==> block in SnapBlocks(snapshots)
    {
      for i := 0 to |snapshots|
        invariant block in SnapBlocks(snapshots) <==> block in SnapBlocks(snapshots[i..])
      {
        var here := InDirectory(snapshots[i].directory, block);
        assert snapshots[i..][1..] == snapshots[i + 1..];
        if here {
          return true;
        }
      }
      r := false;
    }

    method Remove(id: nat) returns (r: Option<Snapshot>, ghost at: nat)
      requires Valid()
      modifies this`snapshots
      ensures Valid()
      ensures r.None? ==> snapshots == old(snapshots) && forall t :: t in snapshots ==> t.id != id
      ensures r.Some? ==> at < |old(snapshots)| && r.value == old(snapshots)[at] && r.value.id == id
      ensures r.Some? ==> snapshots == old(snapshots)[..at] + old(snapshots)[at + 1..]
      ensures forall t :: t in snapshots <==> t in old(snapshots) && t.id != id
    {
      at := 0;
      for i := 0 to |snapshots|
        invariant forall j :: 0 <= j < i ==> snapshots[j].id != id
      {
        if snapshots[i].id == id {
          var s := snapshots[i];
          OthersKept(snapshots, i, nextId);
          snapshots := snapshots[..i] + snapshots[i + 1..];
          return Some(s), i;
        }
      }
      r := None;
    }
  }

  method InDirectory(d: Dir, block: nat) returns (r: bool)
    ensures r <==> block in DataBlocks(d)
  {
    var left := d.Keys;
    while left != {}
      invariant left <= d.Keys
      invariant forall p :: p in d && p !in left ==> block !in Owned(d[p])
      decreases |left|
    {
      var p :| p in left;
      if block in d[p].blocks {
        BlockOf(d, p, block);
        return true;
      }
      left := left - {p};
    }
    r := false;
  }

  method FreeIfUnreferenced(a: BlockAllocator, m: SnapshotManager, block: nat)
    requires a.Valid()
    modifies a`bitmap, a`free
    ensures a.Valid()
    ensures a.Used() == if block in SnapBlocks(m.snapshots) then old(a.Used()) else old(a.Used()) - {block}
  {
    var referenced := m.References(block);
    if !referenced {
      var _ := a.Free(block);
    }
  }

  lemma FreedNext(used: set<nat>, now: set<nat>, after: set<nat>, blocks: seq<u64>, i: nat, keep: set<nat>)
    requires i < |blocks| && now == used - (SetOf(blocks[..i]) - keep)
    requires after == if blocks[i] in keep then now else now - {blocks[i]}
    ensures after == used - (SetOf(blocks[..i + 1]) - keep)
  {
    SetOfNext(blocks, i);
  }

  /** Frees the given blocks except those that a snapshot still refers to. */
  method FreeUnreferenced(a: BlockAllocator, m: SnapshotManager, blocks: seq<u64>)
    requires a.Valid()
    modifies a`bitmap, a`free
    ensures a.Valid() && a.Used() == old(a.Used()) - (SetOf(blocks) - SnapBlocks(m.snapshots))
  {
    ghost var before, keep := a.Used(), SnapBlocks(m.snapshots);
    for i := 0 to |blocks|
      invariant a.Valid() && a.Used() == before - (SetOf(blocks[..i]) - keep)
    {
      ghost var now := a.Used();
      FreeIfUnreferenced(a, m, blocks[i]);
      FreedNext(before, now, a.Used(), blocks, i, keep);
    }
    assert blocks[..|blocks|] == blocks;
  }

  // ---- Deleting a snapshot ----

  /** The data blocks of the entries that are not `left`. */
  ghost function PartBlocks(d: Dir, left: set<string>): set<nat> {
    set p, b | p in d && p !in left && b in Owned(d[p]) :: b
  }

  lemma PartEnds(d: Dir)
    ensures PartBlocks(d, d.Keys) == {} && PartBlocks(d, {}) == DataBlocks(d)
  {
    forall b | b in DataBlocks(d) ensures b in PartBlocks(d, {}) {
      var p :| p in d && b in Owned(d[p]);
      assert p !in {};
    }
    forall b | b in PartBlocks(d, {}) ensures b in DataBlocks(d) {
      var p :| p in d && p !in {} && b in Owned(d[p]);
      BlockOf(d, p, b);
    }
  }

  lemma PartNext(d: Dir, left: set<string>, p: string)
    requires p in left && p in d
    ensures PartBlocks(d, left - {p}) == PartBlocks(d, left) + Owned(d[p])
  {
    forall b | b in PartBlocks(d, left - {p}) ensures b in PartBlocks(d, left) + Owned(d[p]) {
      var q :| q in d && q !in left - {p} && b in Owned(d[q]);
      if q != p { assert q !in left; }
    }
    forall b | b in PartBlocks(d, left) ensures b in PartBlocks(d, left - {p}) {
      var q :| q in d && q !in left && b in Owned(d[q]);
      assert q !in left - {p};
    }
    forall b | b in Owned(d[p]) ensures b in PartBlocks(d, left - {p}) { assert p !in left - {p}; }
  }

  /** All data blocks of a directory, gathered entry by entry. */
  method GatherBlocks(d: Dir, start: set<nat>) returns (r: set<nat>)
    ensures r == start + DataBlocks(d)
  {
    r := start;
    var left := d.Keys;
    PartEnds(d);
    while left != {}
      invariant left <= d.Keys && r == start + PartBlocks(d, left)
      decreases |left|
    {
      var p :| p in left;
      PartNext(d, left, p);
      r := r + SetOf(d[p].blocks);
      left := left - {p};
    }
  }

  method GatherAll(d: Dir, snaps: seq<Snapshot>) returns (live: set<nat>)
    ensures live == DataBlocks(d) + SnapBlocks(snaps)
  {
    live := GatherBlocks(d, {});
    for i := 0 to |snaps|
      invariant live + SnapBlocks(snaps[i..]) == DataBlocks(d) + SnapBlocks(snaps)
    {
      assert snaps[i..][1..] == snaps[i + 1..];
      live := GatherBlocks(snaps[i].directory, live);
    }
  }

  lemma FreedPart(used: set<nat>, now: set<nat>, after: set<nat>, d: Dir, left: set<string>, p: string, live: set<nat>)
    requires p in left && p in d
    requires now == used - (PartBlocks(d, left) - live) && after == now - (SetOf(d[p].blocks) - live)
    ensures after == used - (PartBlocks(d, left - {p}) - live)
  {
    PartNext(d, left, p);
  }

  method FreeUnless(a: BlockAllocator, blocks: seq<u64>, live: set<nat>)
    requires a.Valid()
    modifies a`bitmap, a`free
    ensures a.Valid() && a.Used() == old(a.Used()) - (SetOf(blocks) - live)
  {
    ghost var before := a.Used();
    for i := 0 to |blocks|
      invariant a.Valid() && a.Used() == before - (SetOf(blocks[..i]) - live)
    {
      ghost var now := a.Used();
      if blocks[i] !in live {
        var _ := a.Free(blocks[i]);
      }
      FreedNext(before, now, a.Used(), blocks, i, live);
    }
    assert blocks[..|blocks|] == blocks;
  }

  method FreeDirectory(a: BlockAllocator, d: Dir, live: set<nat>)
    requires a.Valid()
    modifies a`bitmap, a`free
    ensures a.Valid() && a.Used() == old(a.Used()) - (DataBlocks(d) - live)
  {
    var left := d.Keys;
    ghost var before := a.Used();
    PartEnds(d);
    while left != {}
      invariant left <= d.Keys && a.Valid() && a.Used() == before - (PartBlocks(d, left) - live)
      decreases |left|
    {
      var p :| p in left;
      ghost var now := a.Used();
      FreeUnless(a, d[p].blocks, live);
      FreedPart(before, now, a.Used(), d, left, p, live);
      left := left - {p};
    }
  }
}

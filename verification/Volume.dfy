/** The mounted volume of `libs/zfs-core/src/volume.rs`. */
module Volumes {
  import opened Common
  import opened Disk
  import opened Directory
  import opened Allocator
  import opened Codec
  import opened Banks
  import opened Files
  import opened Rename
  import opened Accounting
  import opened Inodes
  import opened Images
  import opened History
  import opened Views
  import opened Restoring

  function SaturatingAdd(x: u64): (y: u64)
    ensures y == Least(x + 1, U64 - 1)
  {
    if x == U64 - 1 then x else x + 1
  }

  function FileEntry(id: u64, time: u64, blocks: seq<u64>, size: u64, digest: seq<byte>): Entry {
    Entry(Inode(id, File, size, 420, 0, 0, 1, Direct(blocks), 0, time, time), blocks, Some(digest))
  }

  function DirEntry(id: u64, time: u64): Entry {
    Entry(Inode(id, Kind.Directory, 0, 493, 0, 0, 1, Direct([]), 0, time, time), [], None)
  }

  // ---- Writing file data ----

  function DataWrites(blocks: seq<u64>, data: seq<byte>): (ws: seq<Write>)
    requires |blocks| == Slots(|data|)
    ensures |ws| == |blocks|
    ensures forall i :: 0 <= i < |ws| ==> ws[i] == Write(blocks[i], Chunk(data, i))
  {
    seq(|blocks|, i requires 0 <= i < |blocks| => Write(blocks[i], Chunk(data, i)))
  }

  /** Distinct blocks written once each spell the data. */
  lemma DataWritten(dev: Dev, blocks: seq<u64>, data: seq<byte>, ws: seq<Write>)
    requires |blocks| == Slots(|data|) && Distinct(blocks) && ws == DataWrites(blocks, data)
    requires forall i :: 0 <= i < |blocks| ==> blocks[i] < |dev|
    ensures Content(Apply(dev, ws), blocks, |data|) == data
  {
    forall i | 0 <= i < |blocks| ensures Apply(dev, ws)[blocks[i]] == Chunk(data, i) {
      ApplyOnce(dev, ws, i);
    }
    ContentStored(Apply(dev, ws), blocks, data);
  }

  method WriteData(device: Device, blocks: seq<u64>, data: seq<byte>) returns (ok: bool, ghost ws: seq<Write>)
    requires |blocks| == Slots(|data|)
    modifies device
    ensures device.log == old(device.log) + ws && device.blocks == Apply(old(device.blocks), ws)
    ensures |ws| <= |blocks| && ws == DataWrites(blocks, data)[..|ws|]
    ensures ok <==> |ws| == |blocks|
  {
    ws := [];
    ghost var all := DataWrites(blocks, data);
    for i := 0 to |blocks|
      invariant |ws| == i && ws == all[..i]
      invariant device.log == old(device.log) + ws && device.blocks == Apply(old(device.blocks), ws)
    {
      var block := Chunk(data, i);
      ok := device.WriteBlock(blocks[i], block);
      if !ok {
        return false, ws;
      }
      ApplyNext(old(device.blocks), all, i);
      ws := ws + [all[i]];
    }
    ok := true;
  }

  /** Blocks taken while the banks are in use lie past the banks, and writing to them is harmless. */
  lemma FreshBlocks(before: set<nat>, used: set<nat>, blocks: seq<u64>, limit: nat, data: seq<byte>)
    requires Taken(before, used, blocks, 1, limit) && |blocks| == Slots(|data|)
    requires forall b :: 1 <= b < RESERVED_END ==> b in before
    ensures Taken(before, used, blocks, RESERVED_END, limit)
    ensures Away(DataWrites(blocks, data), before)
  {
    forall b | b in blocks ensures b !in before && b >= RESERVED_END { assert b in SetOf(blocks); }
  }

  lemma AwayPrefix(ws: seq<Write>, k: nat, used: set<nat>)
    requires Away(ws, used) && k <= |ws|
    ensures Away(ws[..k], used)
  {}

  /** Takes blocks for the data and writes it there, or gives the blocks back. */
  method PlaceData(device: Device, a: BlockAllocator, data: seq<byte>)
    returns (r: Result<seq<u64>, Error>, ghost dw: seq<Write>)
    requires a.Valid() && a.base == 1 && 1 + a.total == |device.blocks|
    requires forall b :: 1 <= b < RESERVED_END ==> b in a.Used()
    modifies device, a`bitmap, a`free
    ensures a.Valid()
    ensures device.log == old(device.log) + dw && device.blocks == Apply(old(device.blocks), dw)
    ensures Away(dw, old(a.Used()))
    ensures r == Err(AllocationFailed) <==> Slots(|data|) > old(a.free)
    ensures r.Err? ==> r.error in {AllocationFailed, DeviceFailed} && a.Used() == old(a.Used())
    ensures r.Ok? ==> |r.value| == Slots(|data|) && dw == DataWrites(r.value, data)
    ensures r.Ok? ==> Taken(old(a.Used()), a.Used(), r.value, RESERVED_END, |device.blocks|)
  {
    dw := [];
    ghost var before, limit := a.Used(), |device.blocks|;
    var blocks := AllocateBlocks(a, Slots(|data|));
    if blocks.None? {
      return Err(AllocationFailed), dw;
    }
    FreshBlocks(before, a.Used(), blocks.value, limit, data);
    var ok;
    ok, dw := WriteData(device, blocks.value, data);
    AwayPrefix(DataWrites(blocks.value, data), |dw|, before);
    if !ok {
      TakenBack(before, a.Used(), blocks.value);
      FreeBlocks(a, blocks.value);
      return Err(DeviceFailed), dw;
    }
    r := Ok(blocks.value);
  }

  /** Removing a key and putting its old entry back, if it had one, undoes an insertion. */
  lemma Restored(d: Dir, key: string, e: Entry)
    ensures (if key in d then (d[key := e] - {key})[key := d[key]] else d[key := e] - {key}) == d
  {}

  lemma TakenBack(before: set<nat>, used: set<nat>, blocks: seq<u64>)
    requires SetOf(blocks) !! before && used == before + SetOf(blocks)
    ensures used - SetOf(blocks) == before
  {}

  lemma NewFileSound(id: u64, time: u64, blocks: seq<u64>, data: seq<byte>, digest: seq<byte>,
                     before: set<nat>, used: set<nat>, limit: nat)
    requires |data| < U64 && |digest| == 32 && |blocks| == Slots(|data|)
    requires Taken(before, used, blocks, RESERVED_END, limit)
    ensures Sound(FileEntry(id, time, blocks, |data|, digest), limit)
  {}

  lemma NewFileLive(law: Law, v: View, key: string, e: Entry)
    requires Means(law) && law.ok(v) && Normal(key) && Sound(e, |v.dev|)
    ensures Live(v.dir[key := e], |v.dev|)
  {
    assert Consistent(v);
  }

  lemma NewFileFits(law: Law, v: View, key: string, e: Entry, used: set<nat>, used': set<nat>, after: Dir, next: nat)
    requires Means(law) && law.ok(v) && Normal(key) && Sound(e, |v.dev|) && after == v.dir[key := e]
    requires e.inode.id == v.nextInode && next == Least(v.nextInode + 1, U64 - 1)
    requires Taken(v.used, used, e.blocks, RESERVED_END, |v.dev|)
    requires used' == if key in v.dir then used - (SetOf(v.dir[key].blocks) - SnapBlocks(v.snaps)) else used
    ensures law.fits(after, v.snaps, v.kept, used', |v.dev|, next, LastNumber(v))
  {
    assert Consistent(v);
    AccountsInsert(v.dir, v.snaps, v.kept, v.used, |v.dev|, key, e);
    assert used' == used - (OwnedAt(v.dir, key) - SnapBlocks(v.snaps));
    CountedEntered(v, key, e, after, next);
    assert Fits(after, v.snaps, v.kept, used', |v.dev|, next, LastNumber(v));
  }

  lemma NodeAfterCommit(dev: Dev, e: Entry, data: seq<byte>, sw: seq<Write>, limit: nat)
    requires Sound(e, limit) && e.inode.kind.File? && e.inode.size == |data|
    requires Content(dev, e.blocks, |data|) == data
    requires forall i :: 0 <= i < |sw| ==> 1 <= sw[i].lba < RESERVED_END
    ensures NodeOf(Apply(dev, sw), e) == FileNode(data)
  {
    ApplyWithin(dev, sw, 0, RESERVED_END);
    ContentFrame(dev, Apply(dev, sw), e.blocks, |data|);
  }

  lemma NewNode(dev: Dev, e: Entry, data: seq<byte>, dw: seq<Write>, sw: seq<Write>, limit: nat)
    requires Sound(e, limit) && limit <= |dev| && e.inode.kind.File? && e.inode.size == |data|
    requires dw == DataWrites(e.blocks, data) && forall i :: 0 <= i < |sw| ==> 1 <= sw[i].lba < RESERVED_END
    ensures NodeOf(Apply(dev, dw + sw), e) == FileNode(data)
  {
    forall i | 0 <= i < |e.blocks| ensures e.blocks[i] < |dev| { assert e.blocks[i] in e.blocks; }
    DataWritten(dev, e.blocks, data, dw);
    ApplyConcat(dev, dw, sw);
    NodeAfterCommit(Apply(dev, dw), e, data, sw, limit);
  }

  /** After the data and checkpoint writes, the new entry reads as the data and the others as before. */
  lemma NewFileTree(law: Law, v: View, key: string, e: Entry, data: seq<byte>, dw: seq<Write>, sw: seq<Write>)
    requires Means(law) && law.ok(v) && Away(dw, v.used) && Sound(e, |v.dev|) && e.inode.kind.File?
    requires e.inode.size == |data|
    requires dw == DataWrites(e.blocks, data) && forall i :: 0 <= i < |sw| ==> 1 <= sw[i].lba < RESERVED_END
    ensures TreeOf(Apply(v.dev, dw + sw), v.dir[key := e]) == TreeNow(v)[key := FileNode(data)]
  {
    assert Consistent(v);
    HarmlessTrees(v, dw, sw);
    TreeInsert(Apply(v.dev, dw + sw), v.dir, key, e);
    NewNode(v.dev, e, data, dw, sw, |v.dev|);
  }

  /** What `remove_dir` looks for below a path: the path with a slash at its end. */
  function EmptyPrefix(path: string): string {
    if path != "" && path[|path| - 1] == '/' then path else path + "/"
  }

  /** What `remove_dir` refuses: something starts with the path as given. */
  ghost predicate Guarded(d: Dir, path: string) {
    exists p :: p in d && StartsWith(p, EmptyPrefix(path))
  }

  ghost predicate SomethingBelow(d: Dir, o: string) {
    exists p :: p in d && p != o && StartsWith(p, Prefix(o))
  }

  /** Starts at the root, and ends in one slash at most. */
  predicate Plain(path: string) {
    path == "" || (path[0] == '/' && !(|path| >= 2 && path[|path| - 1] == '/' && path[|path| - 2] == '/'))
  }

  lemma PlainPrefix(path: string)
    requires Plain(path)
    ensures EmptyPrefix(path) == Prefix(Normalize(path))
  {
    if |path| >= 2 && path[|path| - 1] == '/' {
      assert StripSlashes(path[..|path| - 1]) == path[..|path| - 1];
      assert path == path[..|path| - 1] + "/";
    }
  }

  /** For a plain path only empty directories pass the guard. */
  lemma RemoveScope(d: Dir, path: string)
    requires Plain(path) && SomethingBelow(d, Normalize(path))
    ensures Guarded(d, path)
  {
    PlainPrefix(path);
  }

  lemma {:induction false} StripTwice(v: string)
    requires |v| >= 2 && v[|v| - 1] == '/' && v[|v| - 2] == '/'
    ensures |StripSlashes(v)| <= |v| - 2 || StripSlashes(v) == "/"
    ensures StripSlashes(v) == v[..|StripSlashes(v)|]
    ensures forall i :: |StripSlashes(v)| <= i < |v| ==> v[i] == '/'
  {
    var w := v[..|v| - 1];
    if |w| >= 2 && w[|w| - 2] == '/' { StripTwice(w); } else if |w| >= 2 {
      assert StripSlashes(w[..|w| - 1]) == w[..|w| - 1];
    }
  }

  /** For any other path it lets a directory go that has something in it. */
  lemma RemoveOrphans(d: Dir, path: string)
    requires !Plain(path) && d.Keys == {Normalize(path), Prefix(Normalize(path)) + "b"}
    ensures NormalKeys(d) && SomethingBelow(d, Normalize(path)) && !Guarded(d, path)
  {
    var o := Normalize(path);
    var below := Prefix(o) + "b";
    NormalizeIsNormal(path);
    assert StartsWith(below, Prefix(o)) && below in d.Keys;
    if path[0] == '/' { StripTwice(path); }
    forall p | p in d ensures Normal(p) && !StartsWith(p, EmptyPrefix(path)) {
      assert p == o || p == below;
    }
  }

  lemma MadeFits(law: Law, v: View, key: string, e: Entry, next: nat)
    requires Means(law) && law.ok(v) && Normal(key) && key !in v.dir
    requires e.inode.id == v.nextInode && next == Least(v.nextInode + 1, U64 - 1)
    requires WellFormed(e) && e.blocks == [] && e.inode.kind == Kind.Directory
    ensures Live(v.dir[key := e], |v.dev|)
    ensures law.fits(v.dir[key := e], v.snaps, v.kept, v.used, |v.dev|, next, LastNumber(v))
  {
    assert Consistent(v);
    AccountsInsert(v.dir, v.snaps, v.kept, v.used, |v.dev|, key, e);
    assert v.used + Owned(e) - (OwnedAt(v.dir, key) - SnapBlocks(v.snaps)) == v.used;
    CountedEntered(v, key, e, v.dir[key := e], next);
    assert Fits(v.dir[key := e], v.snaps, v.kept, v.used, |v.dev|, next, LastNumber(v));
  }

  lemma MadeTree(law: Law, v: View, key: string, e: Entry, sw: seq<Write>)
    requires Means(law) && law.ok(v) && e.inode.kind == Kind.Directory
    requires forall i :: 0 <= i < |sw| ==> 1 <= sw[i].lba < RESERVED_END
    ensures TreeOf(Apply(v.dev, [] + sw), v.dir[key := e]) == TreeNow(v)[key := OtherNode(Kind.Directory)]
  {
    assert Consistent(v);
    HarmlessTrees(v, [], sw);
    TreeInsert(Apply(v.dev, [] + sw), v.dir, key, e);
  }

  lemma OwnsNothing(law: Law, v: View, key: string)
    requires Means(law) && law.ok(v) && key in v.dir && !v.dir[key].inode.kind.File?
    ensures v.used - (SetOf(v.dir[key].blocks) - SnapBlocks(v.snaps)) == v.used
  {
    assert Consistent(v);
  }

  // ---- Renaming ----

  lemma RekeyTree(law: Law, v: View, key: string -> string, sw: seq<Write>)
    requires Means(law) && law.ok(v) && OneToOne(v.dir, key)
    requires forall i :: 0 <= i < |sw| ==> 1 <= sw[i].lba < RESERVED_END
    ensures OneToOne(TreeNow(v), key)
    ensures TreeOf(Apply(v.dev, [] + sw), Rekey(v.dir, key)) == Rekey(TreeNow(v), key)
  {
    assert Consistent(v);
    HarmlessTrees(v, [], sw);
    TreeRekey(Apply(v.dev, [] + sw), v.dir, key);
  }

  lemma EffectRenamed(t: Tree, from: string, to: string, whole: bool, key: string -> string)
    requires key == KeyChange(from, to, whole) && OneToOne(t, key)
    ensures Effect(t, Renamed(from, to, whole)) == Rekey(t, key)
  {}

  lemma RekeyFacts(law: Law, v: View, from: string, to: string, whole: bool, key: string -> string,
                   sw: seq<Write>)
    requires Means(law) && law.ok(v) && OneToOne(v.dir, key) && key == KeyChange(from, to, whole)
    requires forall p :: p in v.dir ==> Normal(key(p))
    requires forall i :: 0 <= i < |sw| ==> 1 <= sw[i].lba < RESERVED_END
    ensures Live(Rekey(v.dir, key), |v.dev|)
    ensures law.fits(Rekey(v.dir, key), v.snaps, v.kept, v.used, |v.dev|, v.nextInode, v.spent)
    ensures TreeOf(Apply(v.dev, [] + sw), Rekey(v.dir, key)) == Effect(TreeNow(v), Renamed(from, to, whole))
  {
    assert Consistent(v);
    AccountsRekey(v.dir, v.snaps, v.kept, v.used, |v.dev|, key);
    CountedRekeyed(v, key);
    assert Fits(Rekey(v.dir, key), v.snaps, v.kept, v.used, |v.dev|, v.nextInode, v.spent);
    RekeyTree(law, v, key, sw);
    EffectRenamed(TreeNow(v), from, to, whole, key);
  }

  lemma RewritingNormal(from: string, to: string, p: string)
    requires Normal(p)
    ensures Normal(Rewriting(from, to)(p)) && Normal(Single(Normalize(from), Normalize(to))(p))
  {
    NormalizeIsNormal(from);
    NormalizeIsNormal(to);
    NewKeyNormal(Normalize(from), Normalize(to), p);
  }

  lemma ChangeNormal(d: Dir, limit: nat, from: string, to: string, whole: bool)
    requires Live(d, limit)
    ensures NormalKeys(d) && forall p :: p in d ==> Normal(KeyChange(from, to, whole)(p))
  {
    forall p | p in d ensures Normal(KeyChange(from, to, whole)(p)) { RewritingNormal(from, to, p); }
  }

  lemma SingleOneToOne(d: Dir, o: string, n: string)
    requires o in d && n !in d
    ensures OneToOne(d, Single(o, n))
  {}

  /** Moving one entry rewrites its key. */
  lemma SingleMove(d: Dir, o: string, n: string, key: string -> string)
    requires o in d && n !in d && OneToOne(d, key) && key == Single(o, n)
    ensures (d - {o})[n := d[o]] == Rekey(d, key)
  {
    var r, d' := Rekey(d, key), (d - {o})[n := d[o]];
    forall k | k in d' ensures k in r && r[k] == d'[k] {
      RekeyValue(d, key, if k == n then o else k);
    }
    forall k | k in r ensures k in d' {
      var p := RekeyOrigin(d, key, k);
    }
  }

  lemma SingleBack(d: Dir, o: string, n: string)
    requires o in d && n !in d
    ensures ((d - {o})[n := d[o]] - {n})[o := d[o]] == d
  {}

  /** Rewrites the key of one entry and commits, or rewrites it back. */
  method MoveAndPersist(format: Format, device: Device, generation: u64, d: Dir, o: string, n: string,
                        nextInode: u64, logicalTime: u64, ghost v: View, ghost next: Image)
    returns (r: Result<u64, Error>, d': Dir, ghost sw: seq<Write>, ghost header: Block)
    requires v.format == format && v.generation == generation && o in d && n !in d && OneToOne(d, Single(o, n))
    requires next == Image(v.generation + 1, Rekey(d, Single(o, n)), nextInode, logicalTime)
    modifies device
    ensures device.log == old(device.log) + sw && device.blocks == Apply(old(device.blocks), sw)
    ensures r.Ok? ==> Landed(v, sw, next, header) && d' == next.dir && r.value == NextGeneration(generation)
    ensures r.Err? ==> InVain(v, sw, next, header) && d' == d && r.error in {CheckpointTooLarge, DeviceFailed}
  {
    SingleMove(d, o, n, Single(o, n));
    SingleBack(d, o, n);
    var root := d[o];
    d' := (d - {o})[n := root];
    r, sw, header := Persist(format, device, generation, d', nextInode, logicalTime, v, next);
    if r.Err? {
      d' := (d' - {n})[o := root];
    }
  }

  /** Rewrites the keys of a subtree and commits, or rewrites them back. */
  method MoveAllAndPersist(format: Format, device: Device, generation: u64, d: Dir, moves: seq<Move>,
                           nextInode: u64, logicalTime: u64, ghost key: string -> string, ghost v: View,
                           ghost next: Image)
    returns (r: Result<u64, Error>, d': Dir, ghost sw: seq<Write>, ghost header: Block)
    requires v.format == format && v.generation == generation && Describes(moves, d, key)
    requires next == Image(v.generation + 1, Rekey(d, key), nextInode, logicalTime)
    modifies device
    ensures device.log == old(device.log) + sw && device.blocks == Apply(old(device.blocks), sw)
    ensures r.Ok? ==> Landed(v, sw, next, header) && d' == next.dir && r.value == NextGeneration(generation)
    ensures r.Err? ==> InVain(v, sw, next, header) && d' == d && r.error in {CheckpointTooLarge, DeviceFailed}
  {
    MovedForward(moves, d, key);
    d' := RemoveAll(d, moves, false);
    d' := InsertAll(d', moves, true);
    r, sw, header := Persist(format, device, generation, d', nextInode, logicalTime, v, next);
    if r.Err? {
      MovedBack(moves, d, key, d');
      d' := RemoveAll(d', moves, true);
      d' := InsertAll(d', moves, false);
    }
  }

  lemma PutBack(d: Dir, key: string)
    requires key in d
    ensures (d - {key})[key := d[key]] == d
  {}

  lemma RemovedFacts(law: Law, v: View, key: string, sw: seq<Write>)
    requires Means(law) && law.ok(v) && key in v.dir && forall i :: 0 <= i < |sw| ==> 1 <= sw[i].lba < RESERVED_END
    ensures Live(v.dir - {key}, |v.dev|)
    ensures law.fits(v.dir - {key}, v.snaps, v.kept, v.used - (SetOf(v.dir[key].blocks) - SnapBlocks(v.snaps)), |v.dev|,
              v.nextInode, v.spent)
    ensures TreeOf(Apply(v.dev, [] + sw), v.dir - {key}) == TreeNow(v) - {key}
  {
    assert Consistent(v);
    AccountsRemove(v.dir, v.snaps, v.kept, v.used, |v.dev|, key);
    CountedRemoved(v, key);
    assert Fits(v.dir - {key}, v.snaps, v.kept, v.used - (SetOf(v.dir[key].blocks) - SnapBlocks(v.snaps)), |v.dev|,
        v.nextInode, v.spent);
    HarmlessTrees(v, [], sw);
    TreeRemove(Apply(v.dev, [] + sw), v.dir, key);
  }

  lemma DirectoryLive(law: Law, v: View)
    requires Means(law) && law.ok(v)
    ensures Live(v.dir, |v.dev|)
  {
    assert Consistent(v);
  }

  function Lookup(t: Tree, p: string): Option<Node> {
    if p in t then Some(t[p]) else None
  }

  lemma EntryReadable(law: Law, v: View, key: string)
    requires Means(law) && law.ok(v) && key in v.dir && v.dir[key].inode.kind.File?
    ensures Readable(v.dev, v.dir[key].blocks, v.dir[key].inode.size)
  {
    assert Consistent(v);
    var blocks := v.dir[key].blocks;
    forall i | 0 <= i < |blocks| ensures blocks[i] < |v.dev| { assert blocks[i] in blocks; }
  }

  lemma BanksInUse(law: Law, v: View)
    requires Means(law) && law.ok(v)
    ensures forall b :: 1 <= b < RESERVED_END ==> b in v.used
  {
    assert Consistent(v);
  }

  /** Stores a checkpoint of `d`; `sw` are the checkpoint blocks that reached the device. */
  method Persist(format: Format, device: Device, generation: u64, d: Dir, nextInode: u64, logicalTime: u64,
                 ghost v: View, ghost next: Image)
    returns (r: Result<u64, Error>, ghost sw: seq<Write>, ghost header: Block)
    requires v.format == format && v.generation == generation
    requires next == Image(v.generation + 1, d, nextInode, logicalTime)
    modifies device
    ensures device.log == old(device.log) + sw && device.blocks == Apply(old(device.blocks), sw)
    ensures r.Ok? ==> Landed(v, sw, next, header)
    ensures r.Ok? ==> r.value == NextGeneration(generation)
    ensures r.Err? ==> InVain(v, sw, next, header)
    ensures r.Err? ==> r.error in {CheckpointTooLarge, DeviceFailed}
  {
    r, sw, header := Store(format, device, generation, d, nextInode, logicalTime);
    if sw != [] {
      BankWritesWithin(Target(NextGeneration(generation)), format.encode(d, nextInode, logicalTime).value, header,
        |sw|);
    }
  }

  /** Inserts an entry and commits, or puts back what was there. */
  method InsertAndPersist(format: Format, device: Device, generation: u64, d: Dir, key: string, e: Entry,
                          nextInode: u64, logicalTime: u64, ghost v: View, ghost next: Image)
    returns (r: Result<u64, Error>, d': Dir, ghost sw: seq<Write>, ghost header: Block)
    requires v.format == format && v.generation == generation
    requires next == Image(v.generation + 1, d[key := e], nextInode, logicalTime)
    modifies device
    ensures device.log == old(device.log) + sw && device.blocks == Apply(old(device.blocks), sw)
    ensures r.Ok? ==> Landed(v, sw, next, header)
    ensures r.Ok? ==> r.value == NextGeneration(generation)
    ensures r.Err? ==> InVain(v, sw, next, header)
    ensures r.Err? ==> r.error in {CheckpointTooLarge, DeviceFailed}
    ensures d' == if r.Ok? then d[key := e] else d
  {
    d' := d[key := e];
    r, sw, header := Persist(format, device, generation, d', nextInode, logicalTime, v, next);
    if r.Err? {
      d' := d' - {key};
      if key in d {
        d' := d'[key := d[key]];
      }
      Restored(d, key, e);
    }
  }

  /** Removes an entry and commits, or puts it back. */
  method RemoveAndPersist(format: Format, device: Device, generation: u64, d: Dir, key: string,
                          nextInode: u64, logicalTime: u64, ghost v: View, ghost next: Image)
    returns (r: Result<u64, Error>, d': Dir, ghost sw: seq<Write>, ghost header: Block)
    requires v.format == format && v.generation == generation && key in d
    requires next == Image(v.generation + 1, d - {key}, nextInode, logicalTime)
    modifies device
    ensures device.log == old(device.log) + sw && device.blocks == Apply(old(device.blocks), sw)
    ensures r.Ok? ==> Landed(v, sw, next, header) && d' == d - {key} && r.value == NextGeneration(generation)
    ensures r.Err? ==> InVain(v, sw, next, header) && d' == d && r.error in {CheckpointTooLarge, DeviceFailed}
  {
    d' := d - {key};
    r, sw, header := Persist(format, device, generation, d', nextInode, logicalTime, v, next);
    if r.Err? {
      PutBack(d, key);
      d' := d'[key := d[key]];
    }
  }

  // ---- Reading ----

  ghost predicate Readable(dev: Dev, blocks: seq<u64>, size: nat) {
    |blocks| == Slots(size) && forall i :: 0 <= i < |blocks| ==> blocks[i] < |dev|
  }

  lemma ContentNext(dev: Dev, blocks: seq<u64>, i: nat, left: nat, n: nat, head: seq<byte>)
    requires i < |blocks| && blocks[i] < |dev| && n == Least(left, BLOCK_SIZE) && head == dev[blocks[i]][..n]
    ensures Content(dev, blocks[i..], left) == head + Content(dev, blocks[i + 1..], left - n)
  {
    assert blocks[i..][1..] == blocks[i + 1..];
  }

  method ReadBlocks(device: Device, blocks: seq<u64>, size: nat) returns (r: Result<seq<byte>, Error>)
    requires Readable(device.blocks, blocks, size)
    ensures r == Ok(Content(device.blocks, blocks, size))
  {
    var buffer: seq<byte> := [];
    var left: nat := size;
    ghost var all, rest := Content(device.blocks, blocks, size), Content(device.blocks, blocks, size);
    assert blocks[0..] == blocks;
    for i := 0 to |blocks|
      invariant left <= size && rest == Content(device.blocks, blocks[i..], left) && buffer + rest == all
    {
      var block := device.ReadBlock(blocks[i]);
      if block.None? {
        return Err(DeviceFailed);
      }
      var n := Least(left, BLOCK_SIZE);
      var head := block.value[..n];
      ContentNext(device.blocks, blocks, i, left, n, head);
      rest := Content(device.blocks, blocks[i + 1..], left - n);
      Regroup(buffer, head, rest);
      buffer := buffer + head;
      left := left - n;
    }
    assert buffer + [] == buffer;
    r := Ok(buffer);
  }

  lemma SliceOfSlice(a: seq<byte>, b: seq<byte>, start: nat, n: nat, from: nat, to: nat)
    requires start + n <= |a| && n <= |b| && from <= to <= n && a[start..start + n] == b[..n]
    ensures a[start + from..start + to] == b[from..to]
  {
    forall i | 0 <= i < to - from ensures a[start + from..start + to][i] == b[from..to][i] {
      assert a[start..start + n][from + i] == b[..n][from + i];
    }
  }

  lemma SliceJoin(a: seq<byte>, i: nat, j: nat, k: nat)
    requires i <= j <= k <= |a|
    ensures a[i..j] + a[j..k] == a[i..k]
  {}

  lemma NextPiece(all: seq<byte>, block: seq<byte>, offset: nat, start: nat, n: nat, from: nat, to: nat)
    requires start + n <= |all| && n <= |block| && from <= to <= n && offset <= start + from
    requires all[start..start + n] == block[..n]
    ensures all[offset..start + from] + block[from..to] == all[offset..start + to]
  {
    SliceOfSlice(all, block, start, n, from, to);
    SliceJoin(all, offset, start + from, start + to);
  }

  /** How far a partial read has got: `done` bytes, with `index` the next block to look at. */
  ghost predicate Progress(offset: nat, want: nat, done: nat, index: nat, last: nat) {
    && done <= want && (index <= last <==> done < want)
    && (done < want ==> index == (offset + done) / BLOCK_SIZE)
    && (0 < done < want ==> offset + done == index * BLOCK_SIZE)
  }

  /** Where the next piece lies in its block, and how far the read has got after it. */
  lemma PieceFits(offset: nat, want: nat, size: nat, done: nat, index: nat, last: nat, start: nat, from: nat, to: nat)
    requires done < want && offset + want <= size && last == (offset + want - 1) / BLOCK_SIZE
    requires Progress(offset, want, done, index, last) && start == index * BLOCK_SIZE
    requires from == (if offset > start then offset - start else 0) && to == Least(BLOCK_SIZE, offset + want - start)
    ensures index < Slots(size) && start + from == offset + done && from < to <= Least(size - start, BLOCK_SIZE)
    ensures Progress(offset, want, start + to - offset, index + 1, last)
  {}

  /** One block of a partial read. */
  method ReadPiece(device: Device, blocks: seq<u64>, size: nat, offset: nat, want: nat, index: nat,
                   ghost done: nat, ghost last: nat) returns (r: Result<seq<byte>, Error>)
    requires Readable(device.blocks, blocks, size) && offset + want <= size
    requires done < want && Progress(offset, want, done, index, last) && last == (offset + want - 1) / BLOCK_SIZE
    ensures |Content(device.blocks, blocks, size)| == size && r.Ok?
    ensures Progress(offset, want, done + |r.value|, index + 1, last)
    ensures var all := Content(device.blocks, blocks, size);
            all[offset..offset + done] + r.value == all[offset..offset + done + |r.value|]
  {
    var start := index * BLOCK_SIZE;
    var to := Least(BLOCK_SIZE, offset + want - start);
    var from := if offset > start then offset - start else 0;
    PieceFits(offset, want, size, done, index, last, start, from, to);
    ContentBlock(device.blocks, blocks, size, index, start);
    var block := device.ReadBlock(blocks[index]);
    if block.None? {
      return Err(DeviceFailed);
    }
    NextPiece(Content(device.blocks, blocks, size), block.value, offset, start, Least(size - start, BLOCK_SIZE), from,
      to);
    r := Ok(block.value[from..to]);
  }

  /** The bytes `[offset, offset + want)` of a file, from the blocks they lie in and no others. */
  method ReadRange(device: Device, blocks: seq<u64>, size: nat, offset: nat, want: nat)
    returns (r: Result<seq<byte>, Error>)
    requires Readable(device.blocks, blocks, size) && 0 < want && offset + want <= size
    ensures |Content(device.blocks, blocks, size)| == size
    ensures r == Ok(Content(device.blocks, blocks, size)[offset..offset + want])
  {
    ghost var all := Content(device.blocks, blocks, size);
    ContentSize(device.blocks, blocks, size);
    var index := offset / BLOCK_SIZE;
    var last := (offset + want - 1) / BLOCK_SIZE;
    var out: seq<byte> := [];
    while index <= last
      invariant Progress(offset, want, |out|, index, last) && out == all[offset..offset + |out|]
    {
      var piece := ReadPiece(device, blocks, size, offset, want, index, |out|, last);
      if piece.Err? {
        return piece;
      }
      out := out + piece.value;
      index := index + 1;
    }
    r := Ok(out);
  }

  /** Copy on write: the file is in blocks that were not in use. */
  ghost predicate InFreshBlocks(d: Dir, key: string, size: nat, used: set<nat>) {
    key in d && |d[key].blocks| == Slots(size) && Owned(d[key]) !! used
  }

  /** The entry of a file of `size` bytes as it is when it is written: its times, owner, mode and one link. */
  ghost predicate NewFile(e: Entry, id: nat, size: nat, digest: seq<byte>, time: nat) {
    && e.inode.kind == File && e.inode.id == id && e.inode.size == size && e.signature == Some(digest)
    && e.inode.mode == 0x1A4 && e.inode.uid == e.inode.gid == 0 && e.inode.links == 1
    && e.inode.ctime == e.inode.mtime == time
  }

  ghost predicate NewDirectory(e: Entry, id: nat, time: nat) {
    && e.inode.kind == Kind.Directory && e.inode.id == id && e.inode.size == 0 && e.signature == None && e.blocks == []
    && e.inode.mode == 0x1ED && e.inode.uid == e.inode.gid == 0 && e.inode.links == 1
    && e.inode.ctime == e.inode.mtime == time
  }

  /** `from` is a directory, and something below it would land on a path that is taken. */
  ghost predicate InTheWay(d: Dir, from: string, to: string) {
    && Normalize(from) in d && d[Normalize(from)].inode.kind == Kind.Directory && Anchored(from)
    && !NoClash(d, Normalize(from), Normalize(to))
  }

  /** Every entry is where the renaming puts it. */
  ghost predicate Rekeyed(d: Dir, d': Dir, from: string, to: string, whole: bool) {
    OneToOne(d, KeyChange(from, to, whole)) && d' == Rekey(d, KeyChange(from, to, whole))
  }

  /** The inode counter and the clock went on by one; they stop at the last 64-bit number. */
  ghost predicate Ticked(v: View, v': View) {
    && v'.nextInode == Least(v.nextInode + 1, U64 - 1) && v'.logicalTime == Least(v.logicalTime + 1, U64 - 1)
    && v'.spent == LastNumber(v)
  }

  /** A file took the next inode number, and its path and nothing else changed. */
  ghost predicate Written(v: View, v': View, key: string, size: nat, digest: seq<byte>) {
    && InFreshBlocks(v'.dir, key, size, v.used) && v'.dir == v.dir[key := v'.dir[key]]
    && NewFile(v'.dir[key], v.nextInode, size, digest, v'.logicalTime) && Ticked(v, v')
  }

  lemma FileWritten(v: View, v': View, key: string, blocks: seq<u64>, data: seq<byte>, digest: seq<byte>,
                    used: set<nat>)
    requires |data| < U64 && |blocks| == Slots(|data|) && Taken(v.used, used, blocks, RESERVED_END, |v.dev|)
    requires v'.dir == v.dir[key := FileEntry(v.nextInode, v'.logicalTime, blocks, |data|, digest)] && Ticked(v, v')
    ensures Written(v, v', key, |data|, digest)
  {}

  ghost predicate MadeAt(v: View, v': View, key: string) {
    && key in v'.dir && v'.dir == v.dir[key := v'.dir[key]]
    && NewDirectory(v'.dir[key], v.nextInode, v'.logicalTime) && Ticked(v, v')
  }

  lemma DirectoryMade(v: View, v': View, key: string)
    requires v'.dir == v.dir[key := DirEntry(v.nextInode, v'.logicalTime)] && Ticked(v, v')
    ensures MadeAt(v, v', key)
  {}

  class Volume {
    const format: Format
    const device: Device
    const allocator: BlockAllocator
    const snapshots: SnapshotManager
    const verifySignatures: bool
    var directory: Dir
    var nextInode: u64
    var logicalTime: u64
    var generation: u64

    /** Stands for consistency. */
    ghost const law: Law
    /** The reserved blocks that the allocator covers. */
    ghost const kept: set<nat>
    /** The checkpoints on the device. */
    ghost var commit: Commit
    /** An inode number was asked for when the counter had none left. */
    ghost var spent: bool
    /** What each snapshot read as when it was taken. */
    ghost var frozen: seq<Tree>
    /** The tree at mount time, and every change since. */
    ghost const origin: Tree
    ghost var events: seq<Event>

    constructor (format: Format, device: Device, allocator: BlockAllocator, verifySignatures: bool, directory: Dir,
                 nextInode: u64, logicalTime: u64, generation: u64,
                 ghost law: Law, ghost kept: set<nat>, ghost commit: Commit, ghost spent: bool)
      ensures this.format == format && this.device == device && this.allocator == allocator
      ensures this.verifySignatures == verifySignatures && this.directory == directory
      ensures this.nextInode == nextInode && this.logicalTime == logicalTime && this.generation == generation
      ensures this.law == law && this.kept == kept && this.commit == commit && this.spent == spent
      ensures origin == TreeOf(device.blocks, directory)
      ensures fresh(snapshots) && snapshots.Valid() && snapshots.snapshots == [] && frozen == [] && events == []
    {
      this.format, this.device, this.allocator := format, device, allocator;
      this.verifySignatures, this.directory := verifySignatures, directory;
      this.nextInode, this.logicalTime, this.generation := nextInode, logicalTime, generation;
      this.law, this.kept, this.commit, origin := law, kept, commit, TreeOf(device.blocks, directory);
      this.snapshots := new SnapshotManager();
      this.frozen, this.events, this.spent := [], [], spent;
    }

    ghost function Now(): View
      reads this, device, allocator, snapshots
    {
      View(format, device.blocks, directory, snapshots.snapshots, kept, allocator.Used(),
           generation, commit, nextInode, logicalTime, spent, frozen, origin, events)
    }

    ghost predicate Valid()
      reads this, device, allocator, snapshots
    {
      && allocator.Valid() && allocator.base == 1 && 1 + allocator.total == |device.blocks|
      && snapshots.Valid() && nextInode >= 2 && logicalTime >= 1
      && Means(law) && law.ok(Now())
    }

    /** The paths of the volume and what they hold. */
    ghost function Contents(): Tree
      reads this, device
    {
      TreeOf(device.blocks, directory)
    }

    /** The directory side of the volume still is as in `v`. */
    ghost predicate Unmoved(v: View)
      reads this, snapshots
    {
      && v.format == format && v.dir == directory && v.snaps == snapshots.snapshots && v.kept == kept
      && v.generation == generation && v.commit == commit && v.frozen == frozen
      && v.nextInode == nextInode && v.logicalTime == logicalTime
      && v.origin == origin && v.events == events && v.spent == spent
    }

    /** After a failed commit: the directory is what it was, the clock and the inode counter may have moved. */
    method Abandon(after: Dir, inode: u64, time: u64, ghost v: View, ghost dw: seq<Write>, ghost sw: seq<Write>,
                   ghost next: Image, ghost header: Block)
      requires Means(law) && law.ok(v) && Unmoved(v) && after == v.dir && inode >= 2 && time >= v.logicalTime >= 1
      requires inode == nextInode || inode == U64 - 2 == nextInode - 1
      requires device.blocks == Apply(v.dev, dw + sw) && allocator.Used() == v.used
      requires Away(dw, v.used) && InVain(v, sw, next, header) && Live(next.dir, |v.dev|)
      modifies this`directory, this`nextInode, this`logicalTime, this`commit, this`spent
      ensures law.ok(Now()) && nextInode >= 2 && logicalTime >= 1 && Outcome(v, Now(), dw + sw, None)
      ensures nextInode == inode && logicalTime == time
    {
      spent := spent || inode != nextInode;
      directory, nextInode, logicalTime := after, inode, time;
      commit := Commit(commit.now, commit.prev, !Sturdy(v));
      FailedCommit(law, v, Now(), dw, sw, next, header);
    }

    /** After a commit: the new directory becomes the live one. */
    method Conclude(after: Dir, inode: u64, time: u64, stored: u64, ghost ev: Event, ghost v: View,
                    ghost dw: seq<Write>, ghost sw: seq<Write>, ghost header: Block, ghost out: bool)
      requires Means(law) && law.ok(v) && Unmoved(v) && inode >= 2
      requires time >= v.logicalTime >= 1 && stored == NextGeneration(generation)
      requires device.blocks == Apply(v.dev, dw + sw) && Away(dw, v.used)
      requires Landed(v, sw, Image(v.generation + 1, after, inode, time), header)
      requires law.fits(after, v.snaps, v.kept, allocator.Used(), |v.dev|, inode, out)
      requires TreeOf(Apply(v.dev, dw + sw), after) == Effect(TreeNow(v), ev)
      modifies this`directory, this`nextInode, this`logicalTime, this`generation, this`commit, this`spent, this`events
      ensures law.ok(Now()) && nextInode >= 2 && logicalTime >= 1 && Outcome(v, Now(), dw + sw, Some(ev))
      ensures directory == after && nextInode == inode && logicalTime == time
      ensures spent == out
    {
      directory, nextInode, logicalTime, generation, spent := after, inode, time, stored, out;
      commit := Commit(Image(stored, after, inode, time), Some(commit.now), !Sturdy(v));
      events := events + [ev];
      Committed(law, v, Now(), dw, sw, ev, header);
    }

    /** After a file commit: frees the blocks of the file it replaced, unless a snapshot needs them. */
    method FinishFile(key: string, e: Entry, data: seq<byte>, after: Dir, inode: u64, time: u64, stored: u64,
                      ghost v: View, ghost dw: seq<Write>, ghost sw: seq<Write>, ghost header: Block)
      requires Means(law) && law.ok(v) && Unmoved(v) && allocator.Valid()
      requires inode == Least(v.nextInode + 1, U64 - 1) && inode >= 2 && time >= v.logicalTime >= 1
      requires stored == NextGeneration(generation) && e.inode.id == v.nextInode
      requires device.blocks == Apply(v.dev, dw + sw) && Away(dw, v.used)
      requires Normal(key) && Sound(e, |v.dev|) && e.inode.kind.File? && e.inode.size == |data|
      requires after == v.dir[key := e]
      requires Taken(v.used, allocator.Used(), e.blocks, RESERVED_END, |v.dev|) && dw == DataWrites(e.blocks, data)
      requires Landed(v, sw, Image(v.generation + 1, after, inode, time), header)
      modifies this`directory, this`nextInode, this`logicalTime, this`generation, this`commit, this`spent, this`events
      modifies allocator`bitmap, allocator`free
      ensures allocator.Valid() && law.ok(Now()) && nextInode >= 2 && logicalTime >= 1
      ensures Outcome(v, Now(), dw + sw, Some(Wrote(key, data))) && directory == after
      ensures nextInode == inode && logicalTime == time && spent == LastNumber(v)
    {
      ghost var used := allocator.Used();
      if key in directory {
        FreeUnreferenced(allocator, snapshots, directory[key].blocks);
      }
      NewFileFits(law, v, key, e, used, allocator.Used(), after, inode);
      NewFileTree(law, v, key, e, data, dw, sw);
      Conclude(after, inode, time, stored, Wrote(key, data), v, dw, sw, header, LastNumber(v));
    }

    /** Enters a file whose data was placed by `dw`, or takes everything back. */
    method CommitEntry(key: string, e: Entry, data: seq<byte>, inode: u64, time: u64,
                       ghost v: View, ghost log: seq<Write>, ghost dw: seq<Write>)
      returns (r: Result<(), Error>, ghost ws: seq<Write>)
      requires Means(law) && law.ok(v) && Unmoved(v) && allocator.Valid() && nextInode >= 2
      requires inode == Least(v.nextInode + 1, U64 - 1) && time >= v.logicalTime >= 1
      requires device.log == log + dw && device.blocks == Apply(v.dev, dw)
      requires Normal(key) && Sound(e, |v.dev|) && e.inode.kind.File? && e.inode.size == |data|
      requires e.inode.id == v.nextInode && Taken(v.used, allocator.Used(), e.blocks, RESERVED_END, |v.dev|)
      requires dw == DataWrites(e.blocks, data) && Away(dw, v.used)
      modifies this`directory, this`nextInode, this`logicalTime, this`generation, this`commit, this`spent, this`events
      modifies device, allocator`bitmap, allocator`free
      ensures allocator.Valid() && nextInode >= 2 && logicalTime == time && law.ok(Now())
      ensures device.log == log + ws
      ensures r.Ok? ==> Outcome(v, Now(), ws, Some(Wrote(key, data))) && directory == v.dir[key := e]
      ensures r.Ok? ==> nextInode == inode && spent == LastNumber(v)
      ensures r.Err? ==> Outcome(v, Now(), ws, None) && r.error in {CheckpointTooLarge, DeviceFailed}
    {
      ghost var used := allocator.Used();
      ghost var next := Image(v.generation + 1, v.dir[key := e], inode, time);
      ghost var sw, header;
      var stored, after;
      stored, after, sw, header :=
        InsertAndPersist(format, device, generation, directory, key, e, inode, time, v, next);
      ws := dw + sw;
      Regroup(log, dw, sw);
      ApplyConcat(v.dev, dw, sw);
      if stored.Err? {
        FreeBlocks(allocator, e.blocks);
        TakenBack(v.used, used, e.blocks);
        NewFileLive(law, v, key, e);
        Abandon(after, Max(inode - 1, 2), time, v, dw, sw, next, header);
        return Err(stored.error), ws;
      }
      FinishFile(key, e, data, after, inode, time, stored.value, v, dw, sw, header);
      r := Ok(());
    }

    /** Gives the file its entry: the next inode number, the time, and the digest. */
    method CommitFile(key: string, blocks: seq<u64>, data: seq<byte>, digest: seq<byte>,
                      ghost v: View, ghost log: seq<Write>, ghost dw: seq<Write>)
      returns (r: Result<(), Error>, ghost ws: seq<Write>)
      requires Means(law) && law.ok(v) && Unmoved(v) && allocator.Valid() && nextInode >= 2 && logicalTime >= 1
      requires device.log == log + dw && device.blocks == Apply(v.dev, dw)
      requires Normal(key) && |data| < U64 && |digest| == 32
      requires |blocks| == Slots(|data|) && Taken(v.used, allocator.Used(), blocks, RESERVED_END, |v.dev|)
      requires dw == DataWrites(blocks, data) && Away(dw, v.used)
      modifies this`directory, this`nextInode, this`logicalTime, this`generation, this`commit, this`spent, this`events
      modifies device, allocator`bitmap, allocator`free
      ensures allocator.Valid() && nextInode >= 2 && law.ok(Now()) && device.log == log + ws
      ensures logicalTime == Least(v.logicalTime + 1, U64 - 1)
      ensures r.Ok? ==> Outcome(v, Now(), ws, Some(Wrote(key, data))) && Written(v, Now(), key, |data|, digest)
      ensures r.Err? ==> Outcome(v, Now(), ws, None) && r.error in {CheckpointTooLarge, DeviceFailed}
    {
      ghost var used := allocator.Used();
      var time, inode := SaturatingAdd(logicalTime), SaturatingAdd(nextInode);
      var entry := FileEntry(nextInode, time, blocks, |data|, digest);
      NewFileSound(nextInode, time, blocks, data, digest, v.used, used, |v.dev|);
      r, ws := CommitEntry(key, entry, data, inode, time, v, log, dw);
      if r.Ok? { FileWritten(v, Now(), key, blocks, data, digest, used); }
    }

    /** Writes a whole file. `digest` is the SHA-256 of the data; `ws` are the block writes issued. */
    method WriteFile(path: string, data: seq<byte>, expected: Option<seq<byte>>, digest: seq<byte>)
      returns (r: Result<(), Error>, ghost ws: seq<Write>)
      requires Valid() && |data| < U64 && |digest| == 32
      modifies this`directory, this`nextInode, this`logicalTime, this`generation, this`commit, this`spent, this`events
      modifies device, allocator`bitmap, allocator`free
      ensures Valid() && device.log == old(device.log) + ws
      ensures Outcome(old(Now()), Now(), ws, if r.Ok? then Some(Wrote(Normalize(path), data)) else None)
      ensures r == Err(SignatureMismatch) <==> verifySignatures && expected.Some? && expected.value != digest
      ensures r == Err(AllocationFailed) <==> r != Err(SignatureMismatch) && Slots(|data|) > old(allocator.free)
      ensures r.Ok? ==> Written(old(Now()), Now(), Normalize(path), |data|, digest)
      ensures r.Err? ==> logicalTime in {old(logicalTime), Least(old(logicalTime) + 1, U64 - 1)}
    {
      ghost var v := Now();
      if verifySignatures && expected.Some? && expected.value != digest {
        Refused(law, v);
        return Err(SignatureMismatch), [];
      }
      var key := ComputeNormalize(path);
      NormalizeIsNormal(path);
      BanksInUse(law, v);
      var placed;
      placed, ws := PlaceData(device, allocator, data);
      if placed.Err? {
        FailedPlacing(law, v, Now(), ws);
        return Err(placed.error), ws;
      }
      r, ws := CommitFile(key, placed.value, data, digest, v, old(device.log), ws);
    }

    method RemoveFile(path: string) returns (r: Result<(), Error>, ghost ws: seq<Write>)
      requires Valid()
      modifies this`directory, this`nextInode, this`logicalTime, this`generation, this`commit, this`spent, this`events
      modifies device, allocator`bitmap, allocator`free
      ensures Valid() && device.log == old(device.log) + ws
      ensures Outcome(old(Now()), Now(), ws, if r.Ok? then Some(Removed(Normalize(path))) else None)
      ensures r == Err(NotFound) <==> Normalize(path) !in old(directory)
      ensures r == Err(Unsupported) <==>
                Normalize(path) in old(directory) && !old(directory)[Normalize(path)].inode.kind.File?
      ensures nextInode == old(nextInode) && logicalTime == old(logicalTime) && spent == old(spent)
      ensures r.Ok? ==> directory == old(directory) - {Normalize(path)}
    {
      ghost var v := Now();
      var key := ComputeNormalize(path);
      if key !in directory {
        Refused(law, v);
        return Err(NotFound), [];
      }
      var entry := directory[key];
      if !entry.inode.kind.File? {
        Refused(law, v);
        return Err(Unsupported), [];
      }
      r, ws := RemoveEntry(key, v, device.log);
    }

    /** Removes an entry and commits, or puts it back; then frees its blocks unless a snapshot needs them. */
    method RemoveEntry(key: string, ghost v: View, ghost log: seq<Write>)
      returns (r: Result<(), Error>, ghost sw: seq<Write>)
      requires Means(law) && law.ok(v) && Unmoved(v) && allocator.Valid() && nextInode >= 2 && logicalTime >= 1
      requires device.log == log && device.blocks == v.dev && allocator.Used() == v.used && key in directory
      modifies this`directory, this`nextInode, this`logicalTime, this`generation, this`commit, this`spent, this`events
      modifies device, allocator`bitmap, allocator`free
      ensures allocator.Valid() && nextInode >= 2 && logicalTime >= 1 && law.ok(Now())
      ensures device.log == log + sw
      ensures r.Ok? ==> Outcome(v, Now(), sw, Some(Removed(key))) && directory == v.dir - {key}
      ensures nextInode == v.nextInode && logicalTime == v.logicalTime && spent == v.spent
      ensures r.Err? ==> Outcome(v, Now(), sw, None) && r.error in {CheckpointTooLarge, DeviceFailed}
    {
      ghost var next := Image(v.generation + 1, v.dir - {key}, nextInode, logicalTime);
      ghost var header;
      var stored, after;
      stored, after, sw, header :=
        RemoveAndPersist(format, device, generation, directory, key, nextInode, logicalTime, v, next);
      assert [] + sw == sw;
      if stored.Err? {
        RemovedFacts(law, v, key, sw);
        Abandon(after, nextInode, logicalTime, v, [], sw, next, header);
        return Err(stored.error), sw;
      }
      FinishRemoval(key, after, stored.value, v, sw, header);
      r := Ok(());
    }

    /** After a removal: frees the blocks of the file, unless a snapshot needs them. */
    method FinishRemoval(key: string, after: Dir, stored: u64, ghost v: View, ghost sw: seq<Write>, ghost header: Block)
      requires Means(law) && law.ok(v) && Unmoved(v) && allocator.Valid() && allocator.Used() == v.used
      requires nextInode >= 2 && logicalTime >= 1 && stored == NextGeneration(generation)
      requires device.blocks == Apply(v.dev, [] + sw) && key in directory && after == v.dir - {key}
      requires Landed(v, sw, Image(v.generation + 1, after, nextInode, logicalTime), header)
      modifies this`directory, this`nextInode, this`logicalTime, this`generation, this`commit, this`spent, this`events
      modifies allocator`bitmap, allocator`free
      ensures allocator.Valid() && law.ok(Now()) && nextInode >= 2 && logicalTime >= 1
      ensures Outcome(v, Now(), [] + sw, Some(Removed(key))) && directory == after
      ensures nextInode == v.nextInode && logicalTime == v.logicalTime && spent == v.spent
    {
      FreeUnreferenced(allocator, snapshots, directory[key].blocks);
      RemovedFacts(law, v, key, sw);
      Conclude(after, nextInode, logicalTime, stored, Removed(key), v, [], sw, header, spent);
    }

    method CreateDir(path: string) returns (r: Result<(), Error>, ghost ws: seq<Write>)
      requires Valid()
      modifies this`directory, this`nextInode, this`logicalTime, this`generation, this`commit, this`spent, this`events
      modifies device
      ensures Valid() && device.log == old(device.log) + ws
      ensures Outcome(old(Now()), Now(), ws, if r.Ok? then Some(Made(Normalize(path))) else None)
      ensures r == Err(PathInvalid) <==> path == "/" || !PathOk(path)
      ensures r == Err(DirectoryConflict) <==> path != "/" && PathOk(path) && Normalize(path) in old(directory)
      ensures r.Ok? ==> MadeAt(old(Now()), Now(), Normalize(path))
      ensures r.Err? ==> logicalTime in {old(logicalTime), Least(old(logicalTime) + 1, U64 - 1)}
    {
      ghost var v := Now();
      if path == "" || path == "/" || path[0] != '/' || ContainsDotDot(path) {
        Refused(law, v);
        return Err(PathInvalid), [];
      }
      var key := ComputeNormalize(path);
      NormalizeIsNormal(path);
      if key in directory {
        Refused(law, v);
        return Err(DirectoryConflict), [];
      }
      r, ws := EnterDirectory(key, v, device.log);
    }

    method EnterDirectory(key: string, ghost v: View, ghost log: seq<Write>)
      returns (r: Result<(), Error>, ghost ws: seq<Write>)
      requires Means(law) && law.ok(v) && Unmoved(v) && nextInode >= 2 && logicalTime >= 1
      requires device.log == log && device.blocks == v.dev && allocator.Used() == v.used
      requires Normal(key) && key !in v.dir
      modifies this`directory, this`nextInode, this`logicalTime, this`generation, this`commit, this`spent, this`events
      modifies device
      ensures nextInode >= 2 && logicalTime == Least(v.logicalTime + 1, U64 - 1) && law.ok(Now())
      ensures device.log == log + ws
      ensures r.Ok? ==> Outcome(v, Now(), ws, Some(Made(key))) && MadeAt(v, Now(), key)
      ensures r.Err? ==> Outcome(v, Now(), ws, None) && r.error in {CheckpointTooLarge, DeviceFailed}
    {
      var time, inode := SaturatingAdd(logicalTime), SaturatingAdd(nextInode);
      r, ws := MakeEntry(key, DirEntry(nextInode, time), inode, time, v, log);
      if r.Ok? { DirectoryMade(v, Now(), key); }
    }

    /** Enters a directory and commits, or takes it out again. */
    method MakeEntry(key: string, e: Entry, inode: u64, time: u64, ghost v: View, ghost log: seq<Write>)
      returns (r: Result<(), Error>, ghost sw: seq<Write>)
      requires Means(law) && law.ok(v) && Unmoved(v) && nextInode >= 2 && inode == Least(v.nextInode + 1, U64 - 1)
      requires time >= v.logicalTime >= 1 && e.inode.id == v.nextInode
      requires device.log == log && device.blocks == v.dev && allocator.Used() == v.used
      requires Normal(key) && key !in v.dir && WellFormed(e) && e.blocks == [] && e.inode.kind == Kind.Directory
      modifies this`directory, this`nextInode, this`logicalTime, this`generation, this`commit, this`spent, this`events
      modifies device
      ensures nextInode >= 2 && logicalTime >= 1 && law.ok(Now())
      ensures device.log == log + sw
      ensures r.Ok? ==> Outcome(v, Now(), sw, Some(Made(key)))
      ensures logicalTime == time && (r.Ok? ==> directory == v.dir[key := e])
      ensures r.Ok? ==> nextInode == inode && spent == LastNumber(v)
      ensures r.Err? ==> Outcome(v, Now(), sw, None) && r.error in {CheckpointTooLarge, DeviceFailed}
    {
      ghost var next := Image(v.generation + 1, v.dir[key := e], inode, time);
      ghost var header;
      var stored, after;
      stored, after, sw,
      header := InsertAndPersist(format, device, generation, directory, key, e, inode, time, v, next);
      assert [] + sw == sw;
      MadeFits(law, v, key, e, inode);
      MadeTree(law, v, key, e, sw);
      if stored.Err? {
        Abandon(after, Max(inode - 1, 2), time, v, [], sw, next, header);
        return Err(stored.error), sw;
      }
      Conclude(after, inode, time, stored.value, Made(key), v, [], sw, header, LastNumber(v));
      r := Ok(());
    }

    method RemoveDir(path: string) returns (r: Result<(), Error>, ghost ws: seq<Write>)
      requires Valid()
      modifies this`directory, this`nextInode, this`logicalTime, this`generation, this`commit, this`spent, this`events
      modifies device
      ensures Valid() && device.log == old(device.log) + ws
      ensures Outcome(old(Now()), Now(), ws, if r.Ok? then Some(Removed(Normalize(path))) else None)
      ensures r == Err(NotFound) <==> Normalize(path) !in old(directory)
      ensures r == Err(Unsupported) <==>
                Normalize(path) in old(directory) && old(directory)[Normalize(path)].inode.kind != Kind.Directory
      ensures r == Err(DirectoryConflict) <==>
                && Normalize(path) in old(directory) && old(directory)[Normalize(path)].inode.kind == Kind.Directory
                && exists p :: p in old(directory) && StartsWith(p, EmptyPrefix(path))
      ensures nextInode == old(nextInode) && logicalTime == old(logicalTime) && spent == old(spent)
      ensures r.Ok? ==> directory == old(directory) - {Normalize(path)}
    {
      ghost var v := Now();
      var key := ComputeNormalize(path);
      if key !in directory {
        Refused(law, v);
        return Err(NotFound), [];
      }
      if directory[key].inode.kind != Kind.Directory {
        Refused(law, v);
        return Err(Unsupported), [];
      }
      if exists p :: p in directory && StartsWith(p, EmptyPrefix(path)) {
        Refused(law, v);
        return Err(DirectoryConflict), [];
      }
      r, ws := DropEntry(key, v, device.log);
    }

    method DropEntry(key: string, ghost v: View, ghost log: seq<Write>)
      returns (r: Result<(), Error>, ghost sw: seq<Write>)
      requires Means(law) && law.ok(v) && Unmoved(v) && nextInode >= 2 && logicalTime >= 1
      requires device.log == log && device.blocks == v.dev && allocator.Used() == v.used
      requires key in directory && !directory[key].inode.kind.File?
      modifies this`directory, this`nextInode, this`logicalTime, this`generation, this`commit, this`spent, this`events
      modifies device
      ensures nextInode >= 2 && logicalTime >= 1 && law.ok(Now())
      ensures device.log == log + sw
      ensures r.Ok? ==> Outcome(v, Now(), sw, Some(Removed(key))) && directory == v.dir - {key}
      ensures nextInode == v.nextInode && logicalTime == v.logicalTime && spent == v.spent
      ensures r.Err? ==> Outcome(v, Now(), sw, None) && r.error in {CheckpointTooLarge, DeviceFailed}
    {
      ghost var next := Image(v.generation + 1, v.dir - {key}, nextInode, logicalTime);
      ghost var header;
      var stored, after;
      stored, after, sw, header :=
        RemoveAndPersist(format, device, generation, directory, key, nextInode, logicalTime, v, next);
      assert [] + sw == sw;
      RemovedFacts(law, v, key, sw);
      OwnsNothing(law, v, key);
      if stored.Err? {
        Abandon(after, nextInode, logicalTime, v, [], sw, next, header);
        return Err(stored.error), sw;
      }
      Conclude(after, nextInode, logicalTime, stored.value, Removed(key), v, [], sw, header, spent);
      r := Ok(());
    }

    /** Keeps the current directory readable as it is now, whatever happens to the live one. */
    method CreateSnapshot(name: string) returns (s: Snapshot)
      requires Valid()
      modifies this`logicalTime, this`frozen, snapshots
      ensures Valid() && snapshots.snapshots == old(snapshots.snapshots) + [s]
      ensures s.directory == directory && forall t :: t in old(snapshots.snapshots) ==> t.id != s.id
      ensures frozen == old(frozen) + [Contents()] && UsedIn(s.allocator) == allocator.Used()
      ensures s.name == name && s.logicalTime == logicalTime == Least(old(logicalTime) + 1, U64 - 1)
    {
      ghost var v := Now();
      logicalTime := SaturatingAdd(logicalTime);
      s := snapshots.Create(name, logicalTime, allocator.Snapshot(), directory);
      frozen := frozen + [Contents()];
      TookSnapshot(law, v, Now(), s);
    }

    /**
     * Puts back the directory and the bitmap of the snapshot, and writes nothing. What this is worth is in `Restoring`:
     * the volume need not be valid afterwards.
     */
    method RestoreSnapshot(id: nat) returns (r: Result<(), Error>, ghost at: nat)
      requires Valid()
      modifies this`directory, allocator
      ensures r.Err? ==> r.error == SnapshotNotFound && Now() == old(Now())
      ensures r.Err? <==> forall t :: t in snapshots.snapshots ==> t.id != id
      ensures r.Ok? ==> at < |snapshots.snapshots| && snapshots.snapshots[at].id == id
      ensures r.Ok? ==> Now() == GoneBack(old(Now()), at)
      ensures allocator.Valid() && allocator.base == 1 && 1 + allocator.total == |device.blocks|
    {
      at := 0;
      for i := 0 to |snapshots.snapshots|
        invariant forall j :: 0 <= j < i ==> snapshots.snapshots[j].id != id
      {
        if snapshots.snapshots[i].id == id {
          var s := snapshots.snapshots[i];
          SnapshotSaved(law, Now(), i);
          allocator.Restore(s.allocator);
          directory := s.directory;
          return Ok(()), i;
        }
      }
      r := Err(SnapshotNotFound);
    }

    /** Forgets a snapshot and frees exactly the blocks that only it referred to. */
    method DeleteSnapshot(id: nat) returns (r: Result<(), Error>)
      requires Valid()
      modifies this`frozen, snapshots, allocator`bitmap, allocator`free
      ensures Valid()
      ensures r.Err? ==> r.error == SnapshotNotFound && snapshots.snapshots == old(snapshots.snapshots)
      ensures r.Err? <==> forall t :: t in old(snapshots.snapshots) ==> t.id != id
      ensures r.Ok? ==> forall t :: t in snapshots.snapshots <==> t in old(snapshots.snapshots) && t.id != id
    {
      ghost var v := Now();
      var removed;
      ghost var at;
      removed, at := snapshots.Remove(id);
      if removed.None? {
        return Err(SnapshotNotFound);
      }
      FreeDropped(removed.value.directory, at, v);
      r := Ok(());
    }

    /** Frees the blocks of a snapshot that was taken off the list, but those that something else refers to. */
    method FreeDropped(gone: Dir, ghost at: nat, ghost v: View)
      requires Means(law) && law.ok(v) && allocator.Valid()
      requires at < |v.snaps| && v.snaps[at].directory == gone
      requires Now() == v.(snaps := v.snaps[..at] + v.snaps[at + 1..])
      modifies this`frozen, allocator`bitmap, allocator`free
      ensures allocator.Valid() && law.ok(Now())
    {
      FrozenLength(law, v);
      var live := GatherAll(directory, snapshots.snapshots);
      FreeDirectory(allocator, gone, live);
      frozen := frozen[..at] + frozen[at + 1..];
      DroppedSnapshot(law, v, Now(), at);
    }

    method RenameEntry(from: string, to: string, ghost v: View, ghost log: seq<Write>)
      returns (r: Result<(), Error>, ghost sw: seq<Write>)
      requires Means(law) && law.ok(v) && Unmoved(v) && nextInode >= 2 && logicalTime >= 1
      requires device.log == log && device.blocks == v.dev && allocator.Used() == v.used
      requires Normalize(from) in v.dir && Normalize(to) !in v.dir
      modifies this`directory, this`nextInode, this`logicalTime, this`generation, this`commit, this`spent, this`events
      modifies device
      ensures nextInode >= 2 && logicalTime >= 1 && law.ok(Now())
      ensures device.log == log + sw
      ensures r.Ok? ==> Outcome(v, Now(), sw, Some(Renamed(from, to, false)))
      ensures r.Ok? ==> Rekeyed(v.dir, directory, from, to, false)
      ensures nextInode == v.nextInode && logicalTime == v.logicalTime && spent == v.spent
      ensures r.Err? ==> Outcome(v, Now(), sw, None) && r.error in {CheckpointTooLarge, DeviceFailed}
    {
      var o, n := Normalize(from), Normalize(to);
      ghost var key := Single(o, n);
      SingleOneToOne(v.dir, o, n);
      DirectoryLive(law, v);
      ChangeNormal(v.dir, |v.dev|, from, to, false);
      ghost var next := Image(v.generation + 1, Rekey(v.dir, key), nextInode, logicalTime);
      ghost var header;
      var stored, after;
      stored, after, sw, header :=
        MoveAndPersist(format, device, generation, directory, o, n, nextInode, logicalTime, v, next);
      assert [] + sw == sw;
      RekeyFacts(law, v, from, to, false, key, sw);
      if stored.Err? {
        Abandon(after, nextInode, logicalTime, v, [], sw, next, header);
        return Err(stored.error), sw;
      }
      Conclude(after, nextInode, logicalTime, stored.value, Renamed(from, to, false), v, [], sw, header, spent);
      r := Ok(());
    }

    method RenameSubtree(from: string, to: string, moves: seq<Move>, ghost v: View, ghost log: seq<Write>)
      returns (r: Result<(), Error>, ghost sw: seq<Write>)
      requires Means(law) && law.ok(v) && Unmoved(v) && nextInode >= 2 && logicalTime >= 1
      requires device.log == log && device.blocks == v.dev && allocator.Used() == v.used
      requires Describes(moves, v.dir, Rewriting(from, to))
      modifies this`directory, this`nextInode, this`logicalTime, this`generation, this`commit, this`spent, this`events
      modifies device
      ensures nextInode >= 2 && logicalTime >= 1 && law.ok(Now())
      ensures device.log == log + sw
      ensures r.Ok? ==> Outcome(v, Now(), sw, Some(Renamed(from, to, true)))
      ensures r.Ok? ==> Rekeyed(v.dir, directory, from, to, true)
      ensures nextInode == v.nextInode && logicalTime == v.logicalTime && spent == v.spent
      ensures r.Err? ==> Outcome(v, Now(), sw, None) && r.error in {CheckpointTooLarge, DeviceFailed}
    {
      ghost var key := Rewriting(from, to);
      DirectoryLive(law, v);
      ChangeNormal(v.dir, |v.dev|, from, to, true);
      ghost var next := Image(v.generation + 1, Rekey(v.dir, key), nextInode, logicalTime);
      ghost var header;
      var stored, after;
      stored, after, sw, header :=
        MoveAllAndPersist(format, device, generation, directory, moves, nextInode, logicalTime, key, v, next);
      assert [] + sw == sw;
      RekeyFacts(law, v, from, to, true, key, sw);
      if stored.Err? {
        Abandon(after, nextInode, logicalTime, v, [], sw, next, header);
        return Err(stored.error), sw;
      }
      Conclude(after, nextInode, logicalTime, stored.value, Renamed(from, to, true), v, [], sw, header, spent);
      r := Ok(());
    }

    /** Renames everything below `from`, unless something is in the way. */
    method RenameDirectory(from: string, to: string, ghost v: View, ghost log: seq<Write>)
      returns (r: Result<(), Error>, ghost sw: seq<Write>)
      requires Means(law) && law.ok(v) && Unmoved(v) && nextInode >= 2 && logicalTime >= 1
      requires device.log == log && device.blocks == v.dev && allocator.Used() == v.used
      requires Normalize(from) in v.dir && Normalize(to) !in v.dir && Anchored(to)
      modifies this`directory, this`nextInode, this`logicalTime, this`generation, this`commit, this`spent, this`events
      modifies device
      ensures nextInode >= 2 && logicalTime >= 1 && law.ok(Now())
      ensures device.log == log + sw
      ensures r.Ok? ==> Outcome(v, Now(), sw, Some(Renamed(from, to, true)))
      ensures r.Ok? ==> Rekeyed(v.dir, directory, from, to, true)
      ensures nextInode == v.nextInode && logicalTime == v.logicalTime && spent == v.spent
      ensures r.Err? ==> Outcome(v, Now(), sw, None) && r.error in {CheckpointTooLarge, DeviceFailed, DirectoryConflict}
      ensures r == Err(DirectoryConflict) <==> Anchored(from) && !NoClash(v.dir, Normalize(from), Normalize(to))
    {
      DirectoryLive(law, v);
      ChangeNormal(directory, |v.dev|, from, to, true);
      var moves := Collect(directory, from, to);
      if moves.Err? {
        Refused(law, v);
        return Err(moves.error), [];
      }
      r, sw := RenameSubtree(from, to, moves.value, v, log);
    }

    /**
     * Renames a file or a directory. For a directory given by an anchored path the whole subtree
     * moves, in one commit; a failed commit leaves the directory exactly as it was.
     */
    method RenamePath(from: string, to: string) returns (r: Result<(), Error>, ghost ws: seq<Write>)
      requires Valid()
      modifies this`directory, this`nextInode, this`logicalTime, this`generation, this`commit, this`spent, this`events
      modifies device
      ensures Valid() && device.log == old(device.log) + ws
      ensures r.Err? ==> Outcome(old(Now()), Now(), ws, None)
      ensures r.Ok? ==>
                && Normalize(from) in old(directory)
                && var whole := old(directory)[Normalize(from)].inode.kind == Kind.Directory;
                   && Outcome(old(Now()), Now(), ws, Some(Renamed(from, to, whole)))
                   && Rekeyed(old(directory), directory, from, to, whole)
      ensures nextInode == old(nextInode) && logicalTime == old(logicalTime) && spent == old(spent)
      ensures r == Err(InvalidArgument) <==> from == to || !PathOk(to)
      ensures r == Err(NotFound) <==>
                from != to && PathOk(to) && Normalize(to) !in old(directory) && Normalize(from) !in old(directory)
      ensures r == Err(DirectoryConflict) <==>
                from != to && PathOk(to) && (Normalize(to) in old(directory) || InTheWay(old(directory), from, to))
    {
      ghost var v := Now();
      if from == to || to == "" || to[0] != '/' || ContainsDotDot(to) {
        Refused(law, v);
        return Err(InvalidArgument), [];
      }
      var o := ComputeNormalize(from);
      var n := ComputeNormalize(to);
      if n in directory {
        Refused(law, v);
        return Err(DirectoryConflict), [];
      }
      if o !in directory {
        Refused(law, v);
        return Err(NotFound), [];
      }
      if directory[o].inode.kind != Kind.Directory {
        r, ws := RenameEntry(from, to, v, device.log);
      } else {
        r, ws := RenameDirectory(from, to, v, device.log);
      }
    }

    /** Reads a whole file: its bytes in the tree, or the reason there are none. */
    method ReadFile(path: string) returns (r: Result<seq<byte>, Error>)
      requires Valid()
      ensures r == match Lookup(Contents(), Normalize(path))
                   case None => Err(NotFound)
                   case Some(FileNode(bytes)) => Ok(bytes)
                   case Some(OtherNode(_)) => Err(Unsupported)
    {
      var key := ComputeNormalize(path);
      if key !in directory {
        return Err(NotFound);
      }
      var entry := directory[key];
      if !entry.inode.kind.File? {
        return Err(Unsupported);
      }
      EntryReadable(law, Now(), key);
      r := ReadBlocks(device, entry.blocks, entry.inode.size);
    }

    /** Reads at most `len` bytes from `offset` on: the matching slice of the file. */
    method ReadFileAt(path: string, offset: nat, len: nat) returns (r: Result<seq<byte>, Error>)
      requires Valid()
      ensures r == match Lookup(Contents(), Normalize(path))
                   case None => Err(NotFound)
                   case Some(FileNode(bytes)) => Ok(bytes[Least(offset, |bytes|)..Least(offset + len, |bytes|)])
                   case Some(OtherNode(_)) => Err(Unsupported)
    {
      var key := ComputeNormalize(path);
      if key !in directory {
        return Err(NotFound);
      }
      var entry := directory[key];
      if !entry.inode.kind.File? {
        return Err(Unsupported);
      }
      EntryReadable(law, Now(), key);
      var size := entry.inode.size;
      ContentSize(device.blocks, entry.blocks, size);
      if offset >= size || len == 0 {
        ghost var bytes := Content(device.blocks, entry.blocks, size);
        assert bytes[Least(offset, |bytes|)..Least(offset + len, |bytes|)] == [];
        return Ok([]);
      }
      r := ReadRange(device, entry.blocks, size, offset, Least(len, size - offset));
    }
  }

  /** Once the 64-bit counter stands at its last number, two files get the same one. */
  method NumbersRepeat(vol: Volume, first: string, second: string, data: seq<byte>, digest: seq<byte>)
    returns (done: bool)
    requires vol.Valid() && |data| < U64 && |digest| == 32
    requires vol.nextInode == U64 - 1 && Normalize(first) != Normalize(second)
    modifies vol, vol.device, vol.allocator
    ensures vol.Valid()
    ensures done ==>
              && Normalize(first) in vol.directory && Normalize(second) in vol.directory
              && vol.directory[Normalize(first)].inode.id == vol.directory[Normalize(second)].inode.id
  {
    var one, ws := vol.WriteFile(first, data, None, digest);
    done := false;
    if one.Ok? {
      var two, xs := vol.WriteFile(second, data, None, digest);
      done := two.Ok?;
    }
  }

  lemma NewerBlock(d: Dir, key: string, size: nat, used: set<nat>) returns (b: nat)
    requires InFreshBlocks(d, key, size, used) && size > 0
    ensures b in DataBlocks(d) && b !in used
  {
    b := d[key].blocks[0];
    BlockOf(d, key, b);
  }

  /** A snapshot, a write, and another snapshot, which has a block that was free when the first was taken. */
  method WriteBetween(vol: Volume, path: string, data: seq<byte>, digest: seq<byte>)
    returns (done: bool, first: Snapshot, ghost i: nat, ghost b: nat)
    requires vol.Valid() && 0 < |data| < U64 && |digest| == 32
    modifies vol, vol.device, vol.allocator, vol.snapshots
    ensures vol.Valid()
    ensures done ==> i + 1 < |vol.snapshots.snapshots| && vol.snapshots.snapshots[i] == first
    ensures done ==> b in DataBlocks(vol.snapshots.snapshots[i + 1].directory) && b !in UsedIn(first.allocator)
  {
    i, b := |vol.snapshots.snapshots|, 0;
    first := vol.CreateSnapshot("first");
    var written, ws := vol.WriteFile(path, data, None, digest);
    done := written.Ok?;
    if done {
      var second := vol.CreateSnapshot("second");
      b := NewerBlock(second.directory, Normalize(path), |data|, UsedIn(first.allocator));
    }
  }

  lemma SameId(snaps: seq<Snapshot>, nextId: nat, i: nat, j: nat)
    requires Ascending(snaps, nextId) && i < |snaps| && j < |snaps| && snaps[i].id == snaps[j].id
    ensures i == j
  {
    if i < j {
    } else if j < i {
    }
  }

  /**
   * Back to the first of them: a block of the second now counts as free, and one write into it makes that snapshot
   * read differently.
   */
  method RestoreOlder(vol: Volume, path: string, data: seq<byte>, digest: seq<byte>)
    returns (done: bool, ghost w: Write)
    requires vol.Valid() && 0 < |data| < U64 && |digest| == 32
    modifies vol, vol.device, vol.allocator, vol.snapshots
    ensures done ==>
              && Away([w], vol.allocator.Used())
              && !Frozen(Apply(vol.device.blocks, [w]), vol.snapshots.snapshots, vol.frozen)
  {
    var first;
    ghost var i, b;
    done, first, i, b := WriteBetween(vol, path, data, digest);
    w := Write(0, seq(BLOCK_SIZE, i => 0));
    if done {
      ghost var v := vol.Now();
      SecondSpoilt(vol.law, v, i + 1, b);
      w := Write(b, Spoilt(v.dev[b]));
      var back, at := vol.RestoreSnapshot(first.id);
      SameId(v.snaps, vol.snapshots.nextId, i, at);
    }
  }

  lemma SecondSpoilt(law: Law, v: View, j: nat, b: nat)
    requires Means(law) && law.ok(v) && j < |v.snaps| && b in DataBlocks(v.snaps[j].directory)
    ensures RESERVED_END <= b < |v.dev| && !Frozen(Apply(v.dev, [Write(b, Spoilt(v.dev[b]))]), v.snaps, v.frozen)
  {
    assert Consistent(v);
    SpoiltTree(v.dev, v.snaps[j].directory, b);
  }
}

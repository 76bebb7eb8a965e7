/** Mounting a volume: `Volume::mount` in `libs/zfs-core/src/volume.rs`. */
module Mounting {
  import opened Common
  import opened Disk
  import opened Directory
  import opened Allocator
  import opened Codec
  import opened Banks
  import opened Files
  import opened Rename
  import opened Accounting
  import opened Inodes
  import opened Images
  import opened History
  import opened Views
  import opened Volumes

  /** The blocks of `reserved` that the allocator covers. */
  ghost function Covered(reserved: seq<nat>, limit: nat): set<nat> {
    set b | b in reserved && 1 <= b < limit
  }

  /** The superblock, the banks and whatever the mount options add. */
  function Reserved(extra: seq<nat>): seq<nat> {
    extra + seq(RESERVED_END, i => i)
  }

  lemma BanksReserved(extra: seq<nat>, limit: nat)
    requires RESERVED_END <= limit
    ensures forall b :: 1 <= b < RESERVED_END ==> b in Covered(Reserved(extra), limit)
  {
    forall b | 1 <= b < RESERVED_END ensures b in Reserved(extra) {
      assert Reserved(extra)[|extra| + b] == b;
    }
  }

  method MarkReserved(a: BlockAllocator, reserved: seq<nat>, limit: nat)
    requires a.Valid() && a.base == 1 && 1 + a.total == limit && a.Used() == {}
    modifies a`bitmap, a`free
    ensures a.Valid() && a.Used() == Covered(reserved, limit)
  {
    for i := 0 to |reserved|
      invariant a.Valid() && a.Used() == Covered(reserved[..i], limit)
    {
      CoveredNext(reserved, i, limit);
      if a.InRange(reserved[i]) {
        var _ := a.MarkUsedIdempotent(reserved[i]);
      }
    }
    assert reserved[..|reserved|] == reserved;
  }

  lemma CoveredNext(reserved: seq<nat>, i: nat, limit: nat)
    requires i < |reserved|
    ensures Covered(reserved[..i + 1], limit)
            == if 1 <= reserved[i] < limit then Covered(reserved[..i], limit) + {reserved[i]}
              else Covered(reserved[..i], limit)
  {}

  ghost predicate DataInRange(blocks: seq<u64>, limit: nat) {
    forall b :: b in blocks ==> RESERVED_END <= b < limit
  }

  method MarkBlock(a: BlockAllocator, block: u64, limit: nat) returns (ok: bool)
    requires a.Valid() && a.base == 1 && 1 + a.total == limit
    modifies a`bitmap, a`free
    ensures a.Valid() && (ok <==> RESERVED_END <= block < limit)
    ensures ok ==> a.Used() == old(a.Used()) + {block}
  {
    if !a.InRange(block) || block < RESERVED_END {
      return false;
    }
    var _ := a.MarkUsedIdempotent(block);
    ok := true;
  }

  lemma MarkedNext(before: set<nat>, now: set<nat>, blocks: seq<u64>, i: nat, limit: nat)
    requires i < |blocks| && now == before + SetOf(blocks[..i]) && DataInRange(blocks[..i], limit)
    ensures now + {blocks[i]} == before + SetOf(blocks[..i + 1])
    ensures DataInRange(blocks[..i + 1], limit) <==> RESERVED_END <= blocks[i] < limit
    ensures DataInRange(blocks, limit) ==> RESERVED_END <= blocks[i] < limit
  {
    SetOfNext(blocks, i);
    assert blocks[i] in blocks;
    assert blocks[..i + 1] == blocks[..i] + [blocks[i]];
    assert blocks[i] in blocks[..i + 1];
  }

  /** Marks the blocks of one entry, or refuses it if one lies outside the data area. */
  method MarkEntry(a: BlockAllocator, blocks: seq<u64>, limit: nat) returns (ok: bool)
    requires a.Valid() && a.base == 1 && 1 + a.total == limit
    modifies a`bitmap, a`free
    ensures a.Valid() && (ok <==> DataInRange(blocks, limit))
    ensures ok ==> a.Used() == old(a.Used()) + SetOf(blocks)
  {
    ghost var before := a.Used();
    for i := 0 to |blocks|
      invariant a.Valid() && a.Used() == before + SetOf(blocks[..i]) && DataInRange(blocks[..i], limit)
    {
      MarkedNext(before, a.Used(), blocks, i, limit);
      ok := MarkBlock(a, blocks[i], limit);
      if !ok {
        return false;
      }
    }
    assert blocks[..|blocks|] == blocks;
    ok := true;
  }

  ghost predicate EntriesInRange(d: Dir, limit: nat) {
    forall p :: p in d ==> DataInRange(d[p].blocks, limit)
  }

  /** What has been re-entered when the keys in `left` are still to come. */
  ghost predicate Reentered(d: Dir, entries: Dir, left: set<string>, limit: nat) {
    && (forall p :: p in entries && p !in left ==> DataInRange(entries[p].blocks, limit))
    && (NormalKeys(entries) ==> forall p :: p in d <==> p in entries && p !in left)
    && (NormalKeys(entries) ==> forall p :: p in d ==> p in entries && d[p] == entries[p])
  }

  lemma ReenteredNext(d: Dir, entries: Dir, left: set<string>, limit: nat, p: string)
    requires Reentered(d, entries, left, limit) && p in entries && p in left && DataInRange(entries[p].blocks, limit)
    ensures Reentered(d[Normalize(p) := entries[p]], entries, left - {p}, limit)
  {
    NormalizeIsNormal(p);
  }

  lemma ReenteredAll(d: Dir, entries: Dir, limit: nat)
    requires Reentered(d, entries, {}, limit)
    ensures EntriesInRange(entries, limit) && (NormalKeys(entries) ==> d == entries)
  {}

  lemma MarkedPart(before: set<nat>, now: set<nat>, entries: Dir, left: set<string>, p: string)
    requires p in left && p in entries && now == before + PartBlocks(entries, left)
    ensures now + SetOf(entries[p].blocks) == before + PartBlocks(entries, left - {p})
  {
    PartNext(entries, left, p);
  }

  /** Re-enters the loaded entries and marks their blocks. */
  method RestoreEntries(a: BlockAllocator, entries: Dir, limit: nat) returns (r: Result<Dir, Error>)
    requires a.Valid() && a.base == 1 && 1 + a.total == limit
    modifies a`bitmap, a`free
    ensures a.Valid() && (r.Ok? <==> EntriesInRange(entries, limit)) && (r.Err? ==> r.error == CorruptEntry)
    ensures r.Ok? ==> a.Used() == old(a.Used()) + DataBlocks(entries)
    ensures r.Ok? && NormalKeys(entries) ==> r.value == entries
  {
    var d: Dir, left := map[], entries.Keys;
    ghost var before := a.Used();
    PartEnds(entries);
    while left != {}
      invariant left <= entries.Keys && a.Valid() && Reentered(d, entries, left, limit)
      invariant a.Used() == before + PartBlocks(entries, left)
      decreases |left|
    {
      var p :| p in left;
      MarkedPart(before, a.Used(), entries, left, p);
      var ok := MarkEntry(a, entries[p].blocks, limit);
      if !ok {
        return Err(CorruptEntry);
      }
      var key := ComputeNormalize(p);
      ReenteredNext(d, entries, left, limit, p);
      d := d[key := entries[p]];
      left := left - {p};
    }
    ReenteredAll(d, entries, limit);
    r := Ok(d);
  }

  /** A volume opened on a directory, with no snapshots and no history yet. */
  ghost predicate Opened(v: View, kept: set<nat>) {
    && v.snaps == [] && v.frozen == [] && v.events == [] && v.origin == TreeNow(v)
    && v.kept == kept && v.used == kept + DataBlocks(v.dir)
    && RESERVED_END < |v.dev| && v.nextInode >= 2 && v.logicalTime >= 1 && v.generation >= 1
  }

  lemma OpenedConsistent(law: Law, v: View, kept: set<nat>)
    requires Means(law) && Opened(v, kept) && Live(v.dir, |v.dev|) && Exclusive(v.dir)
    requires kept !! DataBlocks(v.dir) && forall b :: 1 <= b < RESERVED_END ==> b in kept
    requires Durable(v) && (!v.spent ==> Numbered(v.dir, v.nextInode))
    ensures law.ok(v)
  {
    assert Consistent(v) == law.ok(v);
    assert SnapBlocks(v.snaps) == {};
  }

  /** The device holds `img`, which loads, over `prev`, and nothing reserved lies in its data. */
  ghost predicate Mountable(f: Format, dev: Dev, img: Image, prev: Option<Image>, kept: set<nat>) {
    && Stored(f, dev, img, prev) && Proper(img, |dev|) && Exclusive(img.dir) && 1 <= img.generation
    && PathsOk(img.dir) && (PrevOk(prev) || Torn(f, dev, img.generation, prev))
    && NoCollision(f, dev, img.generation, prev)
    && kept !! DataBlocks(img.dir)
  }

  lemma MountableLoads(f: Format, dev: Dev, img: Image, prev: Option<Image>, kept: set<nat>)
    requires Faithful(f) && Mountable(f, dev, img, prev, kept)
    ensures Load(f, dev) == Ok(Some(Checkpoint(img.generation, Payload(img.dir, img.nextInode, img.logicalTime))))
    ensures NormalKeys(img.dir) && EntriesInRange(img.dir, |dev|)
  {
    Recovers(f, dev, img, prev, |dev|);
  }

  /** What makes a directory with its allocator a consistent volume. */
  ghost predicate Openable(f: Format, dev: Dev, used: set<nat>, kept: set<nat>, img: Image, prev: Option<Image>) {
    && RESERVED_END < |dev| && Live(img.dir, |dev|) && Exclusive(img.dir) && kept !! DataBlocks(img.dir)
    && used == kept + DataBlocks(img.dir) && (forall b :: 1 <= b < RESERVED_END ==> b in kept)
    && img.nextInode >= 2 && img.logicalTime >= 1 && img.generation >= 1 && Stored(f, dev, img, prev)
  }

  method Open(format: Format, device: Device, a: BlockAllocator, verify: bool, d: Dir, nextInode: u64, logicalTime: u64,
              generation: u64, ghost law: Law, ghost kept: set<nat>, ghost prev: Option<Image>)
                returns (vol: Volume)
    requires a.Valid() && a.base == 1 && 1 + a.total == |device.blocks| && Means(law)
    ensures fresh(vol) && fresh(vol.snapshots) && vol.device == device && vol.allocator == a
    ensures vol.directory == d && vol.generation == generation && vol.verifySignatures == verify
    ensures vol.nextInode == nextInode && vol.logicalTime == logicalTime && (vol.spent <==> !Numbered(d, nextInode))
    ensures vol.commit == Commit(Image(generation, d, nextInode, logicalTime), prev, false)
    ensures Openable(format, device.blocks, a.Used(), kept, Image(generation, d, nextInode, logicalTime), prev) ==>
              vol.Valid()
  {
    ghost var img := Image(generation, d, nextInode, logicalTime);
    vol := new Volume(format, device, a, verify, d, nextInode, logicalTime, generation, law, kept,
      Commit(img, prev, false), !Numbered(d, nextInode));
    if Openable(format, device.blocks, a.Used(), kept, img, prev) {
      OpenedConsistent(law, vol.Now(), kept);
    }
  }

  /** The checkpoint writes of the first mount: blank until the header, then the empty image. */
  lemma FirstCrash(f: Format, dev: Dev, ws: seq<Write>, payload: seq<byte>, header: Block, bank: nat, img: Image)
    requires Blank(dev) && |payload| <= CAPACITY && Announces(f, header, 1, payload) && bank == BANK_A
    requires |ws| <= Slots(|payload|) + 1 && ws == BankWrites(bank, payload, header)[..|ws|]
    requires img.generation == 1 && f.encode(img.dir, img.nextInode, img.logicalTime) == Some(payload)
    ensures forall k :: 0 <= k < |ws| ==> Blank(Apply(dev, ws[..k]))
    ensures if |ws| <= Slots(|payload|) then Blank(Apply(dev, ws)) else Stored(f, Apply(dev, ws), img, None)
  {
    forall k | 0 <= k < |ws| ensures Blank(Apply(dev, ws[..k])) {
      assert ws[..k] == BankWrites(bank, payload, header)[..k];
      FirstStore(f, dev, ws[..k], payload, header, bank, BANK_B);
    }
    FirstStore(f, dev, ws, payload, header, bank, BANK_B);
  }

  /** The first checkpoint of a device whose banks were never written. */
  method FirstCheckpoint(format: Format, device: Device, generation: u64, d: Dir, nextInode: u64, logicalTime: u64)
    returns (r: Result<u64, Error>, ghost ws: seq<Write>)
    requires generation == 0
    modifies device
    ensures device.log == old(device.log) + ws && device.blocks == Apply(old(device.blocks), ws)
    ensures r.Ok? ==> r.value == 1
    ensures Blank(old(device.blocks)) ==>
              && (forall k :: 0 <= k < |ws| ==> Blank(Apply(old(device.blocks), ws[..k])))
              && if r.Ok? then Stored(format, device.blocks, Image(1, d, nextInode, logicalTime), None)
                 else Blank(device.blocks)
  {
    ghost var header;
    r, ws, header := Store(format, device, generation, d, nextInode, logicalTime);
    ghost var encoded := format.encode(d, nextInode, logicalTime);
    if Blank(old(device.blocks)) && encoded.Some? && |encoded.value| <= CAPACITY {
      FirstCrash(format, old(device.blocks), ws, encoded.value, header, Target(NextGeneration(generation)),
        Image(1, d, nextInode, logicalTime));
    }
  }

  lemma MountableOpens(f: Format, dev: Dev, img: Image, prev: Option<Image>, used: set<nat>, kept: set<nat>)
    requires Mountable(f, dev, img, prev, kept) && used == kept + DataBlocks(img.dir)
    requires RESERVED_END < |dev| && forall b :: 1 <= b < RESERVED_END ==> b in kept
    ensures Openable(f, dev, used, kept, img, prev)
  {}

  lemma EmptyOpens(f: Format, dev: Dev, img: Image, kept: set<nat>)
    requires Stored(f, dev, img, None) && img.dir == map[]
    requires img.nextInode >= 2 && img.logicalTime >= 1 && img.generation >= 1
    requires RESERVED_END < |dev| && forall b :: 1 <= b < RESERVED_END ==> b in kept
    ensures Openable(f, dev, kept, kept, img, None)
  {
    assert DataBlocks(img.dir) == {};
  }

  /** Mounting what was loaded. A checkpoint of generation zero is written again. */
  method MountLoaded(format: Format, device: Device, a: BlockAllocator, cp: Checkpoint, verify: bool,
                     ghost law: Law, ghost kept: set<nat>, ghost img: Image, ghost prev: Option<Image>)
    returns (r: Result<Volume, Error>, ghost ws: seq<Write>)
    requires RESERVED_END < |device.blocks| && Means(law)
    requires a.Valid() && a.base == 1 && 1 + a.total == |device.blocks| && a.Used() == kept
    requires forall b :: 1 <= b < RESERVED_END ==> b in kept
    modifies device, a`bitmap, a`free
    ensures device.log == old(device.log) + ws && device.blocks == Apply(old(device.blocks), ws)
    ensures Mountable(format, old(device.blocks), img, prev, kept)
            && cp == Checkpoint(img.generation, Payload(img.dir, img.nextInode, img.logicalTime))
            && NormalKeys(img.dir) && EntriesInRange(img.dir, |old(device.blocks)|) ==>
              && r.Ok? && ws == [] && fresh(r.value) && r.value.device == device && r.value.Valid()
              && r.value.directory == img.dir && r.value.generation == img.generation
              && r.value.commit == Commit(img, prev, false)
              && r.value.nextInode == img.nextInode && r.value.logicalTime == img.logicalTime
              && (r.value.spent <==> !Numbered(img.dir, img.nextInode))
              && r.value.allocator.Used() == kept + DataBlocks(img.dir)
  {
    ws := [];
    var state := cp.payload;
    var d := RestoreEntries(a, state.entries, |device.blocks|);
    if d.Err? {
      return Err(d.error), ws;
    }
    var generation := cp.generation;
    if generation == 0 {
      var stored;
      stored, ws := FirstCheckpoint(format, device, generation, d.value, state.nextInode, state.logicalTime);
      if stored.Err? {
        return Err(stored.error), ws;
      }
      generation := stored.value;
    }
    var vol := Open(format, device, a, verify, d.value, state.nextInode, state.logicalTime, generation, law, kept,
      prev);
    if Mountable(format, old(device.blocks), img, prev, kept) && d.value == state.entries == img.dir && ws == [] {
      MountableOpens(format, device.blocks, img, prev, a.Used(), kept);
    }
    r := Ok(vol);
  }

  /** Mounting a device with no checkpoint. */
  method MountBlank(format: Format, device: Device, a: BlockAllocator, verify: bool,
                    ghost law: Law, ghost kept: set<nat>)
    returns (r: Result<Volume, Error>, ghost ws: seq<Write>)
    requires RESERVED_END < |device.blocks| && Means(law)
    requires a.Valid() && a.base == 1 && 1 + a.total == |device.blocks| && a.Used() == kept
    requires forall b :: 1 <= b < RESERVED_END ==> b in kept
    modifies device
    ensures device.log == old(device.log) + ws && device.blocks == Apply(old(device.blocks), ws)
    ensures Blank(old(device.blocks)) ==>
              && (forall k :: 0 <= k < |ws| ==> Blank(Apply(old(device.blocks), ws[..k])))
              && (r.Err? ==> Blank(device.blocks))
              && (r.Ok? ==> r.value.Valid() && r.value.directory == map[] && r.value.generation == 1
                            && r.value.commit.prev.None? && r.value.allocator.Used() == kept
                            && r.value.nextInode == 2 && r.value.logicalTime == 1 && !r.value.spent)
  {
    var stored;
    stored, ws := FirstCheckpoint(format, device, 0, map[], 2, 1);
    if stored.Err? {
      return Err(stored.error), ws;
    }
    var vol := Open(format, device, a, verify, map[], 2, 1, stored.value, law, kept, None);
    if Blank(old(device.blocks)) {
      EmptyOpens(format, device.blocks, Image(1, map[], 2, 1), kept);
    }
    r := Ok(vol);
  }

  /**
   * `mount`: a device that holds a loadable image comes back as exactly that directory, with
   * exactly the reserved and live blocks in use and nothing written; a blank device becomes an
   * empty volume with its first checkpoint, and stays blank if that cannot be stored.
   */
  method Mount(format: Format, device: Device, extra: seq<nat>, verify: bool,
               ghost law: Law, ghost img: Image, ghost prev: Option<Image>, ghost kept: set<nat>)
    returns (r: Result<Volume, Error>, ghost ws: seq<Write>)
    requires RESERVED_END < |device.blocks| < U64 && Means(law) && Faithful(format)
    requires kept == Covered(Reserved(extra), |device.blocks|)
    modifies device
    ensures device.log == old(device.log) + ws && device.blocks == Apply(old(device.blocks), ws)
    ensures Load(format, old(device.blocks)).Err? ==> r == Err(Load(format, old(device.blocks)).error) && ws == []
    ensures Mountable(format, old(device.blocks), img, prev, kept) ==>
              && r.Ok? && ws == [] && fresh(r.value) && r.value.device == device && r.value.Valid()
              && r.value.directory == img.dir && r.value.generation == img.generation
              && r.value.commit == Commit(img, prev, false)
              && r.value.nextInode == img.nextInode && r.value.logicalTime == img.logicalTime
              && (r.value.spent <==> !Numbered(img.dir, img.nextInode))
              && r.value.allocator.Used() == kept + DataBlocks(img.dir)
    ensures Blank(old(device.blocks)) ==>
              && (forall k :: 0 <= k < |ws| ==> Blank(Apply(old(device.blocks), ws[..k])))
              && (r.Err? ==> Blank(device.blocks))
              && (r.Ok? ==> r.value.Valid() && r.value.directory == map[] && r.value.generation == 1
                            && r.value.commit.prev.None? && r.value.allocator.Used() == kept
                            && r.value.nextInode == 2 && r.value.logicalTime == 1 && !r.value.spent)
  {
    var limit := |device.blocks|;
    var a := new BlockAllocator(1, limit - 1);
    MarkReserved(a, Reserved(extra), limit);
    BanksReserved(extra, limit);
    var loaded := LoadCheckpoint(format, device);
    if loaded.Err? {
      r, ws := Err(loaded.error), [];
    } else if loaded.value.None? {
      r, ws := MountBlank(format, device, a, verify, law, kept);
    } else {
      r, ws := MountLoaded(format, device, a, loaded.value.value, verify, law, kept, img, prev);
    }
    MountChecked(format, old(device.blocks), img, prev, kept);
  }

  lemma MountChecked(f: Format, dev: Dev, img: Image, prev: Option<Image>, kept: set<nat>)
    requires Faithful(f)
    ensures Blank(dev) ==> Load(f, dev) == Ok(None)
    ensures Mountable(f, dev, img, prev, kept) ==>
              && Load(f, dev) == Ok(Some(Checkpoint(img.generation, Payload(img.dir, img.nextInode, img.logicalTime))))
              && NormalKeys(img.dir) && EntriesInRange(img.dir, |dev|)
    ensures Mountable(f, dev, img, prev, kept) ==> !Blank(dev)
  {
    if Blank(dev) { LoadBlank(f, dev); }
    if Mountable(f, dev, img, prev, kept) { MountableLoads(f, dev, img, prev, kept); }
  }

  // ---- Coming back ----

  /** What a consistent volume has committed. */
  lemma CommittedImage(law: Law, v: View)
    requires Means(law) && law.ok(v) && !v.commit.worn
    ensures Durable(v) && Proper(v.commit.now, |v.dev|) && v.generation >= 1
    ensures Exclusive(v.dir) && v.kept !! DataBlocks(v.dir)
  {
    assert Consistent(v);
  }

  /** A remount takes the inode counter up where it was, so no number is given twice across mounts either. */
  lemma RemountNumbered(law: Law, v: View)
    requires Means(law) && law.ok(v) && !v.commit.worn && !v.spent
    ensures v.commit.now.nextInode == v.nextInode && Numbered(v.commit.now.dir, v.commit.now.nextInode)
  {
    assert Consistent(v);
    assert Numbered(Dirs(v.dir, v.snaps)[0], v.nextInode);
  }

  /** An image that a device holds can be mounted if and only if it loads. */
  lemma MountsIfLoads(f: Format, dev: Dev, img: Image, prev: Option<Image>, kept: set<nat>)
    requires Faithful(f) && Stored(f, dev, img, prev) && Proper(img, |dev|) && img.generation >= 1
    requires Exclusive(img.dir) && kept !! DataBlocks(img.dir) && NoCollision(f, dev, img.generation, prev)
    ensures Load(f, dev).Ok? <==> PathsOk(img.dir) && (PrevOk(prev) || Torn(f, dev, img.generation, prev))
    ensures Load(f, dev).Ok? <==> Mountable(f, dev, img, prev, kept)
  {
    Recovers(f, dev, img, prev, |dev|);
  }

  /** What becomes of the commit of `v` on a device that holds it. */
  ghost predicate ComesBack(v: View, dev: Dev) {
    var now, prev := v.commit.now, v.commit.prev;
    && Survives(v.format, dev, now, prev, TreeNow(v))
    && (NoCollision(v.format, dev, now.generation, prev) ==>
          && (Load(v.format, dev).Ok? <==>
                PathsOk(v.dir) && (PrevOk(prev) || Torn(v.format, dev, now.generation, prev)))
          && (Load(v.format, dev).Ok? <==> Mountable(v.format, dev, now, prev, v.kept)))
  }

  lemma CommittedComesBack(law: Law, v: View, dev: Dev)
    requires Means(law) && law.ok(v) && !v.commit.worn && Faithful(v.format) && |dev| == |v.dev|
    requires Survives(v.format, dev, v.commit.now, v.commit.prev, TreeNow(v))
    ensures ComesBack(v, dev)
  {
    CommittedImage(law, v);
    if NoCollision(v.format, dev, v.commit.now.generation, v.commit.prev) {
      MountsIfLoads(v.format, dev, v.commit.now, v.commit.prev, v.kept);
    }
  }

  /**
   * Crash and remount: stop an operation after any number `k` of its block writes. The device then holds
   * the image from before the operation with exactly the bytes from before, or the one from after with
   * exactly the bytes from after. Unless a torn payload has by chance the checksum of what it overwrote, it
   * mounts as that image if and only if neither that image nor the one behind it has a path with two
   * dots, or the one behind it was being overwritten.
   */
  lemma CrashThenRemount(law: Law, v: View, v': View, ws: seq<Write>, ev: Option<Event>, k: nat)
    returns (u: View)
    requires Means(law) && law.ok(v) && law.ok(v') && Outcome(v, v', ws, ev) && k <= |ws|
    requires Faithful(v.format) && Sturdy(v)
    ensures u == v || u == v'
    ensures ComesBack(u, Apply(v.dev, ws[..k]))
  {
    var dev := Apply(v.dev, ws[..k]);
    u := if Survives(v.format, dev, v.commit.now, v.commit.prev, TreeNow(v)) then v else v';
    CommittedComesBack(law, u, dev);
  }

  /** A volume with both banks whole can be mounted again if and only if neither commit has a path with two dots. */
  lemma Remounts(law: Law, v: View)
    requires Means(law) && law.ok(v) && !v.commit.worn && Intact(v) && Faithful(v.format)
    ensures Load(v.format, v.dev).Ok? <==> PathsOk(v.dir) && PrevOk(v.commit.prev)
    ensures Load(v.format, v.dev).Ok? <==> Mountable(v.format, v.dev, v.commit.now, v.commit.prev, v.kept)
  {
    CommittedImage(law, v);
    MountsIfLoads(v.format, v.dev, v.commit.now, v.commit.prev, v.kept);
  }

  /** An operation that committed, or never got as far as its checkpoint; or a snapshot taken or deleted. */
  ghost predicate CleanStep(v: View, v': View, ws: seq<Write>, ev: Option<Event>) {
    || (Outcome(v, v', ws, ev) && (ev.None? ==> forall i :: 0 <= i < |ws| ==> ws[i].lba >= RESERVED_END))
    || (v'.format == v.format && v'.dev == v.dev && v'.commit == v.commit && v'.generation == v.generation)
  }

  lemma BanksUntouched(v: View, v': View, ws: seq<Write>)
    requires Intact(v) && v'.format == v.format && v'.dev == Apply(v.dev, ws)
    requires v'.commit.now == v.commit.now && v'.commit.prev == v.commit.prev
    requires forall i :: 0 <= i < |ws| ==> ws[i].lba >= RESERVED_END
    ensures Intact(v')
  {
    BanksFrame(v.format, v.dev, ws, v.commit.now, v.commit.prev);
  }

  lemma CleanStepKeeps(v: View, v': View, ws: seq<Write>, ev: Option<Event>)
    requires Sturdy(v) && Intact(v) && CleanStep(v, v', ws, ev)
    ensures Intact(v') && !v'.commit.worn
  {
    if Outcome(v, v', ws, ev) && ev.None? && forall i :: 0 <= i < |ws| ==> ws[i].lba >= RESERVED_END {
      BanksUntouched(v, v', ws);
    }
  }

  /**
   * Any run in which no store failed half way: the volume can be mounted again if and only if neither
   * of the last two committed directories has a path with two dots.
   */
  lemma {:induction false} CleanRun(law: Law, vs: seq<View>, wss: seq<seq<Write>>, evs: seq<Option<Event>>)
    requires Means(law) && |vs| == |wss| + 1 == |evs| + 1 && Intact(vs[0]) && !vs[0].commit.worn
    requires Faithful(vs[0].format)
    requires forall i :: 0 <= i < |vs| ==> law.ok(vs[i]) && vs[i].format == vs[0].format
    requires forall i :: 0 <= i < |wss| ==> vs[i].generation + 1 < U64 && CleanStep(vs[i], vs[i + 1], wss[i], evs[i])
    ensures var v := vs[|vs| - 1];
            && Intact(v) && !v.commit.worn
            && (Load(v.format, v.dev).Ok? <==> PathsOk(v.dir) && PrevOk(v.commit.prev))
            && (Load(v.format, v.dev).Ok? <==> Mountable(v.format, v.dev, v.commit.now, v.commit.prev, v.kept))
    decreases |vs|
  {
    var n := |wss|;
    if n != 0 {
      CleanRun(law, vs[..n], wss[..n - 1], evs[..n - 1]);
      assert vs[..n][n - 1] == vs[n - 1];
      CleanStepKeeps(vs[n - 1], vs[n], wss[n - 1], evs[n - 1]);
    }
    Remounts(law, vs[n]);
  }

  lemma TreeKeys(dev: Dev, d: Dir)
    ensures TreeOf(dev, d).Keys == d.Keys
  {}

  /**
   * Writing `/..` and removing it again: both complete, no live path contains two dots, and yet the
   * volume no longer loads, because the bank behind still does.
   */
  lemma RemovedTooLate(law: Law, v: View, v1: View, v2: View, bytes: seq<byte>, ws: seq<Write>,
                       ws2: seq<Write>)
    requires Means(law) && law.ok(v) && law.ok(v1) && law.ok(v2) && Faithful(v.format) && Sturdy(v) && Sturdy(v1)
    requires PathsOk(v.dir)
    requires Outcome(v, v1, ws, Some(Wrote("/..", bytes))) && Outcome(v1, v2, ws2, Some(Removed("/..")))
    ensures PathsOk(v2.dir) && Load(v2.format, v2.dev).Err?
  {
    TreeKeys(v.dev, v.dir);
    TreeKeys(v1.dev, v1.dir);
    TreeKeys(v2.dev, v2.dir);
    assert "/.." in v1.dir && v2.dir.Keys == v1.dir.Keys - {"/.."};
    forall p | p in v2.dir ensures PathOk(p) { assert p in v.dir; }
    assert "/.."[1] == '.' && "/.."[2] == '.';
    assert !PathOk("/..");
    CommittedImage(law, v1);
    Remounts(law, v2);
  }
}

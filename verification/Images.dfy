/**
 * Committed volume images: what a device recovers to, and what every prefix of the block writes
 * of one volume operation recovers to.
 */
module Images {
  import opened Common
  import opened Disk
  import opened Directory
  import opened Codec
  import opened Banks
  import opened Files

  /** One committed checkpoint. */
  datatype Image = Image(generation: nat, dir: Dir, nextInode: u64, logicalTime: u64)

  ghost predicate Encodes(f: Format, img: Image, payload: seq<byte>) {
    f.encode(img.dir, img.nextInode, img.logicalTime) == Some(payload)
  }

  ghost predicate Proper(img: Image, limit: nat) {
    Live(img.dir, limit) && img.generation < U64 && img.nextInode >= 2 && img.logicalTime >= 1
  }

  ghost function Spelled(f: Format, img: Image): Option<seq<byte>> {
    f.encode(img.dir, img.nextInode, img.logicalTime)
  }

  /**
   * The bank that is not current: never written, or under the header of the commit before the
   * current one. Its payload blocks may have been overwritten, in part, by a store that did not finish.
   */
  ghost predicate Backed(f: Format, dev: Dev, generation: nat, prev: Option<Image>) {
    && |dev| >= RESERVED_END
    && match prev
       case None => !HasMagic(dev[Target(generation + 1)])
       case Some(p) =>
         var e := Spelled(f, p);
         && p.generation + 1 == generation && Proper(p, |dev|) && e.Some? && |e.value| <= CAPACITY
         && Announces(f, dev[Target(generation + 1)], p.generation, e.value)
  }

  /** What now lies behind the header of the commit before the current one. */
  ghost function Behind(f: Format, dev: Dev, p: Image): seq<byte>
    requires |dev| >= RESERVED_END && Spelled(f, p).Some? && |Spelled(f, p).value| <= CAPACITY
  {
    SlotsFit(|Spelled(f, p).value|);
    Gather(dev, Target(p.generation) + 1, |Spelled(f, p).value|)
  }

  /** Some of it has been overwritten. */
  ghost predicate Torn(f: Format, dev: Dev, generation: nat, prev: Option<Image>)
    requires Backed(f, dev, generation, prev)
  {
    prev.Some? && Behind(f, dev, prev.value) != Spelled(f, prev.value).value
  }

  /** The mixture does not by chance have the checksum of what it overwrote. */
  ghost predicate NoCollision(f: Format, dev: Dev, generation: nat, prev: Option<Image>)
    requires Backed(f, dev, generation, prev)
  {
    Torn(f, dev, generation, prev) ==> f.crc(Behind(f, dev, prev.value)) != f.crc(Spelled(f, prev.value).value)
  }

  /** No path of the commit before contains two dots. */
  ghost predicate PrevOk(prev: Option<Image>) {
    prev.Some? ==> PathsOk(prev.value.dir)
  }

  /** The device holds `img` as its current checkpoint, and `prev` behind it. */
  ghost predicate Stored(f: Format, dev: Dev, img: Image, prev: Option<Image>) {
    var e := Spelled(f, img);
    e.Some? && Holds(f, dev, img.generation, e.value) && Backed(f, dev, img.generation, prev)
  }

  /** The device holds `img`, and the data blocks still spell `tree`. */
  ghost predicate Survives(f: Format, dev: Dev, img: Image, prev: Option<Image>, tree: Tree) {
    Stored(f, dev, img, prev) && TreeOf(dev, img.dir) == tree
  }

  /** Stopping after any number of the writes leaves exactly the old image or, at the end, exactly the new one. */
  ghost predicate CrashSafe(f: Format, dev: Dev, ws: seq<Write>, img: Image, prev: Option<Image>, tree: Tree,
                            img': Image, prev': Option<Image>, tree': Tree) {
    forall k :: 0 <= k <= |ws| ==>
      Survives(f, Apply(dev, ws[..k]), img, prev, tree) || Survives(f, Apply(dev, ws[..k]), img', prev', tree')
  }

  // ---- Recovery ----

  /** What the payload of an image decodes to. */
  function Decoded(img: Image): Result<Payload, Error> {
    if PathsOk(img.dir) then Ok(Payload(img.dir, img.nextInode, img.logicalTime)) else Err(PathInvalid)
  }

  /** The decoder inverts the encoder, except that it refuses paths with two dots. */
  ghost predicate Faithful(f: Format) {
    forall img: Image, limit: nat, payload: seq<byte> ::
      Proper(img, limit) && Encodes(f, img, payload) && |payload| <= CAPACITY ==> f.decode(payload) == Decoded(img)
  }

  lemma LoadStored(f: Format, dev: Dev, generation: nat, payload: seq<byte>, decoded: Result<Payload, Error>)
    requires Holds(f, dev, generation, payload) && StaleOlder(dev, generation) && f.decode(payload) == decoded
    ensures Load(f, dev).Ok? <==> decoded.Ok? && !AcceptsGarbage(f, dev, Target(generation + 1))
    ensures Load(f, dev).Ok? ==> Load(f, dev).value == Some(Checkpoint(generation, decoded.value))
  {
    if decoded.Ok? {
      LoadHeld(f, dev, generation, payload);
    } else {
      LoadHeldBad(f, dev, generation, payload);
    }
  }

  lemma BackedOlder(f: Format, dev: Dev, generation: nat, prev: Option<Image>)
    requires Backed(f, dev, generation, prev)
    ensures StaleOlder(dev, generation)
  {}

  lemma SameTarget(generation: nat)
    ensures Target(generation) == Target(generation + 2)
  {}

  lemma Decodes(f: Format, img: Image, payload: seq<byte>, limit: nat)
    requires Faithful(f) && Proper(img, limit) && Spelled(f, img) == Some(payload) && |payload| <= CAPACITY
    ensures f.decode(payload) == Decoded(img)
  {
    assert Encodes(f, img, payload);
  }

  /**
   * When the other bank stands in the way of loading: exactly when it still holds, untouched, the commit
   * before, and that commit has a path with two dots.
   */
  lemma OtherBank(f: Format, dev: Dev, generation: nat, prev: Option<Image>)
    requires Faithful(f) && Backed(f, dev, generation, prev) && NoCollision(f, dev, generation, prev)
    ensures AcceptsGarbage(f, dev, Target(generation + 1)) <==> !PrevOk(prev) && !Torn(f, dev, generation, prev)
  {
    if prev.Some? {
      var p := prev.value;
      var payload := Spelled(f, p).value;
      SameTarget(p.generation);
      SlotsFit(|payload|);
      Decodes(f, p, payload, |dev|);
    }
  }

  /**
   * A device that holds `img` over `prev` loads exactly when no path of `img` contains two dots, and none
   * of `prev` does or `prev` has been overwritten; and what it loads is `img` itself.
   */
  lemma Recovers(f: Format, dev: Dev, img: Image, prev: Option<Image>, limit: nat)
    requires Faithful(f) && Stored(f, dev, img, prev) && Proper(img, limit) && NoCollision(f, dev, img.generation, prev)
    ensures Load(f, dev).Ok? <==> PathsOk(img.dir) && (PrevOk(prev) || Torn(f, dev, img.generation, prev))
    ensures Load(f, dev).Ok? ==>
              Load(f, dev).value == Some(Checkpoint(img.generation, Payload(img.dir, img.nextInode, img.logicalTime)))
  {
    var payload := Spelled(f, img).value;
    OtherBank(f, dev, img.generation, prev);
    Decodes(f, img, payload, limit);
    BackedOlder(f, dev, img.generation, prev);
    LoadStored(f, dev, img.generation, payload, Decoded(img));
  }

  // ---- Crashing during an operation ----

  /** The writes land past the banks and miss the data of the image. */
  ghost predicate Spares(ws: seq<Write>, img: Image) {
    Avoids(ws, DataBlocks(img.dir)) && forall i :: 0 <= i < |ws| ==> ws[i].lba >= RESERVED_END
  }

  lemma BackedFrame(f: Format, dev: Dev, dev': Dev, generation: nat, prev: Option<Image>)
    requires Backed(f, dev, generation, prev) && |dev'| == |dev|
    requires dev'[Target(generation + 1)] == dev[Target(generation + 1)]
    ensures Backed(f, dev', generation, prev)
  {}

  /** Such writes leave the image in place, and whatever lies behind it. */
  lemma DataStep(f: Format, dev: Dev, ws: seq<Write>, img: Image, prev: Option<Image>, tree: Tree)
    requires Survives(f, dev, img, prev, tree) && Spares(ws, img)
    ensures Survives(f, Apply(dev, ws), img, prev, tree)
    ensures Torn(f, Apply(dev, ws), img.generation, prev) == Torn(f, dev, img.generation, prev)
  {
    AvoidsAgree(dev, ws, DataBlocks(img.dir));
    TreeFrame(dev, Apply(dev, ws), img.dir);
    BanksFrame(f, dev, ws, img, prev);
  }

  /** Writes past the banks leave both banks as they are. */
  lemma BanksFrame(f: Format, dev: Dev, ws: seq<Write>, img: Image, prev: Option<Image>)
    requires Stored(f, dev, img, prev) && forall i :: 0 <= i < |ws| ==> ws[i].lba >= RESERVED_END
    ensures Stored(f, Apply(dev, ws), img, prev)
    ensures Torn(f, Apply(dev, ws), img.generation, prev) == Torn(f, dev, img.generation, prev)
  {
    forall b | 0 <= b < RESERVED_END && b < |dev| ensures Apply(dev, ws)[b] == dev[b] { ApplyUntouched(dev, ws, b); }
    HoldsFrame(f, dev, Apply(dev, ws), img.generation, Spelled(f, img).value);
    TornFrame(f, dev, Apply(dev, ws), img.generation, prev);
  }

  lemma TornFrame(f: Format, dev: Dev, dev': Dev, generation: nat, prev: Option<Image>)
    requires Backed(f, dev, generation, prev) && SameBank(dev, dev', Target(generation + 1)) && |dev'| == |dev|
    ensures Backed(f, dev', generation, prev) && Torn(f, dev', generation, prev) == Torn(f, dev, generation, prev)
  {
    if prev.Some? {
      var n := |Spelled(f, prev.value).value|;
      SlotsFit(n);
      SameTarget(prev.value.generation);
      GatherFrame(dev, dev', Target(prev.value.generation) + 1, n);
    }
  }

  lemma TreeOutside(dev: Dev, dev': Dev, d: Dir, limit: nat)
    requires Live(d, limit) && SameOutside(dev, dev', 0, RESERVED_END)
    ensures TreeOf(dev', d) == TreeOf(dev, d)
  {
    LiveBlocks(d, limit);
    TreeFrame(dev, dev', d);
  }

  /** The checkpoint writes that bring `img'` after `img`. */
  ghost predicate Commits(f: Format, ws: seq<Write>, img: Image, img': Image, header: Block) {
    var e := f.encode(img'.dir, img'.nextInode, img'.logicalTime);
    && e.Some? && |e.value| <= CAPACITY && img'.generation == img.generation + 1
    && Announces(f, header, img'.generation, e.value)
    && |ws| <= Slots(|e.value|) + 1
    && ws == BankWrites(Target(img'.generation), e.value, header)[..|ws|]
  }

  ghost predicate Finished(f: Format, ws: seq<Write>, img': Image) {
    var e := f.encode(img'.dir, img'.nextInode, img'.logicalTime);
    e.Some? && |ws| == Slots(|e.value|) + 1
  }

  /** The image that was current becomes the one behind, untouched. */
  lemma NowBehind(f: Format, dev: Dev, dk: Dev, img: Image, payload: seq<byte>)
    requires Holds(f, dev, img.generation, payload) && Spelled(f, img) == Some(payload) && Proper(img, |dev|)
    requires SameBank(dev, dk, Target(img.generation)) && |dk| == |dev|
    ensures Backed(f, dk, img.generation + 1, Some(img)) && !Torn(f, dk, img.generation + 1, Some(img))
  {
    HoldsFrame(f, dev, dk, img.generation, payload);
    SameTarget(img.generation);
  }

  /**
   * After any part of the checkpoint writes, the old image is there, or the new one over the old if they are complete.
   */
  lemma StoreStep(f: Format, dev: Dev, ws: seq<Write>, img: Image, prev: Option<Image>, tree: Tree, img': Image,
                  header: Block)
    requires Survives(f, dev, img, prev, tree) && Commits(f, ws, img, img', header)
    requires Proper(img, |dev|) && Live(img'.dir, |dev|)
    ensures if Finished(f, ws, img')
            then Survives(f, Apply(dev, ws), img', Some(img), TreeOf(dev, img'.dir))
                 && !Torn(f, Apply(dev, ws), img'.generation, Some(img))
            else Survives(f, Apply(dev, ws), img, prev, tree)
  {
    var before, payload := Spelled(f, img).value, Spelled(f, img').value;
    var bank, other := Target(img'.generation), Target(img.generation);
    TreeOutsideStore(f, dev, ws, img, img', header);
    if Finished(f, ws, img') {
      assert ws == BankWrites(bank, payload, header);
      StoreHolds(f, dev, img'.generation, bank, other, payload, header);
      NowBehind(f, dev, Apply(dev, ws), img, before);
    } else {
      StoreUnfinished(f, dev, ws, img, prev, img', header);
    }
  }

  lemma StoreUnfinished(f: Format, dev: Dev, ws: seq<Write>, img: Image, prev: Option<Image>, img': Image,
                        header: Block)
    requires Stored(f, dev, img, prev) && Commits(f, ws, img, img', header) && !Finished(f, ws, img')
    ensures Stored(f, Apply(dev, ws), img, prev)
  {
    var before, payload := Spelled(f, img).value, Spelled(f, img').value;
    CrashBeforeHeader(dev, Target(img'.generation), Target(img.generation), payload, header, |ws|);
    HoldsFrame(f, dev, Apply(dev, ws), img.generation, before);
    BackedFrame(f, dev, Apply(dev, ws), img.generation, prev);
  }

  lemma TreeOutsideStore(f: Format, dev: Dev, ws: seq<Write>, img: Image, img': Image, header: Block)
    requires Commits(f, ws, img, img', header) && |dev| >= RESERVED_END && Live(img.dir, |dev|) && Live(img'.dir, |dev|)
    ensures TreeOf(Apply(dev, ws), img.dir) == TreeOf(dev, img.dir)
    ensures TreeOf(Apply(dev, ws), img'.dir) == TreeOf(dev, img'.dir)
  {
    var bank := Target(img'.generation);
    BankWritesWithin(bank, Spelled(f, img').value, header, |ws|);
    ApplyWithin(dev, ws, bank, bank + BANK_BLOCKS);
    TreeOutside(dev, Apply(dev, ws), img.dir, |dev|);
    TreeOutside(dev, Apply(dev, ws), img'.dir, |dev|);
  }

  lemma CommitsPrefix(f: Format, ws: seq<Write>, img: Image, img': Image, header: Block, k: nat)
    requires Commits(f, ws, img, img', header) && k <= |ws|
    ensures Commits(f, ws[..k], img, img', header) && (k < |ws| ==> !Finished(f, ws[..k], img'))
  {
    assert ws[..k] == BankWrites(Target(img'.generation),
      f.encode(img'.dir, img'.nextInode, img'.logicalTime).value, header)[..k];
  }

  lemma SplitPrefix(dev: Dev, a: seq<Write>, b: seq<Write>, k: nat)
    requires k <= |a| + |b|
    ensures k <= |a| ==> (a + b)[..k] == a[..k]
    ensures k > |a| ==> Apply(dev, (a + b)[..k]) == Apply(Apply(dev, a), b[..k - |a|])
  {
    if k <= |a| {
      assert (a + b)[..k] == a[..k];
    } else {
      assert (a + b)[..k] == a + b[..k - |a|];
      ApplyConcat(dev, a, b[..k - |a|]);
    }
  }

  lemma SparesPrefix(ws: seq<Write>, img: Image, k: nat)
    requires Spares(ws, img) && k <= |ws|
    ensures Spares(ws[..k], img)
  {}

  /** Data writes that miss the image can stop anywhere. */
  lemma DataCrashSafe(f: Format, dev: Dev, ws: seq<Write>, img: Image, prev: Option<Image>, tree: Tree)
    requires Survives(f, dev, img, prev, tree) && Spares(ws, img)
    ensures CrashSafe(f, dev, ws, img, prev, tree, img, prev, tree)
  {
    forall k | 0 <= k <= |ws| ensures Survives(f, Apply(dev, ws[..k]), img, prev, tree) {
      SparesPrefix(ws, img, k);
      DataStep(f, dev, ws[..k], img, prev, tree);
    }
  }

  lemma OneCrash(f: Format, dev: Dev, dw: seq<Write>, sw: seq<Write>, img: Image, prev: Option<Image>, tree: Tree,
                 img': Image,
                 header: Block, k: nat)
    requires Survives(f, dev, img, prev, tree) && Spares(dw, img)
    requires Commits(f, sw, img, img', header) && Proper(img, |dev|) && Live(img'.dir, |dev|)
    requires k <= |dw| + |sw|
    ensures var dk := Apply(dev, (dw + sw)[..k]);
            if k == |dw| + |sw| && Finished(f, sw, img')
            then Survives(f, dk, img', Some(img), TreeOf(Apply(dev, dw), img'.dir))
                 && !Torn(f, dk, img'.generation, Some(img))
            else Survives(f, dk, img, prev, tree)
  {
    SplitPrefix(dev, dw, sw, k);
    if k <= |dw| {
      SparesPrefix(dw, img, k);
      DataStep(f, dev, dw[..k], img, prev, tree);
      assert |sw| == 0 ==> !Finished(f, sw, img');
    } else {
      DataStep(f, dev, dw, img, prev, tree);
      CommitsPrefix(f, sw, img, img', header, k - |dw|);
      StoreStep(f, Apply(dev, dw), sw[..k - |dw|], img, prev, tree, img', header);
      assert k == |dw| + |sw| ==> sw[..k - |dw|] == sw;
    }
  }

  /** Data writes followed by checkpoint writes: old or new at every point, new exactly at the end. */
  lemma OperationCrashSafe(f: Format, dev: Dev, dw: seq<Write>, sw: seq<Write>, img: Image, prev: Option<Image>,
                           tree: Tree,
                           img': Image, tree': Tree, header: Block)
    requires Survives(f, dev, img, prev, tree) && Spares(dw, img)
    requires Commits(f, sw, img, img', header) && Proper(img, |dev|) && Live(img'.dir, |dev|)
    requires tree' == TreeOf(Apply(dev, dw), img'.dir)
    ensures CrashSafe(f, dev, dw + sw, img, prev, tree, img', Some(img), tree')
    ensures !Finished(f, sw, img') ==> CrashSafe(f, dev, dw + sw, img, prev, tree, img, prev, tree)
    ensures var d1 := Apply(dev, dw + sw);
            if Finished(f, sw, img')
            then Survives(f, d1, img', Some(img), tree') && !Torn(f, d1, img'.generation, Some(img))
            else Survives(f, d1, img, prev, tree)
  {
    var ws := dw + sw;
    forall k | 0 <= k <= |ws|
      ensures if k == |ws| && Finished(f, sw, img') then Survives(f, Apply(dev, ws[..k]), img', Some(img), tree')
              else Survives(f, Apply(dev, ws[..k]), img, prev, tree)
    {
      OneCrash(f, dev, dw, sw, img, prev, tree, img', header, k);
    }
    OneCrash(f, dev, dw, sw, img, prev, tree, img', header, |ws|);
    assert ws[..|ws|] == ws;
  }

  /**
   * Crash consistency: after any number `k` of the block writes of an operation the device holds the image
   * before it or the one after it. Unless a checksum collides, it loads exactly when that image and the one
   * behind it have no path with two dots, or the one behind it was being overwritten; and it then comes
   * back as exactly the tree before the operation or exactly the tree after it.
   */
  lemma CrashRecovery(f: Format, dev: Dev, ws: seq<Write>, img: Image, prev: Option<Image>, tree: Tree,
                      img': Image, prev': Option<Image>, tree': Tree, k: nat) returns (after: bool)
    requires Faithful(f) && CrashSafe(f, dev, ws, img, prev, tree, img', prev', tree') && k <= |ws|
    requires Proper(img, |dev|) && Proper(img', |dev|)
    ensures var dk := Apply(dev, ws[..k]);
            if after then Found(f, dk, img', prev', tree') else Found(f, dk, img, prev, tree)
  {
    var dk := Apply(dev, ws[..k]);
    after := !Survives(f, dk, img, prev, tree);
    if after {
      FoundIt(f, dk, img', prev', tree');
    } else {
      FoundIt(f, dk, img, prev, tree);
    }
  }

  /** What a device that holds an image does when it is loaded. */
  ghost predicate Found(f: Format, dev: Dev, img: Image, prev: Option<Image>, tree: Tree) {
    && Survives(f, dev, img, prev, tree)
    && (NoCollision(f, dev, img.generation, prev) ==>
          && (Load(f, dev).Ok? <==> PathsOk(img.dir) && (PrevOk(prev) || Torn(f, dev, img.generation, prev)))
          && (Load(f, dev).Ok? ==>
                Load(f, dev).value ==
                    Some(Checkpoint(img.generation, Payload(img.dir, img.nextInode, img.logicalTime)))))
  }

  lemma FoundIt(f: Format, dev: Dev, img: Image, prev: Option<Image>, tree: Tree)
    requires Faithful(f) && Survives(f, dev, img, prev, tree) && Proper(img, |dev|)
    ensures Found(f, dev, img, prev, tree)
  {
    if NoCollision(f, dev, img.generation, prev) { Recovers(f, dev, img, prev, |dev|); }
  }

  /** One committed path with two dots in it, and the volume no longer loads. */
  lemma TwoDotsUnloadable(f: Format, dev: Dev, img: Image, prev: Option<Image>, limit: nat)
    requires Faithful(f) && Stored(f, dev, img, prev) && Proper(img, limit) && "/.." in img.dir
    ensures Normal("/..") && Load(f, dev).Err?
  {
    assert "/.."[1] == '.' && "/.."[2] == '.';
    assert !PathOk("/..");
    var payload := Spelled(f, img).value;
    assert Encodes(f, img, payload);
    LoadHeldBad(f, dev, img.generation, payload);
  }

  /** The very first checkpoint: until its header is written the device stays blank. */
  lemma FirstStore(f: Format, dev: Dev, ws: seq<Write>, payload: seq<byte>, header: Block, bank: nat, other: nat)
    requires Blank(dev) && |payload| <= CAPACITY && Announces(f, header, 1, payload)
    requires bank == BANK_A && other == BANK_B
    requires |ws| <= Slots(|payload|) + 1 && ws == BankWrites(bank, payload, header)[..|ws|]
    ensures |ws| <= Slots(|payload|) ==> Blank(Apply(dev, ws))
    ensures |ws| == Slots(|payload|) + 1 ==> Holds(f, Apply(dev, ws), 1, payload) && Backed(f, Apply(dev, ws), 1, None)
    ensures SameOutside(dev, Apply(dev, ws), 0, RESERVED_END)
  {
    if |ws| <= Slots(|payload|) {
      CrashBeforeHeader(dev, bank, other, payload, header, |ws|);
    } else {
      assert ws == BankWrites(bank, payload, header);
      StoreHolds(f, dev, 1, bank, other, payload, header);
    }
  }

  // ---- The real format is faithful ----

  lemma {:induction false} NumbersLong(widths: seq<nat>, values: seq<nat>, t: seq<byte>)
    requires |widths| == |values|
    ensures |PutNumbers(widths, values, t)| >= |t|
    ensures widths != [] ==> |PutNumbers(widths, values, t)| >= |t| + widths[0]
    decreases |widths|
  {
    if widths != [] { NumbersLong(widths[1..], values[1..], t); }
  }

  lemma {:induction false} EntriesLong(put: (string, Entry, seq<byte>) -> seq<byte>, ks: seq<string>, d: Dir)
    requires forall k :: k in ks ==> k in d
    requires forall k, e, t :: |put(k, e, t)| >= |t| + 1
    ensures |PutEntries(put, ks, d)| >= |ks|
    decreases |ks|
  {
    if ks != [] { EntriesLong(put, ks[1..], d); }
  }

  lemma EntryLong(path: string, e: Entry, t: seq<byte>, sw: seq<nat>, fw: seq<nat>)
    requires sw == SHAPE && fw == FIELDS
    ensures |PutEntry(path, e, t)| >= |t| + 1
  {
    var name := Utf8.EncodeAll(path);
    var tail := name + PutBlocks(e.blocks, e.signature.GetOr([]) + t);
    PutBlocksSplit(e.blocks, e.signature.GetOr([]) + t);
    NumbersLong(fw, FieldsOf(e), tail);
    NumbersLong(sw, ShapeOf(|name|, e), PutNumbers(fw, FieldsOf(e), tail));
  }

  lemma DirSmall(d: Dir, nextInode: u64, logicalTime: u64, top: seq<nat>)
    requires top == [8, 8, 4]
    ensures |d| <= |Encode(d, nextInode, logicalTime)|
  {
    SortedLists(d.Keys);
    forall k, e, t ensures |PutEntry(k, e, t)| >= |t| + 1 { EntryLong(k, e, t, SHAPE, FIELDS); }
    EntriesLong(PutEntry, Sorted(d.Keys), d);
    NumbersLong(top, [nextInode, logicalTime, |d|], PutEntries(PutEntry, Sorted(d.Keys), d));
  }

  lemma RealDecodes(img: Image, limit: nat, payload: seq<byte>)
    requires Proper(img, limit) && TryEncode(img.dir, img.nextInode, img.logicalTime) == Some(payload)
    requires |payload| <= CAPACITY
    ensures Decode(payload) == Decoded(img)
  {
    LiveBlocks(img.dir, limit);
    DirSmall(img.dir, img.nextInode, img.logicalTime, [8, 8, 4]);
    RoundTrip(img.dir, img.nextInode, img.logicalTime);
  }

  lemma RealFormat()
    ensures Faithful(FORMAT)
  {
    forall img: Image, limit: nat, payload: seq<byte>
      | Proper(img, limit) && Encodes(FORMAT, img, payload) && |payload| <= CAPACITY
      ensures FORMAT.decode(payload) == Decoded(img)
    {
      RealDecodes(img, limit, payload);
    }
  }
}

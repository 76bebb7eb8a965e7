/** The consistent states of a mounted volume, and how its operations move between them. */
module Views {
  import opened Common
  import opened Disk
  import opened Directory
  import opened Allocator
  import opened Banks
  import opened Files
  import opened Rename
  import opened Accounting
  import opened Inodes
  import opened Images
  import opened History

  /**
   * What the two banks are for: the current image, the one behind it, and whether a store has
   * been tried with the last generation number, which goes to the current bank.
   */
  datatype Commit = Commit(now: Image, prev: Option<Image>, worn: bool)

  /** Everything a mounted volume consists of, as one value; `spent` once inode numbers may repeat. */
  datatype View = View(
    format: Format, dev: Dev, dir: Dir, snaps: seq<Snapshot>, kept: set<nat>, used: set<nat>,
    generation: u64, commit: Commit, nextInode: u64, logicalTime: u64, spent: bool,
    frozen: seq<Tree>, origin: Tree, events: seq<Event>)

  ghost function TreeNow(v: View): Tree {
    TreeOf(v.dev, v.dir)
  }

  /** Each snapshot still reads as it did when it was taken. */
  ghost predicate Frozen(dev: Dev, snaps: seq<Snapshot>, frozen: seq<Tree>) {
    |frozen| == |snaps| && forall i :: 0 <= i < |snaps| ==> TreeOf(dev, snaps[i].directory) == frozen[i]
  }

  /** The device holds the live directory as its current checkpoint. */
  ghost predicate Durable(v: View) {
    && v.commit.now.dir == v.dir && v.commit.now.generation == v.generation
    && v.commit.now.nextInode >= 2 && 1 <= v.commit.now.logicalTime <= v.logicalTime
    && (!v.spent ==> v.commit.now.nextInode == v.nextInode)
    && Survives(v.format, v.dev, v.commit.now, v.commit.prev, TreeNow(v))
  }

  /** The next store goes to the other bank. */
  ghost predicate Sturdy(v: View) {
    !v.commit.worn && v.generation + 1 < U64
  }

  /** The other bank holds the commit before, whole, or was never written. */
  ghost predicate Intact(v: View) {
    && Stored(v.format, v.dev, v.commit.now, v.commit.prev)
    && !Torn(v.format, v.dev, v.commit.now.generation, v.commit.prev)
  }

  /** Until the counter is spent, an inode number stands for one entry in all directories. */
  ghost predicate Counted(v: View) {
    !v.spent ==> Identified(Dirs(v.dir, v.snaps), v.nextInode)
  }

  ghost predicate Consistent(v: View) {
    && RESERVED_END < |v.dev| && v.nextInode >= 2 && v.logicalTime >= 1 && v.generation >= 1
    && Accounts(v.dir, v.snaps, v.kept, v.used, |v.dev|)
    && Frozen(v.dev, v.snaps, v.frozen) && Remembered(v.snaps, v.kept, |v.dev|)
    && (!v.commit.worn ==> Durable(v)) && Counted(v)
    && TreeNow(v) == Replay(v.origin, v.events)
  }

  /** A directory that a consistent volume could go on with. */
  ghost predicate Fits(d: Dir, snaps: seq<Snapshot>, kept: set<nat>, used: set<nat>, limit: nat, next: nat,
                       spent: bool)
  {
    Accounts(d, snaps, kept, used, limit) && (!spent ==> Identified(Dirs(d, snaps), next))
  }

  /**
   * Names for the two predicates. The operations carry the names, so that only the lemmas below, and not
   * every program point, see what they stand for.
   */
  datatype Law = Law(ok: View -> bool, fits: (Dir, seq<Snapshot>, set<nat>, set<nat>, nat, nat, bool) -> bool)

  ghost predicate Means(law: Law) {
    && (forall v {:trigger Consistent(v)} :: law.ok(v) == Consistent(v))
    && (forall d, snaps, kept, used, limit, next, spent {:trigger Fits(d, snaps, kept, used, limit, next, spent)} ::
          law.fits(d, snaps, kept, used, limit, next, spent) == Fits(d, snaps, kept, used, limit, next, spent))
  }

  /** There are such names. */
  lemma SomeLaw()
    ensures exists law :: Means(law)
  {
    var law := Law(
      (v: View) => Consistent(v),
      (d: Dir, snaps: seq<Snapshot>, kept: set<nat>, used: set<nat>, limit: nat, next: nat, spent: bool) =>
        Fits(d, snaps, kept, used, limit, next, spent));
    assert Means(law);
  }

  /** Data writes into blocks that were free. */
  ghost predicate Away(dw: seq<Write>, used: set<nat>) {
    Avoids(dw, used) && forall i :: 0 <= i < |dw| ==> dw[i].lba >= RESERVED_END
  }

  /** The writes of an operation: data into blocks that were free, then checkpoint blocks. */
  ghost predicate Harmless(v: View, dw: seq<Write>, sw: seq<Write>) {
    && Away(dw, v.used)
    && (forall i :: 0 <= i < |sw| ==> 1 <= sw[i].lba < RESERVED_END)
  }

  lemma HarmlessAgree(v: View, dw: seq<Write>, sw: seq<Write>, s: set<nat>)
    requires Harmless(v, dw, sw) && s <= v.used && forall b :: b in s ==> b >= RESERVED_END
    ensures Agree(v.dev, Apply(v.dev, dw + sw), s)
  {
    assert Avoids(dw + sw, s);
    AvoidsAgree(v.dev, dw + sw, s);
  }

  lemma FrozenFrame(dev: Dev, dev': Dev, snaps: seq<Snapshot>, frozen: seq<Tree>)
    requires Frozen(dev, snaps, frozen) && Agree(dev, dev', SnapBlocks(snaps))
    ensures Frozen(dev', snaps, frozen)
  {
    forall i | 0 <= i < |snaps| ensures TreeOf(dev', snaps[i].directory) == frozen[i] {
      SnapBlocksOf(snaps, i);
      TreeFrame(dev, dev', snaps[i].directory);
    }
  }

  /** No operation touches a block of the live directory or of a snapshot. */
  lemma HarmlessTrees(v: View, dw: seq<Write>, sw: seq<Write>)
    requires Consistent(v) && Harmless(v, dw, sw)
    ensures TreeOf(Apply(v.dev, dw + sw), v.dir) == TreeNow(v)
    ensures Frozen(Apply(v.dev, dw + sw), v.snaps, v.frozen)
  {
    LiveBlocks(v.dir, |v.dev|);
    SnapBlocksRange(v.snaps, |v.dev|);
    HarmlessAgree(v, dw, sw, DataBlocks(v.dir));
    HarmlessAgree(v, dw, sw, SnapBlocks(v.snaps));
    TreeFrame(v.dev, Apply(v.dev, dw + sw), v.dir);
    FrozenFrame(v.dev, Apply(v.dev, dw + sw), v.snaps, v.frozen);
  }

  lemma HarmlessSpares(v: View, dw: seq<Write>, sw: seq<Write>)
    requires Consistent(v) && Durable(v) && Harmless(v, dw, sw)
    ensures Spares(dw, v.commit.now)
  {}

  /** What no operation on the live directory changes. */
  ghost predicate SameRest(v: View, v': View) {
    && v'.format == v.format && v'.snaps == v.snaps && v'.frozen == v.frozen
    && v'.kept == v.kept && v'.origin == v.origin && v'.logicalTime >= v.logicalTime
  }

  /**
   * What an operation did to the volume with the block writes `ws`. Without an event the tree,
   * the directory and the blocks in use are as before; with one, the tree changed by exactly that
   * event, in one commit, which leaves the commit before it whole in the other bank. Either way the
   * snapshots are untouched, and stopping after any of the writes leaves the old image or the new one.
   */
  ghost predicate Outcome(v: View, v': View, ws: seq<Write>, ev: Option<Event>) {
    && v'.dev == Apply(v.dev, ws)
    && SameRest(v, v')
    && (match ev
        case None => Unchanged(v, v')
        case Some(e) =>
          && v'.events == v.events + [e] && TreeNow(v') == Effect(TreeNow(v), e)
          && v'.generation == NextGeneration(v.generation)
          && (Sturdy(v) ==> v'.commit.prev == Some(v.commit.now) && Intact(v')))
    && (Sturdy(v) ==> !v'.commit.worn && Unharmed(v, v', ws))
  }

  ghost predicate Unchanged(v: View, v': View) {
    && v'.dir == v.dir && v'.used == v.used && v'.generation == v.generation
    && v'.commit.now == v.commit.now && v'.commit.prev == v.commit.prev
    && v'.events == v.events && TreeNow(v') == TreeNow(v)
    && TookBack(v, v')
  }

  /** A failed operation gives its inode number back, or counts down from the last 64-bit number. */
  ghost predicate TookBack(v: View, v': View) {
    if v'.nextInode == v.nextInode then v'.spent == v.spent
    else v.nextInode == U64 - 1 && v'.nextInode == U64 - 2 && v'.spent
  }

  /** Stopping after any of the writes leaves the old image or the new one. */
  ghost predicate Unharmed(v: View, v': View, ws: seq<Write>) {
    CrashSafe(v.format, v.dev, ws, v.commit.now, v.commit.prev, TreeNow(v), v'.commit.now, v'.commit.prev, TreeNow(v'))
  }

  /** What an operation that leaves the directory alone may have done to the volume. */
  ghost predicate Kept(v: View, v': View, ws: seq<Write>) {
    && v'.dev == Apply(v.dev, ws)
    && SameRest(v, v') && v'.dir == v.dir && v'.used == v.used
    && v'.generation == v.generation && v'.events == v.events
    && v'.commit.now == v.commit.now && v'.commit.prev == v.commit.prev
    && (v.commit.worn ==> v'.commit.worn) && (v'.commit.worn ==> !Sturdy(v))
    && v'.nextInode >= 2 && v'.logicalTime >= 1 && TookBack(v, v')
  }

  lemma KeptConsistent(law: Law, v: View, v': View, ws: seq<Write>)
    requires Means(law) && law.ok(v) && Kept(v, v', ws)
    requires Frozen(v'.dev, v.snaps, v.frozen) && TreeNow(v') == TreeNow(v)
    requires !v'.commit.worn ==> Survives(v.format, v'.dev, v.commit.now, v.commit.prev, TreeNow(v))
    ensures law.ok(v')
  {
    assert Consistent(v);
    assert Consistent(v') == law.ok(v');
  }

  /** An operation that failed while placing its data. */
  lemma FailedPlacing(law: Law, v: View, v': View, dw: seq<Write>)
    requires Means(law) && law.ok(v) && Away(dw, v.used) && Kept(v, v', dw)
    ensures law.ok(v') && Outcome(v, v', dw, None)
  {
    assert Consistent(v);
    assert dw + [] == dw;
    HarmlessTrees(v, dw, []);
    if !v.commit.worn {
      HarmlessSpares(v, dw, []);
      DataStep(v.format, v.dev, dw, v.commit.now, v.commit.prev, TreeNow(v));
      DataCrashSafe(v.format, v.dev, dw, v.commit.now, v.commit.prev, TreeNow(v));
    }
    KeptConsistent(law, v, v', dw);
  }

  /** An operation that was refused before it did anything. */
  lemma Refused(law: Law, v: View)
    requires Means(law) && law.ok(v)
    ensures Outcome(v, v, [], None)
  {
    assert Consistent(v);
    FailedPlacing(law, v, v, []);
  }

  /** The checkpoint writes `sw` brought `next` in after the current image. */
  ghost predicate Landed(v: View, sw: seq<Write>, next: Image, header: Block) {
    && (forall i :: 0 <= i < |sw| ==> 1 <= sw[i].lba < RESERVED_END)
    && (v.generation + 1 < U64 && v.commit.now.generation == v.generation ==>
          Commits(v.format, sw, v.commit.now, next, header) && Finished(v.format, sw, next))
  }

  /** The checkpoint writes `sw` for `next` stopped before the header, or never started. */
  ghost predicate InVain(v: View, sw: seq<Write>, next: Image, header: Block) {
    && (forall i :: 0 <= i < |sw| ==> 1 <= sw[i].lba < RESERVED_END)
    && (v.generation + 1 < U64 && v.commit.now.generation == v.generation ==>
          sw == [] || (Commits(v.format, sw, v.commit.now, next, header) && !Finished(v.format, sw, next)))
  }

  /** An operation whose commit failed. */
  lemma FailedCommit(law: Law, v: View, v': View, dw: seq<Write>, sw: seq<Write>, next: Image, header: Block)
    requires Means(law) && law.ok(v) && Away(dw, v.used) && Kept(v, v', dw + sw) && Live(next.dir, |v.dev|)
    requires InVain(v, sw, next, header) && v'.commit.worn == !Sturdy(v)
    ensures law.ok(v') && Outcome(v, v', dw + sw, None)
  {
    if sw == [] {
      assert dw + sw == dw;
      FailedPlacing(law, v, v', dw);
    } else {
      assert Consistent(v);
      HarmlessTrees(v, dw, sw);
      if Sturdy(v) {
        HarmlessSpares(v, dw, sw);
        OperationCrashSafe(v.format, v.dev, dw, sw, v.commit.now, v.commit.prev, TreeNow(v), next,
          TreeOf(Apply(v.dev, dw), next.dir), header);
      }
      KeptConsistent(law, v, v', dw + sw);
    }
  }

  /** What a committed operation did: a new directory, its event, and the checkpoint of it. */
  ghost predicate Changed(v: View, v': View, ws: seq<Write>, ev: Event) {
    && v'.dev == Apply(v.dev, ws)
    && SameRest(v, v') && v'.events == v.events + [ev]
    && v'.nextInode >= 2 && v'.logicalTime >= 1
    && v'.commit == Commit(Image(v'.generation, v'.dir, v'.nextInode, v'.logicalTime), Some(v.commit.now), !Sturdy(v))
    && v'.generation == NextGeneration(v.generation)
  }

  // ---- Inode numbers ----

  /** Inode numbers repeat after this one, or already did. */
  ghost predicate LastNumber(v: View) {
    v.spent || v.nextInode == U64 - 1
  }

  lemma CountedEntered(v: View, key: string, e: Entry, after: Dir, next: nat)
    requires Counted(v) && e.inode.id == v.nextInode
    requires after == v.dir[key := e] && next == Least(v.nextInode + 1, U64 - 1)
    ensures !LastNumber(v) ==> Identified(Dirs(after, v.snaps), next)
  {
    if !LastNumber(v) {
      NumberedEntered(Dirs(v.dir, v.snaps), v.nextInode, key, e);
      DirsUpdated(v.dir, after, v.snaps);
    }
  }

  lemma CountedRemoved(v: View, key: string)
    requires Counted(v)
    ensures !v.spent ==> Identified(Dirs(v.dir - {key}, v.snaps), v.nextInode)
  {
    if !v.spent {
      NumberedRemoved(Dirs(v.dir, v.snaps), v.nextInode, key);
      DirsUpdated(v.dir, v.dir - {key}, v.snaps);
    }
  }

  lemma CountedRekeyed(v: View, key: string -> string)
    requires Counted(v) && OneToOne(v.dir, key)
    ensures !v.spent ==> Identified(Dirs(Rekey(v.dir, key), v.snaps), v.nextInode)
  {
    if !v.spent {
      NumberedRekeyed(Dirs(v.dir, v.snaps), v.nextInode, key);
      DirsUpdated(v.dir, Rekey(v.dir, key), v.snaps);
    }
  }

  lemma CountedAppend(v: View, v': View, s: Snapshot)
    requires Counted(v) && s.directory == v.dir == v'.dir && v'.snaps == v.snaps + [s]
    requires v'.spent == v.spent && v'.nextInode == v.nextInode
    ensures Counted(v')
  {
    if !v.spent {
      NumberedDrawn(Dirs(v.dir, v.snaps), Dirs(v.dir, v'.snaps), v.nextInode,
        seq(|v.snaps| + 2, j => if j <= |v.snaps| then j else 0));
    }
  }

  lemma CountedDrop(v: View, v': View, i: nat)
    requires Counted(v) && i < |v.snaps| && v'.snaps == v.snaps[..i] + v.snaps[i + 1..]
    requires v'.dir == v.dir && v'.spent == v.spent && v'.nextInode == v.nextInode
    ensures Counted(v')
  {
    if !v.spent {
      var from := seq(|v.snaps|, j => if j <= i then j else j + 1);
      forall j | 0 <= j < |v.snaps| ensures Dirs(v.dir, v'.snaps)[j] == Dirs(v.dir, v.snaps)[from[j]] {
        if j > 0 { assert v'.snaps[j - 1] == v.snaps[from[j] - 1]; }
      }
      NumberedDrawn(Dirs(v.dir, v.snaps), Dirs(v.dir, v'.snaps), v.nextInode, from);
    }
  }

  lemma FitsMeans(law: Law, v: View, limit: nat)
    requires Means(law) && law.fits(v.dir, v.snaps, v.kept, v.used, limit, v.nextInode, v.spent)
    ensures Accounts(v.dir, v.snaps, v.kept, v.used, limit) && Counted(v)
  {
    assert Fits(v.dir, v.snaps, v.kept, v.used, limit, v.nextInode, v.spent);
  }

  /** A committed operation: consistent again, and crash safe all along. */
  lemma Committed(law: Law, v: View, v': View, dw: seq<Write>, sw: seq<Write>, ev: Event, header: Block)
    requires Means(law) && law.ok(v) && Away(dw, v.used) && Changed(v, v', dw + sw, ev)
    requires Landed(v, sw, Image(v.generation + 1, v'.dir, v'.nextInode, v'.logicalTime), header)
    requires law.fits(v'.dir, v'.snaps, v'.kept, v'.used, |v.dev|, v'.nextInode, v'.spent)
    requires TreeNow(v') == Effect(TreeNow(v), ev)
    ensures law.ok(v') && Outcome(v, v', dw + sw, Some(ev))
  {
    assert Consistent(v);
    assert Consistent(v') == law.ok(v');
    HarmlessTrees(v, dw, sw);
    ReplayNext(v.origin, v.events, ev);
    FitsMeans(law, v', |v.dev|);
    if Sturdy(v) {
      HarmlessSpares(v, dw, sw);
      BankWritesOnly(v.dev, dw, sw, v'.dir, |v.dev|);
      OperationCrashSafe(v.format, v.dev, dw, sw, v.commit.now, v.commit.prev, TreeNow(v), v'.commit.now, TreeNow(v'),
        header);
    }
  }

  lemma BankWritesOnly(dev: Dev, dw: seq<Write>, sw: seq<Write>, d: Dir, limit: nat)
    requires Live(d, limit) && forall i :: 0 <= i < |sw| ==> 1 <= sw[i].lba < RESERVED_END
    ensures TreeOf(Apply(dev, dw + sw), d) == TreeOf(Apply(dev, dw), d)
  {
    ApplyConcat(dev, dw, sw);
    ApplyWithin(Apply(dev, dw), sw, 0, RESERVED_END);
    TreeOutside(Apply(dev, dw), Apply(dev, dw + sw), d, limit);
  }

  // ---- Snapshots ----

  lemma FrozenAppend(dev: Dev, snaps: seq<Snapshot>, frozen: seq<Tree>, s: Snapshot)
    requires Frozen(dev, snaps, frozen)
    ensures Frozen(dev, snaps + [s], frozen + [TreeOf(dev, s.directory)])
  {}

  /** The snapshots changed, and with them at most the clock and the blocks in use. */
  lemma NewSnapshots(law: Law, v: View, v': View)
    requires Means(law) && law.ok(v)
    requires v' == v.(snaps := v'.snaps, frozen := v'.frozen, used := v'.used, logicalTime := v'.logicalTime)
    requires v'.logicalTime >= v.logicalTime
    requires Accounts(v'.dir, v'.snaps, v'.kept, v'.used, |v'.dev|) && Counted(v')
    requires Frozen(v'.dev, v'.snaps, v'.frozen) && Remembered(v'.snaps, v'.kept, |v'.dev|)
    ensures law.ok(v')
  {
    assert Consistent(v);
    assert Consistent(v') == law.ok(v');
  }

  /** A snapshot of the live directory and the bitmap was added. */
  ghost predicate Took(v: View, v': View, s: Snapshot) {
    && s.directory == v.dir && v'.logicalTime >= v.logicalTime
    && Saved(s.allocator) && s.allocator.base == 1 && 1 + s.allocator.total == |v.dev| && UsedIn(s.allocator) == v.used
    && v'.snaps == v.snaps + [s] && v'.frozen == v.frozen + [TreeNow(v)]
    && v' == v.(snaps := v'.snaps, frozen := v'.frozen, logicalTime := v'.logicalTime)
  }

  lemma TookFits(v: View, v': View, s: Snapshot)
    requires Consistent(v) && Took(v, v', s)
    ensures Accounts(v'.dir, v'.snaps, v'.kept, v'.used, |v'.dev|) && Counted(v')
  {
    AccountsSnapshot(v.dir, v.snaps, v.kept, v.used, |v.dev|, s);
    CountedAppend(v, v', s);
  }

  lemma TookFrozen(v: View, v': View, s: Snapshot)
    requires Consistent(v) && Took(v, v', s)
    ensures Frozen(v'.dev, v'.snaps, v'.frozen) && Remembered(v'.snaps, v'.kept, |v'.dev|)
  {
    FrozenAppend(v.dev, v.snaps, v.frozen, s);
    RememberedAppend(v.snaps, v.kept, |v.dev|, s);
  }

  lemma TookSnapshot(law: Law, v: View, v': View, s: Snapshot)
    requires Means(law) && law.ok(v) && Took(v, v', s)
    ensures law.ok(v')
  {
    assert Consistent(v);
    TookFits(v, v', s);
    TookFrozen(v, v', s);
    NewSnapshots(law, v, v');
  }

  lemma FrozenDrop(dev: Dev, snaps: seq<Snapshot>, frozen: seq<Tree>, i: nat)
    requires Frozen(dev, snaps, frozen) && i < |snaps|
    ensures Frozen(dev, snaps[..i] + snaps[i + 1..], frozen[..i] + frozen[i + 1..])
  {
    var rest, frozen' := snaps[..i] + snaps[i + 1..], frozen[..i] + frozen[i + 1..];
    forall j | 0 <= j < |rest| ensures TreeOf(dev, rest[j].directory) == frozen'[j] {
      var k := if j < i then j else j + 1;
      assert rest[j] == snaps[k] && frozen'[j] == frozen[k];
    }
  }

  /** The snapshot at `i` was dropped, and the blocks were freed that nothing else refers to. */
  ghost predicate Dropped(v: View, v': View, i: nat) {
    && i < |v.snaps| && |v.frozen| == |v.snaps|
    && v'.snaps == v.snaps[..i] + v.snaps[i + 1..] && v'.frozen == v.frozen[..i] + v.frozen[i + 1..]
    && v'.used == v.used - (DataBlocks(v.snaps[i].directory) - (DataBlocks(v.dir) + SnapBlocks(v'.snaps)))
    && v' == v.(snaps := v'.snaps, frozen := v'.frozen, used := v'.used)
  }

  lemma DroppedFits(v: View, v': View, i: nat)
    requires Consistent(v) && Dropped(v, v', i)
    ensures Accounts(v'.dir, v'.snaps, v'.kept, v'.used, |v'.dev|) && Counted(v')
  {
    AccountsDelete(v.dir, v.snaps, v.kept, v.used, |v.dev|, i, v'.snaps);
    CountedDrop(v, v', i);
  }

  lemma DroppedFrozen(v: View, v': View, i: nat)
    requires Consistent(v) && Dropped(v, v', i)
    ensures Frozen(v'.dev, v'.snaps, v'.frozen) && Remembered(v'.snaps, v'.kept, |v'.dev|)
  {
    FrozenDrop(v.dev, v.snaps, v.frozen, i);
    RememberedDrop(v.snaps, v.kept, |v.dev|, i);
  }

  lemma DroppedSnapshot(law: Law, v: View, v': View, i: nat)
    requires Means(law) && law.ok(v) && Dropped(v, v', i)
    ensures law.ok(v')
  {
    assert Consistent(v);
    DroppedFits(v, v', i);
    DroppedFrozen(v, v', i);
    NewSnapshots(law, v, v');
  }

  /**
   * An inode number is given once. Take any two paths, each in the live directory or in some snapshot: if the
   * entries have the same number they are the same entry, in one directory even the same path, and no number
   * reaches the counter.
   */
  lemma OneNumberOneEntry(law: Law, v: View, i: nat, j: nat, p: string, q: string)
    requires Means(law) && law.ok(v) && !v.spent && i <= |v.snaps| && j <= |v.snaps|
    requires p in Dirs(v.dir, v.snaps)[i] && q in Dirs(v.dir, v.snaps)[j]
    ensures var e, f := Dirs(v.dir, v.snaps)[i][p], Dirs(v.dir, v.snaps)[j][q];
            && e.inode.id < v.nextInode
            && (e.inode.id == f.inode.id ==> e == f && (i == j ==> p == q))
  {
    assert Consistent(v);
    var ds := Dirs(v.dir, v.snaps);
    assert Numbered(ds[i], v.nextInode) && Kin(ds[i], ds[j]);
  }

  lemma SnapshotSaved(law: Law, v: View, i: nat)
    requires Means(law) && law.ok(v) && i < |v.snaps|
    ensures var a := v.snaps[i].allocator; Saved(a) && a.base == 1 && 1 + a.total == |v.dev|
  {
    assert Consistent(v);
  }

  lemma FrozenLength(law: Law, v: View)
    requires Means(law) && law.ok(v)
    ensures |v.frozen| == |v.snaps|
  {
    assert Consistent(v);
  }
}

/**
 * Going back to a snapshot (`restore_snapshot`): the directory and the bitmap of that moment, in memory only. The
 * bitmap knows nothing of the blocks that were taken since.
 */
module Restoring {
  import opened Common
  import opened Disk
  import opened Directory
  import opened Allocator
  import opened Banks
  import opened Files
  import opened Accounting
  import opened Inodes
  import opened Images
  import opened Views

  /** The volume after the restore. */
  ghost function GoneBack(v: View, i: nat): View
    requires i < |v.snaps|
  {
    v.(dir := v.snaps[i].directory, used := UsedIn(v.snaps[i].allocator))
  }

  /** Going back does not bring an inode number into use again. */
  lemma RestoredNumbers(law: Law, v: View, i: nat)
    requires Means(law) && law.ok(v) && i < |v.snaps| && !v.spent
    ensures Identified(Dirs(GoneBack(v, i).dir, v.snaps), GoneBack(v, i).nextInode)
  {
    assert Consistent(v);
    NumberedBack(v.dir, v.snaps, i, v.nextInode);
  }

  // ---- Which blocks may be written over ----

  /** Data written into blocks not in `used` leaves everything in `d` as it is. */
  ghost predicate OutOfReach(dev: Dev, d: Dir, used: set<nat>) {
    forall dw :: Away(dw, used) ==> TreeOf(Apply(dev, dw), d) == TreeOf(dev, d)
  }

  /** The block with its first byte changed. */
  function Spoilt(block: Block): Block {
    block[0 := if block[0] == 0 then 1 else 0]
  }

  lemma SpoiltContent(dev: Dev, blocks: seq<u64>, size: nat, i: nat)
    requires |blocks| == Slots(size) && i < |blocks| && forall j :: 0 <= j < |blocks| ==> blocks[j] < |dev|
    ensures Content(dev[blocks[i] := Spoilt(dev[blocks[i]])], blocks, size) != Content(dev, blocks, size)
  {
    var dev' := dev[blocks[i] := Spoilt(dev[blocks[i]])];
    ContentBlock(dev, blocks, size, i, i * BLOCK_SIZE);
    ContentBlock(dev', blocks, size, i, i * BLOCK_SIZE);
    var n := Least(size - i * BLOCK_SIZE, BLOCK_SIZE);
    assert dev'[blocks[i]][..n][0] != dev[blocks[i]][..n][0];
  }

  lemma SpoiltNode(dev: Dev, e: Entry, b: nat)
    requires Sound(e, |dev|) && b in e.blocks
    ensures b < |dev| && NodeOf(dev[b := Spoilt(dev[b])], e) != NodeOf(dev, e)
  {
    var i :| 0 <= i < |e.blocks| && e.blocks[i] == b;
    forall j | 0 <= j < |e.blocks| ensures e.blocks[j] < |dev| { assert e.blocks[j] in e.blocks; }
    SpoiltContent(dev, e.blocks, e.inode.size, i);
  }

  lemma OneWrite(dev: Dev, b: nat, block: Block)
    requires b < |dev|
    ensures Apply(dev, [Write(b, block)]) == dev[b := block]
  {
    assert [Write(b, block)][..0] == [];
  }

  /** One write into a block of `d` is enough. */
  lemma SpoiltTree(dev: Dev, d: Dir, b: nat)
    requires Live(d, |dev|) && b in DataBlocks(d)
    ensures RESERVED_END <= b < |dev|
    ensures TreeOf(Apply(dev, [Write(b, Spoilt(dev[b]))]), d) != TreeOf(dev, d)
  {
    LiveBlocks(d, |dev|);
    var p :| p in d && b in Owned(d[p]);
    SpoiltNode(dev, d[p], b);
    OneWrite(dev, b, Spoilt(dev[b]));
    assert TreeOf(dev[b := Spoilt(dev[b])], d)[p] != TreeOf(dev, d)[p];
  }

  /** A directory is safe from later writes if and only if all its blocks count as in use. */
  lemma OutOfReachIff(dev: Dev, d: Dir, used: set<nat>)
    requires Live(d, |dev|)
    ensures OutOfReach(dev, d, used) <==> DataBlocks(d) <= used
  {
    if DataBlocks(d) <= used {
      forall dw | Away(dw, used) ensures TreeOf(Apply(dev, dw), d) == TreeOf(dev, d) {
        assert Avoids(dw, DataBlocks(d));
        AvoidsAgree(dev, dw, DataBlocks(d));
        TreeFrame(dev, Apply(dev, dw), d);
      }
    } else {
      var b :| b in DataBlocks(d) && b !in used;
      SpoiltTree(dev, d, b);
      assert Away([Write(b, Spoilt(dev[b]))], used);
    }
  }

  // ---- After a restore ----

  /** The snapshots taken after snapshot `i` have all their blocks among those that were in use when it was taken. */
  ghost predicate NothingNewer(snaps: seq<Snapshot>, i: nat)
    requires i < |snaps|
  {
    forall j :: i < j < |snaps| ==> DataBlocks(snaps[j].directory) <= UsedIn(snaps[i].allocator)
  }

  /** The restore itself loses nothing: the tree is that of the moment, and every snapshot reads as it did. */
  lemma RestoredReads(law: Law, v: View, i: nat)
    requires Means(law) && law.ok(v) && i < |v.snaps|
    ensures i < |v.frozen| && TreeNow(GoneBack(v, i)) == v.frozen[i] && Frozen(v.dev, v.snaps, v.frozen)
  {
    assert Consistent(v);
  }

  /**
   * What is written after it leaves every snapshot readable, if and only if no later snapshot has a block that was free
   * then.
   */
  lemma RestoredSnapshots(law: Law, v: View, i: nat)
    requires Means(law) && law.ok(v) && i < |v.snaps|
    ensures (forall j :: 0 <= j < |v.snaps| ==> OutOfReach(v.dev, v.snaps[j].directory, GoneBack(v, i).used)) <==>
            NothingNewer(v.snaps, i)
  {
    assert Consistent(v);
    var used := GoneBack(v, i).used;
    forall j | 0 <= j < |v.snaps|
      ensures OutOfReach(v.dev, v.snaps[j].directory, used) <==> DataBlocks(v.snaps[j].directory) <= used
    {
      OutOfReachIff(v.dev, v.snaps[j].directory, used);
    }
  }

  /**
   * The committed directory is still the one from before the restore. A crash after further writes brings it back
   * whole, if and only if none of its blocks was free when the snapshot was taken.
   */
  lemma RestoredCommit(law: Law, v: View, i: nat)
    requires Means(law) && law.ok(v) && i < |v.snaps| && !v.commit.worn
    ensures GoneBack(v, i).commit.now.dir == v.dir
    ensures OutOfReach(v.dev, v.commit.now.dir, GoneBack(v, i).used) <==> DataBlocks(v.dir) <= GoneBack(v, i).used
  {
    assert Consistent(v);
    OutOfReachIff(v.dev, v.dir, GoneBack(v, i).used);
  }

  lemma OnlyKeptBySnapshots(snaps: seq<Snapshot>, used: set<nat>)
    ensures SnapBlocks(snaps) <= used <==> forall j :: 0 <= j < |snaps| ==> DataBlocks(snaps[j].directory) <= used
  {
    if SnapBlocks(snaps) <= used {
      forall j | 0 <= j < |snaps| ensures DataBlocks(snaps[j].directory) <= used { SnapBlocksOf(snaps, j); }
    } else {
      var b :| b in SnapBlocks(snaps) && b !in used;
      var j := WhoseBlock(snaps, b);
    }
  }

  lemma {:induction false} WhoseBlock(snaps: seq<Snapshot>, b: nat) returns (j: nat)
    requires b in SnapBlocks(snaps)
    ensures j < |snaps| && b in DataBlocks(snaps[j].directory)
  {
    if b in DataBlocks(snaps[0].directory) {
      j := 0;
    } else {
      j := WhoseBlock(snaps[1..], b);
      j := j + 1;
    }
  }

  /**
   * The accounts are exact after the restore, if and only if no later snapshot has a block that was free then, and
   * every block that was in use then still belongs to a snapshot: none of those before it has been deleted with a
   * block of its own.
   */
  lemma RestoredAccounts(law: Law, v: View, i: nat)
    requires Means(law) && law.ok(v) && i < |v.snaps|
    ensures var u := GoneBack(v, i);
            Accounts(u.dir, u.snaps, u.kept, u.used, |u.dev|) <==>
            NothingNewer(v.snaps, i) && u.used <= v.kept + SnapBlocks(v.snaps)
  {
    assert Consistent(v);
    var u := GoneBack(v, i);
    SnapBlocksOf(v.snaps, i);
    OnlyKeptBySnapshots(v.snaps, u.used);
  }

  lemma NewestAccounts(law: Law, v: View, s: Snapshot)
    requires Means(law) && law.ok(v) && s.directory == v.dir && UsedIn(s.allocator) == v.used
    ensures Accounts(v.dir, v.snaps + [s], v.kept, v.used, |v.dev|)
  {
    assert Consistent(v);
    AccountsSnapshot(v.dir, v.snaps, v.kept, v.used, |v.dev|, s);
  }

  lemma NewestReads(law: Law, w: View, i: nat)
    requires Means(law) && law.ok(w) && i < |w.snaps|
    ensures |w.frozen| == |w.snaps| && TreeOf(w.dev, w.snaps[i].directory) == w.frozen[i]
    ensures Frozen(w.dev, w.snaps, w.frozen)
  {
    assert Consistent(w);
  }

  /**
   * Going back to the newest snapshot `s`, taken in state `v`, from any later state `w` in which no snapshot was taken
   * or deleted since: the accounts are exact again, and every path and every snapshot reads as then.
   */
  lemma RestoredNewest(law: Law, v: View, w: View, s: Snapshot)
    requires Means(law) && law.ok(v) && law.ok(w) && s.directory == v.dir && w.kept == v.kept && |w.dev| == |v.dev|
    requires w.snaps == v.snaps + [s] && w.frozen == v.frozen + [TreeNow(v)] && UsedIn(s.allocator) == v.used
    ensures GoneBack(w, |v.snaps|) == w.(dir := v.dir, used := v.used)
    ensures Accounts(v.dir, w.snaps, w.kept, v.used, |w.dev|)
    ensures TreeOf(w.dev, v.dir) == TreeNow(v) && Frozen(w.dev, w.snaps, w.frozen)
  {
    NewestAccounts(law, v, s);
    assert w.snaps[|v.snaps|] == s;
    NewestReads(law, w, |v.snaps|);
  }
}

/** Inode numbers: an entry never changes, and its number is given once. */
module Inodes {
  import opened Common
  import opened Directory
  import opened Rename
  import opened Accounting

  /** The live directory and the ones in the snapshots. */
  ghost function Dirs(d: Dir, snaps: seq<Snapshot>): (ds: seq<Dir>)
    ensures |ds| == |snaps| + 1 && ds[0] == d && forall i :: 0 <= i < |snaps| ==> ds[i + 1] == snaps[i].directory
  {
    [d] + seq(|snaps|, i requires 0 <= i < |snaps| => snaps[i].directory)
  }

  /** Every number in `d` is below `next`, and no two paths have the same one. */
  ghost predicate Numbered(d: Dir, next: nat) {
    && (forall p :: p in d ==> d[p].inode.id < next)
    && (forall p, q :: p in d && q in d && d[p].inode.id == d[q].inode.id ==> p == q)
  }

  /** Where two directories have the same number they have the same entry. */
  ghost predicate Kin(d: Dir, d': Dir) {
    forall p, q :: p in d && q in d' && d[p].inode.id == d'[q].inode.id ==> d[p] == d'[q]
  }

  /** Across all directories a number stands for one entry, and the counter is above all of them. */
  ghost predicate Identified(ds: seq<Dir>, next: nat) {
    && (forall i :: 0 <= i < |ds| ==> Numbered(ds[i], next))
    && (forall i, j :: 0 <= i < |ds| && 0 <= j < |ds| ==> Kin(ds[i], ds[j]))
  }

  /** Another live directory, numbered like the others. */
  lemma IdentifiedUpdated(ds: seq<Dir>, next: nat, d: Dir, next': nat)
    requires |ds| > 0 && Identified(ds, next) && next <= next' && Numbered(d, next')
    requires forall i :: 0 < i < |ds| ==> Kin(d, ds[i])
    ensures Identified(ds[0 := d], next')
  {
    var ds' := ds[0 := d];
    forall i, j | 0 <= i < |ds'| && 0 <= j < |ds'| ensures Kin(ds'[i], ds'[j]) {
      if i == 0 || j == 0 {
        assert i + j != 0 ==> Kin(d, ds[i + j]);
      } else {
        assert Kin(ds[i], ds[j]);
      }
    }
    forall i | 0 <= i < |ds'| ensures Numbered(ds'[i], next') {
      if i != 0 { assert Numbered(ds[i], next); }
    }
  }

  /** The entry with the next number takes a path. */
  lemma NumberedEntered(ds: seq<Dir>, next: nat, key: string, e: Entry)
    requires |ds| > 0 && Identified(ds, next) && e.inode.id == next
    ensures Identified(ds[0 := ds[0][key := e]], next + 1)
  {
    var d := ds[0][key := e];
    assert Numbered(ds[0], next);
    forall i | 0 < i < |ds| ensures Kin(d, ds[i]) {
      assert Kin(ds[0], ds[i]) && Numbered(ds[i], next);
    }
    IdentifiedUpdated(ds, next, d, next + 1);
  }

  lemma NumberedRemoved(ds: seq<Dir>, next: nat, key: string)
    requires |ds| > 0 && Identified(ds, next)
    ensures Identified(ds[0 := ds[0] - {key}], next)
  {
    var d := ds[0] - {key};
    assert Numbered(ds[0], next);
    forall i | 0 < i < |ds| ensures Kin(d, ds[i]) { assert Kin(ds[0], ds[i]); }
    IdentifiedUpdated(ds, next, d, next);
  }

  /** The entries of a rewritten directory are those of the directory. */
  lemma RekeyedNumbered(d: Dir, next: nat, key: string -> string)
    requires OneToOne(d, key) && Numbered(d, next)
    ensures Numbered(Rekey(d, key), next)
  {
    var d' := Rekey(d, key);
    forall p | p in d' ensures d'[p].inode.id < next { var o := RekeyOrigin(d, key, p); }
    forall p, q | p in d' && q in d' && d'[p].inode.id == d'[q].inode.id ensures p == q {
      var o := RekeyOrigin(d, key, p);
      var n := RekeyOrigin(d, key, q);
    }
  }

  lemma RekeyedKin(d: Dir, d1: Dir, key: string -> string)
    requires OneToOne(d, key) && Kin(d, d1)
    ensures Kin(Rekey(d, key), d1)
  {
    var d' := Rekey(d, key);
    forall p, q | p in d' && q in d1 && d'[p].inode.id == d1[q].inode.id ensures d'[p] == d1[q] {
      var o := RekeyOrigin(d, key, p);
    }
  }

  lemma NumberedRekeyed(ds: seq<Dir>, next: nat, key: string -> string)
    requires |ds| > 0 && Identified(ds, next) && OneToOne(ds[0], key)
    ensures Identified(ds[0 := Rekey(ds[0], key)], next)
  {
    RekeyedNumbered(ds[0], next, key);
    forall i | 0 < i < |ds| ensures Kin(Rekey(ds[0], key), ds[i]) { RekeyedKin(ds[0], ds[i], key); }
    IdentifiedUpdated(ds, next, Rekey(ds[0], key), next);
  }

  /** A snapshot more, one fewer, or the live directory replaced by a snapshot: the directories are old ones. */
  lemma NumberedDrawn(ds: seq<Dir>, ds': seq<Dir>, next: nat, from: seq<nat>)
    requires Identified(ds, next) && |from| == |ds'|
    requires forall i :: 0 <= i < |ds'| ==> from[i] < |ds| && ds'[i] == ds[from[i]]
    ensures Identified(ds', next)
  {
    forall i, j | 0 <= i < |ds'| && 0 <= j < |ds'| ensures Kin(ds'[i], ds'[j]) {
      assert Kin(ds[from[i]], ds[from[j]]);
    }
  }

  lemma NumberedBack(d: Dir, snaps: seq<Snapshot>, i: nat, next: nat)
    requires i < |snaps| && Identified(Dirs(d, snaps), next)
    ensures Identified(Dirs(snaps[i].directory, snaps), next)
  {
    IdentifiedUpdated(Dirs(d, snaps), next, Dirs(d, snaps)[i + 1], next);
    DirsUpdated(d, snaps[i].directory, snaps);
  }

  lemma DirsUpdated(d: Dir, d': Dir, snaps: seq<Snapshot>)
    ensures Dirs(d', snaps) == Dirs(d, snaps)[0 := d']
  {}
}

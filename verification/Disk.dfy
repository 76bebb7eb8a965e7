/** The block device of `libs/zfs-core/src/device.rs`: atomic block writes, applied in order. */
module Disk {
  import opened Common

  const BLOCK_SIZE: nat := 4096

  type Block = b: seq<byte> | |b| == BLOCK_SIZE witness seq(BLOCK_SIZE, i => 0)

  /** The contents of a device. */
  type Dev = seq<Block>

  datatype Write = Write(lba: nat, data: Block)

  /** The device after the writes `ws`; a crash is a prefix of the writes that were issued. */
  function Apply(dev: Dev, ws: seq<Write>): (r: Dev)
    ensures |r| == |dev|
    decreases |ws|
  {
    if ws == [] then dev
    else
      var w := ws[|ws| - 1];
      var d := Apply(dev, ws[..|ws| - 1]);
      if w.lba < |d| then d[w.lba := w.data] else d
  }

  ghost predicate Untouched(ws: seq<Write>, lba: nat) {
    forall i :: 0 <= i < |ws| ==> ws[i].lba != lba
  }

  lemma {:induction false} ApplyUntouched(dev: Dev, ws: seq<Write>, lba: nat)
    requires lba < |dev| && Untouched(ws, lba)
    ensures Apply(dev, ws)[lba] == dev[lba]
    decreases |ws|
  {
    if ws != [] { ApplyUntouched(dev, ws[..|ws| - 1], lba); }
  }

  /** Every write lands in the blocks from `lo` to `hi`. */
  ghost predicate Within(ws: seq<Write>, lo: nat, hi: nat) {
    forall i :: 0 <= i < |ws| ==> lo <= ws[i].lba < hi
  }

  ghost predicate SameOutside(dev: Dev, dev': Dev, lo: nat, hi: nat) {
    |dev| == |dev'| && forall i :: 0 <= i < |dev| && !(lo <= i < hi) ==> dev'[i] == dev[i]
  }

  lemma ApplyWithin(dev: Dev, ws: seq<Write>, lo: nat, hi: nat)
    requires Within(ws, lo, hi)
    ensures SameOutside(dev, Apply(dev, ws), lo, hi)
  {
    forall i | 0 <= i < |dev| && !(lo <= i < hi) ensures Apply(dev, ws)[i] == dev[i] {
      ApplyUntouched(dev, ws, i);
    }
  }

  lemma {:induction false} ApplyConcat(dev: Dev, a: seq<Write>, b: seq<Write>)
    ensures Apply(dev, a + b) == Apply(Apply(dev, a), b)
    decreases |b|
  {
    if b == [] {
      assert a + b == a;
    } else {
      var front := b[..|b| - 1];
      ApplyConcat(dev, a, front);
      assert (a + b)[..|a + b| - 1] == a + front && (a + b)[|a + b| - 1] == b[|b| - 1];
    }
  }

  /** Applying one more write of a sequence. */
  lemma ApplyNext(dev: Dev, all: seq<Write>, i: nat)
    requires i < |all|
    ensures all[..i] + [all[i]] == all[..i + 1]
    ensures Apply(dev, all[..i + 1]) == Apply(Apply(dev, all[..i]), [all[i]])
  {
    ApplyConcat(dev, all[..i], [all[i]]);
  }

  /** The last write of a sequence that writes each block once stays. */
  lemma {:induction false} ApplyOnce(dev: Dev, ws: seq<Write>, i: nat)
    requires i < |ws| && ws[i].lba < |dev|
    requires forall j :: i < j < |ws| ==> ws[j].lba != ws[i].lba
    ensures Apply(dev, ws)[ws[i].lba] == ws[i].data
    decreases |ws|
  {
    if i < |ws| - 1 { ApplyOnce(dev, ws[..|ws| - 1], i); }
  }

  /**
   * A device whose writes may fail: `faults` says, write by write, whether the medium refuses,
   * and writes past it succeed. `log` records the writes that reached the medium.
   */
  class Device {
    var blocks: Dev
    var faults: seq<bool>
    ghost var log: seq<Write>

    constructor (blocks: Dev, faults: seq<bool>)
      ensures this.blocks == blocks && this.faults == faults && log == []
    {
      this.blocks, this.faults, this.log := blocks, faults, [];
    }

    method ReadBlock(lba: nat) returns (r: Option<Block>)
      ensures r == if lba < |blocks| then Some(blocks[lba]) else None
    {
      if lba < |blocks| {
        return Some(blocks[lba]);
      }
      return None;
    }

    method WriteBlock(lba: nat, data: Block) returns (ok: bool)
      modifies this
      ensures ok ==> lba < |old(blocks)| && log == old(log) + [Write(lba, data)]
      ensures !ok ==> log == old(log)
      ensures blocks == Apply(old(blocks), log[|old(log)|..])
    {
      var fault := false;
      if faults != [] {
        fault, faults := faults[0], faults[1..];
      }
      ok := lba < |blocks| && !fault;
      if ok {
        blocks := blocks[lba := data];
        log := log + [Write(lba, data)];
        assert log[|old(log)|..] == [Write(lba, data)];
        assert [Write(lba, data)][..0] == [];
      }
    }
  }
}

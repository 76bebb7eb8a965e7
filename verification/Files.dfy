/**
 * What a directory means: the tree of paths to file contents that a set of entries describes
 * on a device, and the data blocks those entries own.
 */
module Files {
  import opened Common
  import opened Disk
  import opened Directory
  import opened Banks

  datatype Node = FileNode(bytes: seq<byte>) | OtherNode(kind: Kind)

  type Tree = map<string, Node>

  // ---- File contents ----

  function Least(a: nat, b: nat): nat {
    if a <= b then a else b
  }

  /** `size` bytes, gathered block by block. */
  function Content(dev: Dev, blocks: seq<u64>, size: nat): seq<byte> {
    if blocks == [] then []
    else
      var n := Least(size, BLOCK_SIZE);
      (if blocks[0] < |dev| then dev[blocks[0]][..n] else []) + Content(dev, blocks[1..], size - n)
  }

  lemma {:induction false} ContentStored(dev: Dev, blocks: seq<u64>, data: seq<byte>)
    requires |blocks| == Slots(|data|)
    requires forall i :: 0 <= i < |blocks| ==> blocks[i] < |dev| && dev[blocks[i]] == Chunk(data, i)
    ensures Content(dev, blocks, |data|) == data
    decreases |blocks|
  {
    if blocks != [] {
      var n := Least(|data|, BLOCK_SIZE);
      var tail := data[n..];
      assert dev[blocks[0]][..n] == data[..n];
      forall i | 0 <= i < |blocks| - 1 ensures dev[blocks[1..][i]] == Chunk(tail, i) {
        assert dev[blocks[i + 1]] == Chunk(data, i + 1);
      }
      ContentStored(dev, blocks[1..], tail);
      assert data == data[..n] + tail;
    }
  }

  lemma {:induction false} ContentFrame(dev: Dev, dev': Dev, blocks: seq<u64>, size: nat)
    requires |dev| == |dev'|
    requires forall b :: b in blocks && b < |dev| ==> dev'[b] == dev[b]
    ensures Content(dev', blocks, size) == Content(dev, blocks, size)
    decreases |blocks|
  {
    if blocks != [] {
      ContentFrame(dev, dev', blocks[1..], size - Least(size, BLOCK_SIZE));
    }
  }

  lemma {:induction false} ContentSize(dev: Dev, blocks: seq<u64>, size: nat)
    requires |blocks| == Slots(size) && forall i :: 0 <= i < |blocks| ==> blocks[i] < |dev|
    ensures |Content(dev, blocks, size)| == size
    decreases |blocks|
  {
    if blocks != [] { ContentSize(dev, blocks[1..], size - Least(size, BLOCK_SIZE)); }
  }

  /** The bytes of a file from `start`, the beginning of its block `i`, to the end of that block. */
  lemma {:induction false} ContentBlock(dev: Dev, blocks: seq<u64>, size: nat, i: nat, start: nat)
    requires |blocks| == Slots(size) && forall i :: 0 <= i < |blocks| ==> blocks[i] < |dev|
    requires i < |blocks| && start == i * BLOCK_SIZE
    ensures |Content(dev, blocks, size)| == size && start < size
    ensures var n := Least(size - start, BLOCK_SIZE);
            Content(dev, blocks, size)[start..start + n] == dev[blocks[i]][..n]
    decreases i
  {
    ContentSize(dev, blocks, size);
    if i > 0 {
      assert start - BLOCK_SIZE == (i - 1) * BLOCK_SIZE;
      ContentBlock(dev, blocks[1..], size - BLOCK_SIZE, i - 1, start - BLOCK_SIZE);
      DropHead(dev[blocks[0]], Content(dev, blocks[1..], size - BLOCK_SIZE), start, Least(size - start, BLOCK_SIZE));
    }
  }

  lemma DropHead(head: seq<byte>, rest: seq<byte>, start: nat, n: nat)
    requires |head| <= start && start + n <= |head| + |rest|
    ensures (head + rest)[start..start + n] == rest[start - |head|..start - |head| + n]
  {}

  // ---- Trees ----

  function NodeOf(dev: Dev, e: Entry): Node {
    if e.inode.kind.File? then FileNode(Content(dev, e.blocks, e.inode.size)) else OtherNode(e.inode.kind)
  }

  function TreeOf(dev: Dev, d: Dir): Tree {
    map p | p in d :: NodeOf(dev, d[p])
  }

  function SetOf(blocks: seq<u64>): set<nat> {
    set b: nat | b in blocks
  }

  function Owned(e: Entry): set<nat> {
    SetOf(e.blocks)
  }

  /** The data blocks of a directory. */
  ghost function DataBlocks(d: Dir): set<nat> {
    set p, b | p in d && b in Owned(d[p]) :: b
  }

  lemma BlockOf(d: Dir, p: string, b: nat)
    requires p in d && b in d[p].blocks
    ensures b in DataBlocks(d)
  {
    assert b in Owned(d[p]);
  }

  ghost predicate Agree(dev: Dev, dev': Dev, s: set<nat>) {
    |dev| == |dev'| && forall b :: b in s && b < |dev| ==> dev'[b] == dev[b]
  }

  lemma TreeFrame(dev: Dev, dev': Dev, d: Dir)
    requires Agree(dev, dev', DataBlocks(d))
    ensures TreeOf(dev', d) == TreeOf(dev, d)
  {
    forall p | p in d ensures NodeOf(dev', d[p]) == NodeOf(dev, d[p]) {
      forall b | b in d[p].blocks && b < |dev| ensures dev'[b] == dev[b] { BlockOf(d, p, b); }
      ContentFrame(dev, dev', d[p].blocks, d[p].inode.size);
    }
  }

  ghost predicate Avoids(ws: seq<Write>, s: set<nat>) {
    forall i :: 0 <= i < |ws| ==> ws[i].lba !in s
  }

  lemma AvoidsAgree(dev: Dev, ws: seq<Write>, s: set<nat>)
    requires Avoids(ws, s)
    ensures Agree(dev, Apply(dev, ws), s)
  {
    forall b | b in s && b < |dev| ensures Apply(dev, ws)[b] == dev[b] { ApplyUntouched(dev, ws, b); }
  }

  // ---- Live directories ----

  ghost predicate Distinct(blocks: seq<u64>) {
    forall i, j :: 0 <= i < j < |blocks| ==> blocks[i] != blocks[j]
  }

  /** An entry as the volume builds it: data in distinct blocks past the banks, one per 4096 bytes. */
  ghost predicate Sound(e: Entry, limit: nat) {
    && WellFormed(e)
    && |e.blocks| == (if e.inode.kind.File? then Slots(e.inode.size) else 0)
    && Distinct(e.blocks)
    && forall b :: b in e.blocks ==> RESERVED_END <= b < limit
  }

  ghost predicate Live(d: Dir, limit: nat) {
    forall p :: p in d ==> Normal(p) && Sound(d[p], limit)
  }

  /** No two paths share a data block. */
  ghost predicate Exclusive(d: Dir) {
    forall p, q :: p in d && q in d && p != q ==> Owned(d[p]) !! Owned(d[q])
  }

  lemma LiveBlocks(d: Dir, limit: nat)
    requires Live(d, limit)
    ensures forall b :: b in DataBlocks(d) ==> RESERVED_END <= b < limit
    ensures WellFormedDir(d)
  {}

  lemma BlocksInsert(d: Dir, p: string, e: Entry)
    requires Exclusive(d)
    ensures DataBlocks(d[p := e]) == (if p in d then DataBlocks(d) - Owned(d[p]) else DataBlocks(d)) + Owned(e)
  {
    var d' := d[p := e];
    forall b | b in DataBlocks(d')
      ensures b in (if p in d then DataBlocks(d) - Owned(d[p]) else DataBlocks(d)) + Owned(e)
    {
      var q :| q in d' && b in Owned(d'[q]);
      if q != p { assert b in Owned(d[q]); }
    }
    forall b | b in DataBlocks(d) && (p in d ==> b !in Owned(d[p])) ensures b in DataBlocks(d') {
      var q :| q in d && b in Owned(d[q]);
      assert b in Owned(d'[q]);
    }
    forall b | b in Owned(e) ensures b in DataBlocks(d') { assert b in Owned(d'[p]); }
  }

  lemma BlocksRemove(d: Dir, p: string)
    requires Exclusive(d) && p in d
    ensures DataBlocks(d - {p}) == DataBlocks(d) - Owned(d[p])
    ensures Exclusive(d - {p})
  {
    var d' := d - {p};
    forall b | b in DataBlocks(d') ensures b in DataBlocks(d) - Owned(d[p]) {
      var q :| q in d' && b in Owned(d'[q]);
      assert b in Owned(d[q]);
    }
    forall b | b in DataBlocks(d) - Owned(d[p]) ensures b in DataBlocks(d') {
      var q :| q in d && b in Owned(d[q]);
      assert b in Owned(d'[q]);
    }
  }

  lemma ExclusiveInsert(d: Dir, p: string, e: Entry)
    requires Exclusive(d) && Owned(e) !! DataBlocks(d)
    ensures Exclusive(d[p := e])
  {
    forall q | q in d && q != p ensures Owned(d[q]) !! Owned(e) {
      forall b | b in Owned(d[q]) ensures b !in Owned(e) { BlockOf(d, q, b); }
    }
  }
}

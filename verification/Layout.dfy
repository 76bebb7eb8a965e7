/** The bytes on the medium, place by place: the checkpoint header and payload of `libs/zfs-core/src/metadata.rs`. */
module Layout {
  import opened Common
  import opened Disk
  import opened Directory
  import opened Codec
  import opened Banks
  import Utf8

  function LittleEndian(bs: seq<byte>): nat {
    if bs == [] then 0 else bs[0] + 256 * LittleEndian(bs[1..])
  }

  /** The `w` bytes of `b` from `o` on are the number `v`, low byte first. */
  ghost predicate Has(b: seq<byte>, o: nat, w: nat, v: nat) {
    o + w <= |b| && LittleEndian(b[o..o + w]) == v
  }

  lemma {:induction false} LeIs(n: nat, v: nat)
    requires FitsIn(n, v)
    ensures LittleEndian(Le(n, v)) == v
  {
    if n != 0 { LeIs(n - 1, v / 256); }
  }

  /** The same number further on. */
  lemma HasAfter(b: seq<byte>, k: nat, t: seq<byte>, o: nat, w: nat, v: nat)
    requires k <= |b| && b[k..] == t && Has(t, o, w, v)
    ensures Has(b, k + o, w, v)
  {
    assert b[k + o..k + o + w] == t[o..o + w];
  }

  // ---- Runs of numbers ----

  function Width(widths: seq<nat>): nat {
    if widths == [] then 0 else widths[0] + Width(widths[1..])
  }

  lemma {:induction false} NumbersPlaced(widths: seq<nat>, values: seq<nat>, t: seq<byte>, i: nat)
    requires |widths| == |values| && i < |widths| && FitsIn(widths[i], values[i])
    ensures Has(PutNumbers(widths, values, t), Width(widths[..i]), widths[i], values[i])
    decreases |widths|
  {
    var b, rest := PutNumbers(widths, values, t), PutNumbers(widths[1..], values[1..], t);
    assert b[widths[0]..] == rest;
    if i == 0 {
      assert b[..widths[0]] == Le(widths[0], values[0]) && b[0..widths[0]] == b[..widths[0]];
      LeIs(widths[0], values[0]);
    } else {
      NumbersPlaced(widths[1..], values[1..], t, i - 1);
      assert widths[..i][0] == widths[0] && widths[..i][1..] == widths[1..][..i - 1];
      HasAfter(b, widths[0], rest, Width(widths[1..][..i - 1]), widths[i], values[i]);
    }
  }

  lemma {:induction false} NumbersEnd(widths: seq<nat>, values: seq<nat>, t: seq<byte>)
    requires |widths| == |values|
    ensures |PutNumbers(widths, values, t)| == Width(widths) + |t|
    ensures PutNumbers(widths, values, t)[Width(widths)..] == t
    decreases |widths|
  {
    if widths != [] { NumbersEnd(widths[1..], values[1..], t); }
  }

  lemma {:induction false} BlocksPlaced(blocks: seq<u64>, t: seq<byte>, i: nat)
    requires i < |blocks|
    ensures Has(PutBlocks(blocks, t), 8 * i, 8, blocks[i])
  {
    var b, rest := PutBlocks(blocks, t), PutBlocks(blocks[1..], t);
    assert b[8..] == rest;
    if i == 0 {
      assert b[0..8] == Le(8, blocks[0]);
      FitsWide(blocks[0]);
      LeIs(8, blocks[0]);
    } else {
      BlocksPlaced(blocks[1..], t, i - 1);
      HasAfter(b, 8, rest, 8 * (i - 1), 8, blocks[i]);
    }
  }

  lemma {:induction false} BlocksEnd(blocks: seq<u64>, t: seq<byte>)
    ensures |PutBlocks(blocks, t)| == 8 * |blocks| + |t| && PutBlocks(blocks, t)[8 * |blocks|..] == t
  {
    if blocks != [] { BlocksEnd(blocks[1..], t); }
  }

  // ---- An entry ----

  /** The first 54 bytes of an entry. */
  ghost predicate HasHead(b: seq<byte>, e: Entry, pathLen: nat) {
    var i := e.inode;
    && Has(b, 0, 2, pathLen) && Has(b, 2, 2, |e.blocks|)
    && Has(b, 4, 1, match i.kind case File => 1 case Directory => 2 case Symlink => 3 case AppBundle => 4)
    && Has(b, 5, 1, if e.signature.Some? then 1 else 0) && Has(b, 6, 4, i.mode) && Has(b, 10, 8, i.id)
    && Has(b, 18, 8, i.size) && Has(b, 26, 4, i.uid) && Has(b, 30, 4, i.gid) && Has(b, 34, 4, i.links)
    && Has(b, 38, 8, i.ctime) && Has(b, 46, 8, i.mtime)
  }

  lemma ShapeWidths(sw: seq<nat>)
    requires sw == SHAPE
    ensures Width(sw) == 5 && Width(sw[..0]) == 0 && Width(sw[..1]) == 2 && Width(sw[..2]) == 4
  {
    WidthNext(sw, 0);
    WidthNext(sw, 1);
    WidthNext(sw, 2);
    assert sw[..3] == sw;
  }

  lemma FieldWidths(fw: seq<nat>)
    requires fw == FIELDS
    ensures Width(fw[..0]) == 0 && Width(fw[..1]) == 1 && Width(fw[..2]) == 5 && Width(fw[..3]) == 13
    ensures Width(fw[..4]) == 21
  {
    WidthNext(fw, 0);
    WidthNext(fw, 1);
    WidthNext(fw, 2);
    WidthNext(fw, 3);
  }

  lemma MoreWidths(fw: seq<nat>)
    requires fw == FIELDS
    ensures Width(fw[..5]) == 25 && Width(fw[..6]) == 29 && Width(fw[..7]) == 33 && Width(fw[..8]) == 41
    ensures Width(fw) == 49
  {
    FieldWidths(fw);
    WidthNext(fw, 4);
    WidthNext(fw, 5);
    WidthNext(fw, 6);
    WidthNext(fw, 7);
    WidthNext(fw, 8);
    assert fw[..9] == fw;
  }

  lemma {:induction false} WidthNext(widths: seq<nat>, i: nat)
    requires i < |widths|
    ensures Width(widths[..i + 1]) == Width(widths[..i]) + widths[i]
    decreases |widths|
  {
    if i == 0 {
      assert widths[..1][1..] == [];
    } else {
      assert widths[..i + 1][1..] == widths[1..][..i] && widths[..i][1..] == widths[1..][..i - 1];
      WidthNext(widths[1..], i - 1);
    }
  }

  lemma ShapePlaced(pathLen: nat, e: Entry, t: seq<byte>, sw: seq<nat>)
    requires pathLen < 0x1_0000 && |e.blocks| < 0x1_0000 && sw == SHAPE
    ensures var b := PutNumbers(sw, ShapeOf(pathLen, e), t);
            && Has(b, 0, 2, pathLen) && Has(b, 2, 2, |e.blocks|)
            && Has(b, 4, 1, match e.inode.kind case File => 1 case Directory => 2 case Symlink => 3 case AppBundle => 4)
            && |b| == 5 + |t| && b[5..] == t
  {
    ShapeFits(pathLen, e);
    ShapeWidths(sw);
    NumbersPlaced(sw, ShapeOf(pathLen, e), t, 0);
    NumbersPlaced(sw, ShapeOf(pathLen, e), t, 1);
    NumbersPlaced(sw, ShapeOf(pathLen, e), t, 2);
    NumbersEnd(sw, ShapeOf(pathLen, e), t);
  }

  ghost predicate HasFields(b: seq<byte>, o: nat, e: Entry) {
    var i := e.inode;
    && Has(b, o, 1, if e.signature.Some? then 1 else 0) && Has(b, o + 1, 4, i.mode) && Has(b, o + 5, 8, i.id)
    && Has(b, o + 13, 8, i.size) && Has(b, o + 21, 4, i.uid) && Has(b, o + 25, 4, i.gid) && Has(b, o + 29, 4, i.links)
    && Has(b, o + 33, 8, i.ctime) && Has(b, o + 41, 8, i.mtime)
  }

  lemma FieldsPlaced(e: Entry, t: seq<byte>, fw: seq<nat>)
    requires fw == FIELDS
    ensures var b := PutNumbers(fw, FieldsOf(e), t); HasFields(b, 0, e) && |b| == 49 + |t| && b[49..] == t
  {
    FieldsFit(e);
    FieldWidths(fw);
    MoreWidths(fw);
    var f := FieldsOf(e);
    NumbersPlaced(fw, f, t, 0); NumbersPlaced(fw, f, t, 1); NumbersPlaced(fw, f, t, 2);
    NumbersPlaced(fw, f, t, 3); NumbersPlaced(fw, f, t, 4); NumbersPlaced(fw, f, t, 5);
    NumbersPlaced(fw, f, t, 6); NumbersPlaced(fw, f, t, 7); NumbersPlaced(fw, f, t, 8);
    NumbersEnd(fw, f, t);
  }

  lemma FieldsAfter(b: seq<byte>, t: seq<byte>, e: Entry)
    requires 5 <= |b| && b[5..] == t && HasFields(t, 0, e)
    ensures HasFields(b, 5, e)
  {
    var i := e.inode;
    HasAfter(b, 5, t, 0, 1, if e.signature.Some? then 1 else 0);
    HasAfter(b, 5, t, 1, 4, i.mode);
    HasAfter(b, 5, t, 5, 8, i.id);
    HasAfter(b, 5, t, 13, 8, i.size);
    HasAfter(b, 5, t, 21, 4, i.uid);
    HasAfter(b, 5, t, 25, 4, i.gid);
    HasAfter(b, 5, t, 29, 4, i.links);
    HasAfter(b, 5, t, 33, 8, i.ctime);
    HasAfter(b, 5, t, 41, 8, i.mtime);
  }

  lemma HeadPlaced(pathLen: nat, e: Entry, t: seq<byte>)
    requires pathLen < 0x1_0000 && |e.blocks| < 0x1_0000
    ensures var b := PutNumbers(SHAPE, ShapeOf(pathLen, e), PutNumbers(FIELDS, FieldsOf(e), t));
            HasHead(b, e, pathLen) && |b| == 54 + |t| && b[54..] == t
  {
    var t1 := PutNumbers(FIELDS, FieldsOf(e), t);
    var b := PutNumbers(SHAPE, ShapeOf(pathLen, e), t1);
    FieldsPlaced(e, t, FIELDS);
    ShapePlaced(pathLen, e, t1, SHAPE);
    FieldsAfter(b, t1, e);
    assert b[54..] == b[5..][49..];
  }

  /** Where the blocks of an entry stand, and the signature after them. */
  ghost predicate HasBody(b: seq<byte>, name: seq<byte>, e: Entry) {
    var n, m := |name|, |e.blocks|;
    && 54 + n + 8 * m <= |b| && b[54..54 + n] == name
    && (forall i :: 0 <= i < m ==> Has(b, 54 + n + 8 * i, 8, e.blocks[i]))
    && b[54 + n + 8 * m..] == e.signature.GetOr([])
  }

  lemma BodyPlaced(b: seq<byte>, name: seq<byte>, e: Entry)
    requires 54 <= |b| && b[54..] == name + PutBlocks(e.blocks, e.signature.GetOr([]))
    ensures HasBody(b, name, e)
  {
    var n, t := |name|, PutBlocks(e.blocks, e.signature.GetOr([]));
    BlocksEnd(e.blocks, e.signature.GetOr([]));
    assert b[54 + n..] == b[54..][n..] == t;
    assert b[54..54 + n] == b[54..][..n] == name;
    forall i | 0 <= i < |e.blocks| ensures Has(b, 54 + n + 8 * i, 8, e.blocks[i]) {
      BlocksPlaced(e.blocks, e.signature.GetOr([]), i);
      HasAfter(b, 54 + n, t, 8 * i, 8, e.blocks[i]);
    }
    assert b[54 + n + 8 * |e.blocks|..] == t[8 * |e.blocks|..];
  }

  /** An entry: 54 bytes of fixed fields, the path, eight bytes for each block, and the signature if there is one. */
  lemma EntryLayout(path: string, e: Entry)
    requires Encodable(path, e)
    ensures var b := PutEntry(path, e, []); HasHead(b, e, |Utf8.EncodeAll(path)|) && HasBody(b, Utf8.EncodeAll(path), e)
  {
    var name := Utf8.EncodeAll(path);
    var sig := e.signature.GetOr([]);
    assert sig + [] == sig;
    HeadPlaced(|name|, e, name + PutBlocks(e.blocks, sig));
    BodyPlaced(PutEntry(path, e, []), name, e);
  }

  // ---- The payload ----

  /** One entry after the other. */
  ghost function Chain(ks: seq<string>, d: Dir): seq<byte>
    requires forall k :: k in ks ==> k in d
  {
    if ks == [] then [] else PutEntry(ks[0], d[ks[0]], []) + Chain(ks[1..], d)
  }

  lemma BodySplit(name: seq<byte>, e: Entry, t: seq<byte>)
    ensures var sig := e.signature.GetOr([]);
            name + PutBlocks(e.blocks, sig + t) == name + PutBlocks(e.blocks, sig + []) + t
  {
    var sig, blocks := e.signature.GetOr([]), PutBlocks(e.blocks, []);
    PutBlocksSplit(e.blocks, sig + t);
    PutBlocksSplit(e.blocks, sig + []);
    assert sig + [] == sig;
    assert name + (blocks + (sig + t)) == name + (blocks + sig) + t;
  }

  lemma EntrySplit(path: string, e: Entry, t: seq<byte>)
    ensures PutEntry(path, e, t) == PutEntry(path, e, []) + t
  {
    var name := Utf8.EncodeAll(path);
    var body := name + PutBlocks(e.blocks, e.signature.GetOr([]) + []);
    var f, sh := PutNumbers(FIELDS, FieldsOf(e), []), PutNumbers(SHAPE, ShapeOf(|name|, e), []);
    BodySplit(name, e, t);
    PutNumbersSplit(FIELDS, FieldsOf(e), body + t);
    PutNumbersSplit(FIELDS, FieldsOf(e), body);
    PutNumbersSplit(SHAPE, ShapeOf(|name|, e), f + (body + t));
    PutNumbersSplit(SHAPE, ShapeOf(|name|, e), f + body);
    Regroup(f, body, t);
    Regroup(sh, f + body, t);
  }

  lemma {:induction false} ChainIs(ks: seq<string>, d: Dir, put: (string, Entry, seq<byte>) -> seq<byte>)
    requires forall k :: k in ks ==> k in d
    requires forall k, e, t {:trigger PutEntry(k, e, t)} :: put(k, e, t) == PutEntry(k, e, t)
    ensures PutEntries(put, ks, d) == Chain(ks, d)
  {
    if ks != [] {
      ChainIs(ks[1..], d, put);
      var rest := PutEntries(put, ks[1..], d);
      assert put(ks[0], d[ks[0]], rest) == PutEntry(ks[0], d[ks[0]], rest);
      EntrySplit(ks[0], d[ks[0]], rest);
    }
  }

  ghost predicate Ascending(ks: seq<string>) {
    forall i, j :: 0 <= i < j < |ks| ==> Less(ks[i], ks[j])
  }

  lemma {:induction false} SortedAscending(keys: set<string>)
    ensures Ascending(Sorted(keys))
    decreases keys
  {
    if keys != {} {
      HasLeast(keys);
      var ks := Sorted(keys);
      var rest := keys - {ks[0]};
      SortedAscending(rest);
      SortedLists(rest);
      assert ks == [ks[0]] + Sorted(rest);
      forall i, j | 0 <= i < j < |ks| ensures Less(ks[i], ks[j]) {
        assert ks[j] == Sorted(rest)[j - 1];
        if i > 0 { assert ks[i] == Sorted(rest)[i - 1]; }
      }
    }
  }

  /** The payload: the two counters, the number of entries, then every entry once, in the order of the paths. */
  lemma PayloadLayout(d: Dir, nextInode: u64, logicalTime: u64) returns (ks: seq<string>)
    requires |d| < 0x1_0000_0000
    ensures var b := Encode(d, nextInode, logicalTime);
            && Has(b, 0, 8, nextInode) && Has(b, 8, 8, logicalTime) && Has(b, 16, 4, |d|)
            && |ks| == |d| && (forall k :: k in ks <==> k in d) && Ascending(ks) && b[20..] == Chain(ks, d)
  {
    ks := Sorted(d.Keys);
    SortedLists(d.Keys);
    SortedAscending(d.Keys);
    ChainIs(ks, d, PutEntry);
    TopPlaced([8, 8, 4], [nextInode, logicalTime, |d|], PutEntries(PutEntry, ks, d));
  }

  lemma TopPlaced(widths: seq<nat>, values: seq<nat>, t: seq<byte>)
    requires widths == [8, 8, 4] && |values| == 3 && values[0] < U64 && values[1] < U64 && values[2] < 0x1_0000_0000
    ensures var b := PutNumbers(widths, values, t);
            && Has(b, 0, 8, values[0]) && Has(b, 8, 8, values[1]) && Has(b, 16, 4, values[2])
            && |b| == 20 + |t| && b[20..] == t
  {
    FitsWide(values[0]);
    FitsWide(values[1]);
    FitsWord(values[2]);
    WidthNext(widths, 0);
    WidthNext(widths, 1);
    WidthNext(widths, 2);
    assert widths[..3] == widths;
    NumbersPlaced(widths, values, t, 0);
    NumbersPlaced(widths, values, t, 1);
    NumbersPlaced(widths, values, t, 2);
    NumbersEnd(widths, values, t);
  }

  // ---- The banks ----

  /** The header block: the magic, the generation, the length and the checksum of the payload, the entries, zeros. */
  lemma HeaderLayout(generation: u64, len: word, crc: word, count: word)
    ensures var h := HeaderBlock(generation, len, crc, count);
            && h[..8] == [0x5A, 0x4D, 0x44, 0x54, 0x30, 0x30, 0x30, 0x31]
            && Has(h, 8, 8, generation) && Has(h, 16, 4, len) && Has(h, 20, 4, crc) && Has(h, 24, 4, count)
            && forall i :: 28 <= i < |h| ==> h[i] == 0
  {
    var h := HeaderBlock(generation, len, crc, count);
    assert h[8..16] == Le(8, generation) && h[16..20] == Le(4, len);
    assert h[20..24] == Le(4, crc) && h[24..28] == Le(4, count);
    FitsWide(generation);
    FitsWord(len);
    FitsWord(crc);
    FitsWord(count);
    LeIs(8, generation);
    LeIs(4, len);
    LeIs(4, crc);
    LeIs(4, count);
  }

  /**
   * A store of an odd generation writes its payload to the blocks from 2 on and then its header to block 1; one of
   * an even generation to the blocks from 34 on and to block 33. A payload of at most 31 blocks fits.
   */
  lemma BankLayout(generation: nat, payload: seq<byte>, header: Block)
    requires |payload| <= 31 * BLOCK_SIZE
    ensures var ws, bank := BankWrites(Target(generation), payload, header), if generation % 2 == 1 then 1 else 33;
            && |ws| <= 32 && |payload| <= CAPACITY
            && (forall i :: 0 <= i < |ws| - 1 ==> ws[i].lba == bank + 1 + i)
            && ws[|ws| - 1] == Write(bank, header)
            && forall i :: 0 <= i < |ws| ==> bank <= ws[i].lba < bank + 32 && ws[i].lba < 65 == RESERVED_END
  {}
}

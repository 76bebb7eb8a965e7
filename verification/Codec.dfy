/** The metadata payload: `encode`, `decode` and the `Cursor` of `libs/zfs-core/src/metadata.rs`. */
module Codec {
  import opened Common
  import opened Directory
  import Utf8

  datatype Error =
    | InvalidSuperblock | DeviceFailed | AllocationFailed | NotFound | SignatureMismatch
    | SnapshotNotFound | DirectoryConflict | Unsupported | InvalidArgument
    | JournalCorrupt | CheckpointTooLarge | PathInvalid | CorruptEntry

  // ---- Little-endian integers ----

  function Le(n: nat, v: nat): (bs: seq<byte>)
    ensures |bs| == n
  {
    if n == 0 then [] else [v % 256] + Le(n - 1, v / 256)
  }

  function LeValue(bs: seq<byte>): nat {
    if bs == [] then 0 else bs[0] + 256 * LeValue(bs[1..])
  }

  /** `v` fits in `n` bytes. */
  predicate FitsIn(n: nat, v: nat) {
    if n == 0 then v == 0 else FitsIn(n - 1, v / 256)
  }

  lemma {:induction false} LeRoundTrip(n: nat, v: nat)
    requires FitsIn(n, v)
    ensures LeValue(Le(n, v)) == v
  {
    if n != 0 { LeRoundTrip(n - 1, v / 256); }
  }

  lemma {:induction false} LeValueFits(bs: seq<byte>)
    ensures FitsIn(|bs|, LeValue(bs))
  {
    if bs != [] {
      LeValueFits(bs[1..]);
      assert LeValue(bs) / 256 == LeValue(bs[1..]);
    }
  }

  lemma FitsWord(v: nat)
    ensures FitsIn(1, v) <==> v < 0x100
    ensures FitsIn(2, v) <==> v < 0x1_0000
    ensures FitsIn(4, v) <==> v < 0x1_0000_0000
  {
    assert FitsIn(1, v) <==> v / 256 == 0;
    assert FitsIn(2, v) <==> FitsIn(1, v / 256);
    assert FitsIn(3, v) <==> FitsIn(2, v / 256);
    assert FitsIn(4, v) <==> FitsIn(3, v / 256);
  }

  lemma FitsWide(v: nat)
    ensures FitsIn(8, v) <==> v < U64
  {
    var w := v / 256 / 256 / 256 / 256;
    assert FitsIn(8, v) <==> FitsIn(7, v / 256);
    assert FitsIn(7, v / 256) <==> FitsIn(6, v / 256 / 256);
    assert FitsIn(6, v / 256 / 256) <==> FitsIn(5, v / 256 / 256 / 256);
    assert FitsIn(5, v / 256 / 256 / 256) <==> FitsIn(4, w);
    assert w == v / 0x1_0000_0000;
    FitsWord(w);
  }

  // ---- Reading: the cursor as a function of the bytes still unread ----

  type Read<T> = Result<(T, seq<byte>), Error>

  function Bytes(rest: seq<byte>, n: nat): (r: Read<seq<byte>>)
    ensures r.Ok? ==> |r.value.0| == n
  {
    if n <= |rest| then Ok((rest[..n], rest[n..])) else Err(JournalCorrupt)
  }

  /** Consecutive little-endian numbers of the given widths. */
  function Numbers(rest: seq<byte>, widths: seq<nat>): (r: Read<seq<nat>>)
    ensures r.Ok? ==> |r.value.0| == |widths| && forall i :: 0 <= i < |widths| ==> FitsIn(widths[i], r.value.0[i])
    decreases |widths|
  {
    if widths == [] then Ok(([], rest))
    else
      var (bs, rest1) :- Bytes(rest, widths[0]);
      var (vs, rest2) :- Numbers(rest1, widths[1..]);
      LeValueFits(bs);
      Ok(([LeValue(bs)] + vs, rest2))
  }

  function Blocks(rest: seq<byte>, n: nat): Read<seq<u64>> {
    if n == 0 then Ok(([], rest))
    else
      var (b, rest1) :- Numbers(rest, [8]);
      var (bs, rest2) :- Blocks(rest1, n - 1);
      FitsWide(b[0]);
      Ok(([b[0]] + bs, rest2))
  }

  function KindCode(k: Kind): byte {
    match k
    case File => 1
    case Directory => 2
    case Symlink => 3
    case AppBundle => 4
  }

  function KindOf(code: nat): Result<Kind, Error> {
    if code == 1 then Ok(File)
    else if code == 2 then Ok(Kind.Directory)
    else if code == 3 then Ok(Symlink)
    else if code == 4 then Ok(AppBundle)
    else Err(CorruptEntry)
  }

  /** The fixed-width fields that precede a path. */
  datatype Header = Header(
    pathLen: nat, blocksLen: nat, kind: Kind, hasSig: bool, mode: word, id: u64, size: u64,
    uid: word, gid: word, links: word, ctime: u64, mtime: u64)

  const SHAPE: seq<nat> := [2, 2, 1]
  const FIELDS: seq<nat> := [1, 4, 8, 8, 4, 4, 4, 8, 8]

  function Fields(shape: seq<nat>, kind: Kind, f: seq<nat>): Header
    requires |shape| == 3 && |f| == 9 && forall i :: 0 <= i < 9 ==> FitsIn(FIELDS[i], f[i])
  {
    FitsWord(f[1]); FitsWide(f[2]); FitsWide(f[3]); FitsWord(f[4]); FitsWord(f[5]); FitsWord(f[6]);
    FitsWide(f[7]); FitsWide(f[8]);
    assert FIELDS[1] == 4 && FIELDS[2] == 8 && FIELDS[3] == 8 && FIELDS[4] == 4;
    assert FIELDS[5] == 4 && FIELDS[6] == 4 && FIELDS[7] == 8 && FIELDS[8] == 8;
    Header(shape[0], shape[1], kind, f[0] != 0, f[1], f[2], f[3], f[4], f[5], f[6], f[7], f[8])
  }

  function ReadHeader(rest: seq<byte>, shapeWidths: seq<nat>, fieldWidths: seq<nat>): Read<Header>
    requires |shapeWidths| == 3 && fieldWidths == FIELDS
  {
    var (shape, r1) :- Numbers(rest, shapeWidths);
    var kind :- KindOf(shape[2]);
    var (f, r2) :- Numbers(r1, fieldWidths);
    Ok((Fields(shape, kind, f), r2))
  }

  function ReadPath(rest: seq<byte>, n: nat): Read<string> {
    var (bs, rest1) :- Bytes(rest, n);
    match Utf8.FromUtf8(bs)
    case None => Err(CorruptEntry)
    case Some(path) => if PathOk(path) then Ok((path, rest1)) else Err(PathInvalid)
  }

  function ReadSignature(rest: seq<byte>, hasSig: bool): Read<Option<seq<byte>>> {
    if !hasSig then Ok((None, rest))
    else
      var (sig, rest1) :- Bytes(rest, 32);
      Ok((Some(sig), rest1))
  }

  function EntryOf(h: Header, blocks: seq<u64>, signature: Option<seq<byte>>): Entry {
    Entry(Inode(h.id, h.kind, h.size, h.mode, h.uid, h.gid, h.links, Direct(blocks), 0, h.ctime, h.mtime),
          blocks, signature)
  }

  function ReadEntry(rest: seq<byte>): Read<(string, Entry)> {
    var (h, r1) :- ReadHeader(rest, SHAPE, FIELDS);
    var (path, r2) :- ReadPath(r1, h.pathLen);
    var (blocks, r3) :- Blocks(r2, h.blocksLen);
    var (signature, r4) :- ReadSignature(r3, h.hasSig);
    Ok(((path, EntryOf(h, blocks, signature)), r4))
  }

  /** `n` entries in turn, each read by `one` and inserted into the map. */
  function ReadEntries(one: seq<byte> -> Read<(string, Entry)>, rest: seq<byte>, n: nat, acc: Dir): Read<Dir>
    decreases n
  {
    if n == 0 then Ok((acc, rest))
    else
      var ((path, e), rest1) :- one(rest);
      ReadEntries(one, rest1, n - 1, acc[path := e])
  }

  function Max(a: int, b: int): int {
    if a >= b then a else b
  }

  datatype Payload = Payload(entries: Dir, nextInode: u64, logicalTime: u64)

  function Decode(data: seq<byte>): Result<Payload, Error> {
    var (n, r1) :- Numbers(data, [8, 8, 4]);
    var (entries, r2) :- ReadEntries(ReadEntry, r1, n[2], map[]);
    FitsWide(n[0]);
    FitsWide(n[1]);
    if r2 != [] then Err(JournalCorrupt)
    else Ok(Payload(entries, Max(n[0], 2), Max(n[1], 1)))
  }

  // ---- Writing: each piece in front of the bytes `t` that follow it ----

  function PutNumbers(widths: seq<nat>, values: seq<nat>, t: seq<byte>): seq<byte>
    requires |widths| == |values|
  {
    if widths == [] then t
    else Le(widths[0], values[0]) + PutNumbers(widths[1..], values[1..], t)
  }

  function PutBlocks(blocks: seq<u64>, t: seq<byte>): seq<byte> {
    if blocks == [] then t else Le(8, blocks[0]) + PutBlocks(blocks[1..], t)
  }

  function ShapeOf(pathLen: nat, e: Entry): seq<nat> {
    [pathLen, |e.blocks|, KindCode(e.inode.kind)]
  }

  function FieldsOf(e: Entry): seq<nat> {
    var i := e.inode;
    [if e.signature.Some? then 1 else 0, i.mode, i.id, i.size, i.uid, i.gid, i.links, i.ctime, i.mtime]
  }

  function PutEntry(path: string, e: Entry, t: seq<byte>): seq<byte> {
    var name := Utf8.EncodeAll(path);
    PutNumbers(SHAPE, ShapeOf(|name|, e), PutNumbers(FIELDS, FieldsOf(e),
      name + PutBlocks(e.blocks, e.signature.GetOr([]) + t)))
  }

  function PutEntries(one: (string, Entry, seq<byte>) -> seq<byte>, ks: seq<string>, d: Dir): seq<byte>
    requires forall k :: k in ks ==> k in d
  {
    if ks == [] then [] else one(ks[0], d[ks[0]], PutEntries(one, ks[1..], d))
  }

  predicate Encodable(path: string, e: Entry) {
    |Utf8.EncodeAll(path)| < 0x1_0000 && |e.blocks| < 0x1_0000
  }

  predicate DirEncodable(d: Dir) {
    forall p :: p in d ==> Encodable(p, d[p])
  }

  /** The bytes `encode` produces for a directory all of whose entries fit the 16-bit counts. */
  function Encode(d: Dir, nextInode: u64, logicalTime: u64): seq<byte> {
    SortedLists(d.Keys);
    PutNumbers([8, 8, 4], [nextInode, logicalTime, |d|], PutEntries(PutEntry, Sorted(d.Keys), d))
  }

  // ---- The iteration order of a BTreeMap keyed by strings ----

  predicate Less(a: string, b: string) {
    if b == "" then false
    else if a == "" then true
    else if a[0] != b[0] then a[0] < b[0]
    else Less(a[1..], b[1..])
  }

  lemma {:induction false} LessTotal(a: string, b: string)
    ensures Less(a, b) || a == b || Less(b, a)
    ensures !(Less(a, b) && Less(b, a)) && !Less(a, a)
    decreases |a|
  {
    if a != "" {
      if b != "" && a[0] == b[0] {
        LessTotal(a[1..], b[1..]);
        if a[1..] == b[1..] { assert a == [a[0]] + a[1..] && b == [b[0]] + b[1..]; }
      }
      LessTotal(a[1..], a[1..]);
    }
  }

  lemma {:induction false} LessTrans(a: string, b: string, c: string)
    requires Less(a, b) && Less(b, c)
    ensures Less(a, c)
    decreases |a|
  {
    if a != "" && a[0] == b[0] == c[0] { LessTrans(a[1..], b[1..], c[1..]); }
  }

  predicate IsLeast(k: string, keys: set<string>) {
    k in keys && forall x :: x in keys && x != k ==> Less(k, x)
  }

  lemma {:induction false} HasLeast(keys: set<string>)
    requires keys != {}
    ensures exists k :: IsLeast(k, keys)
    ensures forall k1, k2 :: IsLeast(k1, keys) && IsLeast(k2, keys) ==> k1 == k2
    decreases keys
  {
    var x :| x in keys;
    if keys == {x} {
      assert IsLeast(x, keys);
    } else {
      HasLeast(keys - {x});
      var y :| IsLeast(y, keys - {x});
      LessTotal(x, y);
      if Less(x, y) {
        forall z | z in keys && z != x ensures Less(x, z) {
          if z != y { LessTrans(x, y, z); }
        }
        assert IsLeast(x, keys);
      } else {
        assert IsLeast(y, keys);
      }
    }
    forall k1, k2 | IsLeast(k1, keys) && IsLeast(k2, keys) ensures k1 == k2 { LessTotal(k1, k2); }
  }

  function Sorted(keys: set<string>): seq<string> {
    if keys == {} then []
    else
      HasLeast(keys);
      var k :| IsLeast(k, keys);
      [k] + Sorted(keys - {k})
  }

  /** The order lists each key once. */
  lemma {:induction false} SortedLists(keys: set<string>)
    ensures |Sorted(keys)| == |keys|
    ensures forall k :: k in Sorted(keys) <==> k in keys
    decreases keys
  {
    if keys != {} {
      HasLeast(keys);
      SortedLists(keys - {Sorted(keys)[0]});
    }
  }

  // ---- Reading inverts writing ----

  lemma BytesBack(a: seq<byte>, t: seq<byte>)
    ensures Bytes(a + t, |a|) == Ok((a, t))
  {
    assert (a + t)[..|a|] == a && (a + t)[|a|..] == t;
  }

  lemma {:induction false} NumbersBack(widths: seq<nat>, values: seq<nat>, t: seq<byte>)
    requires |widths| == |values| && forall i :: 0 <= i < |widths| ==> FitsIn(widths[i], values[i])
    ensures Numbers(PutNumbers(widths, values, t), widths) == Ok((values, t))
    decreases |widths|
  {
    if widths != [] {
      BytesBack(Le(widths[0], values[0]), PutNumbers(widths[1..], values[1..], t));
      LeRoundTrip(widths[0], values[0]);
      NumbersBack(widths[1..], values[1..], t);
      assert [values[0]] + values[1..] == values;
    }
  }

  lemma {:induction false} BlocksBack(blocks: seq<u64>, t: seq<byte>)
    ensures Blocks(PutBlocks(blocks, t), |blocks|) == Ok((blocks, t))
  {
    if blocks != [] {
      var t1 := PutBlocks(blocks[1..], t);
      FitsWide(blocks[0]);
      assert PutNumbers([8], [blocks[0]], t1) == Le(8, blocks[0]) + t1 by {
        assert PutNumbers([8][1..], [blocks[0]][1..], t1) == t1;
      }
      NumbersBack([8], [blocks[0]], t1);
      BlocksBack(blocks[1..], t);
      assert [blocks[0]] + blocks[1..] == blocks;
    }
  }

  lemma FieldsFit(e: Entry)
    ensures forall i :: 0 <= i < 9 ==> FitsIn(FIELDS[i], FieldsOf(e)[i])
  {
    var f := FieldsOf(e);
    FitsWord(f[0]); FitsWord(f[1]); FitsWide(f[2]); FitsWide(f[3]); FitsWord(f[4]); FitsWord(f[5]);
    FitsWord(f[6]); FitsWide(f[7]); FitsWide(f[8]);
    forall i | 0 <= i < 9 ensures FitsIn(FIELDS[i], f[i]) {
      assert i == 0 || i == 1 || i == 2 || i == 3 || i == 4 || i == 5 || i == 6 || i == 7 || i == 8;
    }
  }

  ghost function HeaderOf(pathLen: nat, e: Entry): Header {
    var i := e.inode;
    Header(pathLen, |e.blocks|, i.kind, e.signature.Some?, i.mode, i.id, i.size, i.uid, i.gid, i.links, i.ctime,
      i.mtime)
  }

  lemma HeaderBack(sw: seq<nat>, fw: seq<nat>, pathLen: nat, e: Entry, t: seq<byte>)
    requires sw == SHAPE && fw == FIELDS && pathLen < 0x1_0000 && |e.blocks| < 0x1_0000
    ensures ReadHeader(PutNumbers(sw, ShapeOf(pathLen, e), PutNumbers(fw, FieldsOf(e), t)), sw, fw)
            == Ok((HeaderOf(pathLen, e), t))
  {
    var shape, f := ShapeOf(pathLen, e), FieldsOf(e);
    ShapeFits(pathLen, e);
    FieldsFit(e);
    FieldsBack(sw, fw, shape, f, t);
    FieldsHeader(pathLen, e);
    HeaderFromFields(PutNumbers(sw, shape, PutNumbers(fw, f, t)), PutNumbers(fw, f, t), sw, fw, shape, f, e.inode.kind,
      t);
  }

  lemma ShapeFits(pathLen: nat, e: Entry)
    requires pathLen < 0x1_0000 && |e.blocks| < 0x1_0000
    ensures forall i :: 0 <= i < 3 ==> FitsIn(SHAPE[i], ShapeOf(pathLen, e)[i])
  {
    FitsWord(pathLen);
    FitsWord(|e.blocks|);
    FitsWord(KindCode(e.inode.kind));
  }

  lemma FieldsBack(sw: seq<nat>, fw: seq<nat>, shape: seq<nat>, f: seq<nat>, t: seq<byte>)
    requires |sw| == |shape| && |fw| == |f|
    requires forall i :: 0 <= i < |sw| ==> FitsIn(sw[i], shape[i])
    requires forall i :: 0 <= i < |fw| ==> FitsIn(fw[i], f[i])
    ensures Numbers(PutNumbers(sw, shape, PutNumbers(fw, f, t)), sw) == Ok((shape, PutNumbers(fw, f, t)))
    ensures Numbers(PutNumbers(fw, f, t), fw) == Ok((f, t))
  {
    NumbersBack(sw, shape, PutNumbers(fw, f, t));
    NumbersBack(fw, f, t);
  }

  lemma HeaderFromFields(rest: seq<byte>, r1: seq<byte>, sw: seq<nat>, fw: seq<nat>,
                         shape: seq<nat>, f: seq<nat>, kind: Kind, t: seq<byte>)
    requires |sw| == 3 == |shape| && |f| == 9 && fw == FIELDS && KindOf(shape[2]) == Ok(kind)
    requires Numbers(rest, sw) == Ok((shape, r1)) && Numbers(r1, fw) == Ok((f, t))
    requires forall i :: 0 <= i < 9 ==> FitsIn(FIELDS[i], f[i])
    ensures ReadHeader(rest, sw, fw) == Ok((Fields(shape, kind, f), t))
  {}

  lemma FieldsHeader(pathLen: nat, e: Entry)
    requires forall i :: 0 <= i < 9 ==> FitsIn(FIELDS[i], FieldsOf(e)[i])
    ensures Fields(ShapeOf(pathLen, e), e.inode.kind, FieldsOf(e)) == HeaderOf(pathLen, e)
    ensures KindOf(ShapeOf(pathLen, e)[2]) == Ok(e.inode.kind)
  {}

  /** An entry is read back exactly when its path is one the decoder accepts. */
  lemma EntryBack(path: string, e: Entry, t: seq<byte>)
    requires Encodable(path, e) && WellFormed(e)
    ensures ReadEntry(PutEntry(path, e, t)) == if PathOk(path) then Ok(((path, e), t)) else Err(PathInvalid)
  {
    var name := Utf8.EncodeAll(path);
    var sig := e.signature.GetOr([]);
    HeaderBack(SHAPE, FIELDS, |name|, e, name + PutBlocks(e.blocks, sig + t));
    BytesBack(name, PutBlocks(e.blocks, sig + t));
    Utf8.FromUtf8Complete(path);
    BlocksBack(e.blocks, sig + t);
    BytesBack(sig, t);
    assert [] + t == t;
  }

  /** `put` and `read` are inverse on the entry of `d` at `k`, or `read` refuses the path. */
  ghost predicate Inverse(put: (string, Entry, seq<byte>) -> seq<byte>,
                          read: seq<byte> -> Read<(string, Entry)>, d: Dir, k: string)
  {
    k in d && forall t :: read(put(k, d[k], t)) == if PathOk(k) then Ok(((k, d[k]), t)) else Err(PathInvalid)
  }

  lemma {:induction false} EntriesBack(put: (string, Entry, seq<byte>) -> seq<byte>,
                                       read: seq<byte> -> Read<(string, Entry)>,
                                       ks: seq<string>, d: Dir, acc: Dir)
    requires forall k :: k in ks ==> k in d && PathOk(k) && Inverse(put, read, d, k)
    ensures var r := ReadEntries(read, PutEntries(put, ks, d), |ks|, acc);
            && r.Ok? && r.value.1 == [] && r.value.0.Keys == acc.Keys + (set k | k in ks)
            && forall p :: p in r.value.0 ==> r.value.0[p] == if p in ks then d[p] else acc[p]
    decreases |ks|
  {
    if ks != [] {
      assert Inverse(put, read, d, ks[0]);
      EntriesBack(put, read, ks[1..], d, acc[ks[0] := d[ks[0]]]);
      assert forall k :: k in ks <==> k == ks[0] || k in ks[1..];
    }
  }

  lemma {:induction false} EntriesRefused(put: (string, Entry, seq<byte>) -> seq<byte>,
                                          read: seq<byte> -> Read<(string, Entry)>,
                                          ks: seq<string>, d: Dir, acc: Dir, bad: string)
    requires forall k :: k in ks ==> k in d && Inverse(put, read, d, k)
    requires bad in ks && !PathOk(bad)
    ensures ReadEntries(read, PutEntries(put, ks, d), |ks|, acc) == Err(PathInvalid)
    decreases |ks|
  {
    assert Inverse(put, read, d, ks[0]);
    if PathOk(ks[0]) {
      assert bad in ks[1..];
      EntriesRefused(put, read, ks[1..], d, acc[ks[0] := d[ks[0]]], bad);
    }
  }

  /** What `Decode` makes of the entries of an encoded directory. */
  lemma EntriesOutcome(put: (string, Entry, seq<byte>) -> seq<byte>,
                       read: seq<byte> -> Read<(string, Entry)>, ks: seq<string>, d: Dir)
    requires forall k :: k in ks <==> k in d
    requires forall k :: k in d ==> Inverse(put, read, d, k)
    ensures ReadEntries(read, PutEntries(put, ks, d), |ks|, map[])
            == if PathsOk(d) then Ok((d, [])) else Err(PathInvalid)
  {
    if PathsOk(d) {
      EntriesBack(put, read, ks, d, map[]);
      assert ReadEntries(read, PutEntries(put, ks, d), |ks|, map[]).value.0 == d;
    } else {
      var bad :| bad in d && !PathOk(bad);
      EntriesRefused(put, read, ks, d, map[], bad);
    }
  }

  /**
   * Decoding an encoded directory gives the directory back exactly when the decoder accepts
   * every path in it; one bad path makes the whole payload unreadable.
   */
  lemma RoundTrip(d: Dir, nextInode: u64, logicalTime: u64)
    requires WellFormedDir(d) && DirEncodable(d) && |d| < 0x1_0000_0000
    ensures Decode(Encode(d, nextInode, logicalTime))
            == if PathsOk(d) then Ok(Payload(d, Max(nextInode, 2), Max(logicalTime, 1))) else Err(PathInvalid)
  {
    SortedLists(d.Keys);
    var ks, put, read := Sorted(d.Keys), PutEntry, ReadEntry;
    forall k | k in d ensures Inverse(put, read, d, k) {
      forall t ensures read(put(k, d[k], t)) == if PathOk(k) then Ok(((k, d[k]), t)) else Err(PathInvalid) {
        EntryBack(k, d[k], t);
      }
    }
    EntriesOutcome(put, read, ks, d);
    TopBack(PutEntries(put, ks, d), nextInode, logicalTime, |d|, [8, 8, 4]);
  }

  lemma TopBack(t: seq<byte>, nextInode: u64, logicalTime: u64, count: word, widths: seq<nat>)
    requires widths == [8, 8, 4]
    ensures Numbers(PutNumbers(widths, [nextInode, logicalTime, count], t), widths)
            == Ok(([nextInode, logicalTime, count], t))
  {
    FitsWide(nextInode);
    FitsWide(logicalTime);
    FitsWord(count);
    NumbersBack(widths, [nextInode, logicalTime, count], t);
  }

  // ---- The imperative encoder and decoder ----

  lemma {:induction false} PutNumbersSplit(widths: seq<nat>, values: seq<nat>, t: seq<byte>)
    requires |widths| == |values|
    ensures PutNumbers(widths, values, t) == PutNumbers(widths, values, []) + t
    decreases |widths|
  {
    if widths != [] {
      PutNumbersSplit(widths[1..], values[1..], t);
      Regroup(Le(widths[0], values[0]), PutNumbers(widths[1..], values[1..], []), t);
    }
  }

  lemma {:induction false} PutBlocksSplit(blocks: seq<u64>, t: seq<byte>)
    ensures PutBlocks(blocks, t) == PutBlocks(blocks, []) + t
  {
    if blocks != [] {
      PutBlocksSplit(blocks[1..], t);
      Regroup(Le(8, blocks[0]), PutBlocks(blocks[1..], []), t);
    }
  }

  method AppendNumbers(out: seq<byte>, widths: seq<nat>, values: seq<nat>, ghost t: seq<byte>) returns (r: seq<byte>)
    requires |widths| == |values|
    ensures r + t == out + PutNumbers(widths, values, t)
  {
    r := out;
    var i := 0;
    while i < |widths|
      invariant 0 <= i <= |widths|
      invariant r + PutNumbers(widths[i..], values[i..], t) == out + PutNumbers(widths, values, t)
    {
      Regroup(r, Le(widths[i], values[i]), PutNumbers(widths[i..][1..], values[i..][1..], t));
      assert widths[i..][1..] == widths[i + 1..] && values[i..][1..] == values[i + 1..];
      r := r + Le(widths[i], values[i]);
      i := i + 1;
    }
  }

  method AppendEntry(out: seq<byte>, path: string, e: Entry, ghost t: seq<byte>) returns (r: seq<byte>)
    ensures r + t == out + PutEntry(path, e, t)
  {
    var name := Utf8.EncodeAll(path);
    var sig := e.signature.GetOr([]);
    ghost var t3 := sig + t;
    ghost var t2 := PutBlocks(e.blocks, t3);
    r := AppendNumbers(out, SHAPE, ShapeOf(|name|, e), PutNumbers(FIELDS, FieldsOf(e), name + t2));
    r := AppendNumbers(r, FIELDS, FieldsOf(e), name + t2);
    Regroup(r, name, t2);
    r := r + name;
    var i := 0;
    while i < |e.blocks|
      invariant 0 <= i <= |e.blocks|
      invariant r + PutBlocks(e.blocks[i..], t3) == out + PutEntry(path, e, t)
    {
      Regroup(r, Le(8, e.blocks[i]), PutBlocks(e.blocks[i..][1..], t3));
      assert e.blocks[i..][1..] == e.blocks[i + 1..];
      r := r + Le(8, e.blocks[i]);
      i := i + 1;
    }
    Regroup(r, sig, t);
    r := r + sig;
  }

  method AppendEntries(start: seq<byte>, ks: seq<string>, d: Dir, ghost put: (string, Entry, seq<byte>) -> seq<byte>)
    returns (r: Result<seq<byte>, Error>)
    requires forall k :: k in ks ==> k in d
    requires forall k, e, t {:trigger PutEntry(k, e, t)} :: put(k, e, t) == PutEntry(k, e, t)
    ensures r.Ok? ==> r.value == start + PutEntries(put, ks, d) && forall k :: k in ks ==> Encodable(k, d[k])
    ensures r.Err? ==> r.error == CheckpointTooLarge && exists k :: k in ks && !Encodable(k, d[k])
  {
    var out := start;
    var i := 0;
    while i < |ks|
      invariant 0 <= i <= |ks|
      invariant forall k :: k in ks[..i] ==> Encodable(k, d[k])
      invariant out + PutEntries(put, ks[i..], d) == start + PutEntries(put, ks, d)
    {
      assert ks[i] in ks;
      if !Encodable(ks[i], d[ks[i]]) {
        return Err(CheckpointTooLarge);
      }
      ghost var tail := PutEntries(put, ks[i + 1..], d);
      assert ks[i..][1..] == ks[i + 1..] && ks[..i + 1] == ks[..i] + [ks[i]];
      assert PutEntries(put, ks[i..], d) == put(ks[i], d[ks[i]], tail);
      out := AppendEntry(out, ks[i], d[ks[i]], tail);
      i := i + 1;
    }
    assert ks[..i] == ks && ks[i..] == [] && out + [] == out;
    return Ok(out);
  }

  lemma EncodeSplit(d: Dir, nextInode: u64, logicalTime: u64, top: seq<nat>)
    requires top == [8, 8, 4]
    ensures forall k :: k in Sorted(d.Keys) <==> k in d
    ensures Encode(d, nextInode, logicalTime)
            == PutNumbers(top, [nextInode, logicalTime, |d|], []) + PutEntries(PutEntry, Sorted(d.Keys), d)
  {
    SortedLists(d.Keys);
    PutNumbersSplit(top, [nextInode, logicalTime, |d|], PutEntries(PutEntry, Sorted(d.Keys), d));
  }

  method EncodePayload(d: Dir, nextInode: u64, logicalTime: u64) returns (r: Result<seq<byte>, Error>)
    ensures r == if DirEncodable(d) then Ok(Encode(d, nextInode, logicalTime)) else Err(CheckpointTooLarge)
  {
    var top: seq<nat> := [8, 8, 4];
    EncodeSplit(d, nextInode, logicalTime, top);
    var ks := Sorted(d.Keys);
    var out := AppendNumbers([], top, [nextInode, logicalTime, |d|], []);
    assert out == out + [];
    assert out == PutNumbers(top, [nextInode, logicalTime, |d|], []);
    r := AppendEntries(out, ks, d, PutEntry);
    if r.Ok? {
      assert DirEncodable(d) by {
        forall p | p in d ensures Encodable(p, d[p]) { assert p in ks; }
      }
      assert r.value == Encode(d, nextInode, logicalTime);
    } else {
      ghost var k :| k in ks && !Encodable(k, d[k]);
      assert !DirEncodable(d);
    }
  }

  class Cursor {
    const data: seq<byte>
    var off: nat

    ghost predicate Valid()
      reads this
    {
      off <= |data|
    }

    ghost function Rest(): seq<byte>
      requires Valid()
      reads this
    {
      data[off..]
    }

    constructor (data: seq<byte>)
      ensures Valid() && Rest() == data
    {
      this.data, this.off := data, 0;
    }

    method Take(n: nat) returns (r: Result<seq<byte>, Error>)
      requires Valid()
      modifies this
      ensures Valid()
      ensures Follows(Bytes(old(Rest()), n), r, Rest())
    {
      if off + n > |data| {
        return Err(JournalCorrupt);
      }
      r := Ok(data[off..off + n]);
      assert data[off..][..n] == data[off..off + n] && data[off..][n..] == data[off + n..];
      off := off + n;
    }

    method TakeNumbers(widths: seq<nat>) returns (r: Result<seq<nat>, Error>)
      requires Valid()
      modifies this
      ensures Valid()
      ensures Follows(Numbers(old(Rest()), widths), r, Rest())
    {
      var vs := [];
      var i := 0;
      assert widths[0..] == widths;
      ghost var all := Numbers(Rest(), widths);
      assert all.Ok? ==> [] + all.value.0 == all.value.0;
      while i < |widths|
        invariant Valid() && 0 <= i <= |widths|
        invariant Numbers(old(Rest()), widths) == Prefixed(vs, Numbers(Rest(), widths[i..]))
      {
        ghost var tail := Numbers(Rest(), widths[i..]);
        var bs := Take(widths[i]);
        if bs.Err? {
          return Err(bs.error);
        }
        assert widths[i..][1..] == widths[i + 1..];
        ghost var rest := Numbers(Rest(), widths[i + 1..]);
        if rest.Ok? { Regroup(vs, [LeValue(bs.value)], rest.value.0); }
        vs := vs + [LeValue(bs.value)];
        i := i + 1;
      }
      assert vs + [] == vs;
      return Ok(vs);
    }
  }

  method TakeHeader(c: Cursor) returns (r: Result<Header, Error>)
    requires c.Valid()
    modifies c
    ensures c.Valid() && Follows(ReadHeader(old(c.Rest()), SHAPE, FIELDS), r, c.Rest())
  {
    var shape := c.TakeNumbers(SHAPE);
    if shape.Err? {
      return Err(shape.error);
    }
    var kind := KindOf(shape.value[2]);
    if kind.Err? {
      return Err(kind.error);
    }
    var f := c.TakeNumbers(FIELDS);
    if f.Err? {
      return Err(f.error);
    }
    return Ok(Fields(shape.value, kind.value, f.value));
  }

  method TakePath(c: Cursor, n: nat) returns (r: Result<string, Error>)
    requires c.Valid()
    modifies c
    ensures c.Valid() && Follows(ReadPath(old(c.Rest()), n), r, c.Rest())
  {
    var name := c.Take(n);
    if name.Err? {
      return Err(name.error);
    }
    var path := Utf8.FromUtf8(name.value);
    if path.None? {
      return Err(CorruptEntry);
    }
    if !PathOk(path.value) {
      return Err(PathInvalid);
    }
    return Ok(path.value);
  }

  method TakeBlocks(c: Cursor, n: nat) returns (r: Result<seq<u64>, Error>)
    requires c.Valid()
    modifies c
    ensures c.Valid() && Follows(Blocks(old(c.Rest()), n), r, c.Rest())
  {
    var blocks: seq<u64> := [];
    var i := 0;
    ghost var all := Blocks(c.Rest(), n);
    assert all.Ok? ==> [] + all.value.0 == all.value.0;
    while i < n
      invariant c.Valid() && 0 <= i <= n
      invariant Blocks(old(c.Rest()), n) == After(blocks, Blocks(c.Rest(), n - i))
    {
      var b := c.TakeNumbers([8]);
      if b.Err? {
        return Err(b.error);
      }
      FitsWide(b.value[0]);
      ghost var rest := Blocks(c.Rest(), n - i - 1);
      if rest.Ok? { Regroup(blocks, [b.value[0]], rest.value.0); }
      blocks := blocks + [b.value[0]];
      i := i + 1;
    }
    assert blocks + [] == blocks;
    return Ok(blocks);
  }

  ghost function After(vs: seq<u64>, tail: Read<seq<u64>>): Read<seq<u64>> {
    match tail
    case Ok((ws, t)) => Ok((vs + ws, t))
    case Err(e) => Err(e)
  }

  method TakeEntry(c: Cursor, ghost one: seq<byte> -> Read<(string, Entry)>) returns (r: Result<(string, Entry), Error>)
    requires c.Valid()
    requires forall rest {:trigger ReadEntry(rest)} :: one(rest) == ReadEntry(rest)
    modifies c
    ensures c.Valid() && Follows(one(old(c.Rest())), r, c.Rest())
  {
    assert one(c.Rest()) == ReadEntry(c.Rest());
    var h := TakeHeader(c);
    if h.Err? {
      return Err(h.error);
    }
    var path := TakePath(c, h.value.pathLen);
    if path.Err? {
      return Err(path.error);
    }
    var blocks := TakeBlocks(c, h.value.blocksLen);
    if blocks.Err? {
      return Err(blocks.error);
    }
    var signature := None;
    if h.value.hasSig {
      var sig := c.Take(32);
      if sig.Err? {
        return Err(sig.error);
      }
      signature := Some(sig.value);
    }
    return Ok((path.value, EntryOf(h.value, blocks.value, signature)));
  }

  method TakeEntries(c: Cursor, n: nat, ghost one: seq<byte> -> Read<(string, Entry)>) returns (r: Result<Dir, Error>)
    requires c.Valid()
    requires forall rest {:trigger ReadEntry(rest)} :: one(rest) == ReadEntry(rest)
    modifies c
    ensures c.Valid() && Follows(ReadEntries(one, old(c.Rest()), n, map[]), r, c.Rest())
  {
    var entries: Dir := map[];
    var i := 0;
    while i < n
      invariant c.Valid() && 0 <= i <= n
      invariant ReadEntries(one, old(c.Rest()), n, map[]) == ReadEntries(one, c.Rest(), n - i, entries)
    {
      var e := TakeEntry(c, one);
      if e.Err? {
        return Err(e.error);
      }
      entries := entries[e.value.0 := e.value.1];
      i := i + 1;
    }
    return Ok(entries);
  }

  method DecodePayload(data: seq<byte>) returns (r: Result<Payload, Error>)
    ensures r == Decode(data)
  {
    var c := new Cursor(data);
    var n := c.TakeNumbers([8, 8, 4]);
    if n.Err? {
      return Err(n.error);
    }
    var entries := TakeEntries(c, n.value[2], ReadEntry);
    if entries.Err? {
      return Err(entries.error);
    }
    if c.off != |c.data| {
      return Err(JournalCorrupt);
    }
    FitsWide(n.value[0]);
    FitsWide(n.value[1]);
    return Ok(Payload(entries.value, Max(n.value[0], 2), Max(n.value[1], 1)));
  }

  /** A method result agrees with the reading function: same value or error, same bytes left. */
  ghost predicate Follows<T>(spec: Read<T>, r: Result<T, Error>, rest: seq<byte>) {
    match spec
    case Ok((v, t)) => r == Ok(v) && rest == t
    case Err(e) => r == Err(e)
  }

  ghost function Prefixed(vs: seq<nat>, tail: Read<seq<nat>>): Read<seq<nat>> {
    match tail
    case Ok((ws, t)) => Ok((vs + ws, t))
    case Err(e) => Err(e)
  }
}

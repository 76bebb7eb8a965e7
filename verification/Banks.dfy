/**
 * The dual-bank checkpoint of `libs/zfs-core/src/metadata.rs`: `load`, `store` and `load_bank`.
 * The checksum, the encoder and the decoder are parameters here; `FORMAT` is the real one.
 */
module Banks {
  import opened Common
  import opened Disk
  import opened Codec
  import opened Directory
  import Crc

  const BANK_BLOCKS: nat := 32
  const BANK_A: nat := 1
  const BANK_B: nat := BANK_A + BANK_BLOCKS
  const RESERVED_END: nat := BANK_B + BANK_BLOCKS
  const CAPACITY: nat := (BANK_BLOCKS - 1) * BLOCK_SIZE

  const MAGIC: seq<byte> := [0x5A, 0x4D, 0x44, 0x54, 0x30, 0x30, 0x30, 0x31]

  /** The checksum, encoder and decoder that the banks are built on. */
  datatype Format = Format(
    crc: seq<byte> -> word,
    encode: (Dir, u64, u64) -> Option<seq<byte>>,
    decode: seq<byte> -> Result<Payload, Error>)

  function TryEncode(d: Dir, nextInode: u64, logicalTime: u64): Option<seq<byte>> {
    if DirEncodable(d) then Some(Encode(d, nextInode, logicalTime)) else None
  }

  const FORMAT := Format(Crc.Crc32, TryEncode, Decode)

  datatype Checkpoint = Checkpoint(generation: u64, payload: Payload)

  // ---- Blocks of a bank ----

  function Pad(bs: seq<byte>): Block
    requires |bs| <= BLOCK_SIZE
  {
    bs + seq(BLOCK_SIZE - |bs|, i => 0)
  }

  function Slots(len: nat): nat {
    (len + BLOCK_SIZE - 1) / BLOCK_SIZE
  }

  function Chunk(payload: seq<byte>, i: nat): Block
    requires i < Slots(|payload|)
  {
    var start := i * BLOCK_SIZE;
    if start + BLOCK_SIZE <= |payload| then payload[start..start + BLOCK_SIZE] else Pad(payload[start..])
  }

  /** The first `len` bytes of the blocks from `from` on. */
  function Gather(dev: Dev, from: nat, len: nat): (bs: seq<byte>)
    requires from + Slots(len) <= |dev|
    ensures |bs| == len
    decreases len
  {
    if len == 0 then []
    else if len <= BLOCK_SIZE then dev[from][..len]
    else dev[from] + Gather(dev, from + 1, len - BLOCK_SIZE)
  }

  function HeaderBlock(generation: u64, len: word, crc: word, count: nat): Block {
    Pad(MAGIC + Le(8, generation) + Le(4, len) + Le(4, crc) + Le(4, count))
  }

  predicate HasMagic(h: Block) { h[..8] == MAGIC }

  function GenerationOf(h: Block): (g: u64) {
    LeValueFits(h[8..16]);
    FitsWide(LeValue(h[8..16]));
    LeValue(h[8..16])
  }

  function LengthOf(h: Block): nat { LeValue(h[16..20]) }

  function CrcOf(h: Block): nat { LeValue(h[20..24]) }

  /** The fields are read back from the header block they were written to. */
  lemma HeaderFields(generation: u64, len: word, crc: word, count: nat)
    ensures var h := HeaderBlock(generation, len, crc, count);
            HasMagic(h) && GenerationOf(h) == generation && LengthOf(h) == len && CrcOf(h) == crc
  {
    var h := HeaderBlock(generation, len, crc, count);
    assert h[..8] == MAGIC;
    assert h[8..16] == Le(8, generation);
    assert h[16..20] == Le(4, len);
    assert h[20..24] == Le(4, crc);
    FitsWide(generation);
    FitsWord(len);
    FitsWord(crc);
    LeRoundTrip(8, generation);
    LeRoundTrip(4, len);
    LeRoundTrip(4, crc);
  }

  // ---- Loading ----

  function LoadBank(f: Format, dev: Dev, start: nat): Result<Option<Checkpoint>, Error> {
    if start >= |dev| then Ok(None)
    else
      var h := dev[start];
      if !HasMagic(h) || LengthOf(h) > CAPACITY then Ok(None)
      else if start + 1 + Slots(LengthOf(h)) > |dev| then Err(DeviceFailed)
      else
        var payload := Gather(dev, start + 1, LengthOf(h));
        if f.crc(payload) != CrcOf(h) then Ok(None)
        else
          var decoded :- f.decode(payload);
          Ok(Some(Checkpoint(GenerationOf(h), decoded)))
  }

  /** The bank with the higher generation wins; bank A wins a tie. */
  function Choose(a: Option<Checkpoint>, b: Option<Checkpoint>): Option<Checkpoint> {
    match (a, b)
    case (Some(x), Some(y)) => Some(if y.generation > x.generation then y else x)
    case (Some(_), None) => a
    case (None, _) => b
  }

  function Load(f: Format, dev: Dev): Result<Option<Checkpoint>, Error> {
    var a :- LoadBank(f, dev, BANK_A);
    var b :- LoadBank(f, dev, BANK_B);
    Ok(Choose(a, b))
  }

  // ---- Storing ----

  function Target(generation: nat): nat {
    if generation % 2 == 1 then BANK_A else BANK_B
  }

  /** The block writes of `store`: the payload in order, then the header. */
  function BankWrites(bank: nat, payload: seq<byte>, header: Block): seq<Write> {
    PayloadWrites(bank, payload) + [Write(bank, header)]
  }

  /** A header that announces `payload` as `generation`. */
  ghost predicate Announces(f: Format, h: Block, generation: nat, payload: seq<byte>) {
    HasMagic(h) && GenerationOf(h) == generation && LengthOf(h) == |payload| && CrcOf(h) == f.crc(payload)
  }

  function PayloadWrites(bank: nat, payload: seq<byte>): (ws: seq<Write>)
    ensures |ws| == Slots(|payload|)
  {
    seq(Slots(|payload|), i requires 0 <= i < Slots(|payload|) => Write(bank + 1 + i, Chunk(payload, i)))
  }

  function NextGeneration(generation: u64): u64 {
    if generation == U64 - 1 then generation else generation + 1
  }

  // ---- What a bank holds ----

  lemma FirstChunk(payload: seq<byte>)
    requires payload != []
    ensures |payload| > BLOCK_SIZE ==> Chunk(payload, 0) == payload[..BLOCK_SIZE]
    ensures |payload| <= BLOCK_SIZE ==> Chunk(payload, 0)[..|payload|] == payload
  {}

  lemma LaterChunk(payload: seq<byte>, tail: seq<byte>, i: nat)
    requires |payload| > BLOCK_SIZE && tail == payload[BLOCK_SIZE..] && i < Slots(|tail|)
    ensures i + 1 < Slots(|payload|) && Chunk(tail, i) == Chunk(payload, i + 1)
  {}

  lemma {:induction false} GatherStored(dev: Dev, from: nat, payload: seq<byte>)
    requires from + Slots(|payload|) <= |dev|
    requires forall i :: 0 <= i < Slots(|payload|) ==> dev[from + i] == Chunk(payload, i)
    ensures Gather(dev, from, |payload|) == payload
    decreases |payload|
  {
    if |payload| > BLOCK_SIZE {
      var tail := payload[BLOCK_SIZE..];
      forall i | 0 <= i < Slots(|tail|) ensures dev[from + 1 + i] == Chunk(tail, i) {
        LaterChunk(payload, tail, i);
        assert dev[from + (i + 1)] == Chunk(payload, i + 1);
      }
      GatherStored(dev, from + 1, tail);
      FirstChunk(payload);
      assert dev[from + 0] == Chunk(payload, 0);
    } else if payload != [] {
      FirstChunk(payload);
      assert dev[from + 0] == Chunk(payload, 0);
    }
  }

  lemma {:induction false} GatherFrame(dev: Dev, dev': Dev, from: nat, len: nat)
    requires |dev| == |dev'| && from + Slots(len) <= |dev|
    requires forall i :: from <= i < from + Slots(len) ==> dev[i] == dev'[i]
    ensures Gather(dev, from, len) == Gather(dev', from, len)
    decreases len
  {
    if len > BLOCK_SIZE { GatherFrame(dev, dev', from + 1, len - BLOCK_SIZE); }
  }

  /** Two devices agree on the blocks of the bank at `start`. */
  ghost predicate SameBank(dev: Dev, dev': Dev, start: nat) {
    |dev| == |dev'| && forall i :: start <= i < start + BANK_BLOCKS && i < |dev| ==> dev[i] == dev'[i]
  }

  lemma SlotsFit(len: nat)
    requires len <= CAPACITY
    ensures Slots(len) < BANK_BLOCKS
  {}

  /** The bank of `generation` holds `payload` under a matching header. */
  ghost predicate Holds(f: Format, dev: Dev, generation: nat, payload: seq<byte>) {
    && |dev| >= RESERVED_END && |payload| <= CAPACITY
    && Announces(f, dev[Target(generation)], generation, payload)
    && Slots(|payload|) < BANK_BLOCKS
    && Gather(dev, Target(generation) + 1, |payload|) == payload
  }

  /** Whatever header the other bank carries, its generation is older. */
  ghost predicate StaleOlder(dev: Dev, generation: nat) {
    |dev| >= RESERVED_END
    && (HasMagic(dev[Target(generation + 1)]) ==> GenerationOf(dev[Target(generation + 1)]) < generation)
  }

  /** No bank was ever written. */
  ghost predicate Blank(dev: Dev) {
    |dev| >= RESERVED_END && !HasMagic(dev[BANK_A]) && !HasMagic(dev[BANK_B])
  }

  /**
   * The one way a bank makes the whole volume unloadable: its header accepts the bytes
   * behind it (length and checksum agree) although they do not decode.
   */
  ghost predicate AcceptsGarbage(f: Format, dev: Dev, start: nat)
    requires start + BANK_BLOCKS <= |dev|
  {
    var h := dev[start];
    && HasMagic(h) && LengthOf(h) <= CAPACITY && Slots(LengthOf(h)) < BANK_BLOCKS
    && var payload := Gather(dev, start + 1, LengthOf(h));
       f.crc(payload) == CrcOf(h) && f.decode(payload).Err?
  }

  lemma BankReadable(f: Format, dev: Dev, start: nat)
    requires start + BANK_BLOCKS <= |dev|
    ensures LoadBank(f, dev, start).Err? <==> AcceptsGarbage(f, dev, start)
    ensures LoadBank(f, dev, start).Ok? && LoadBank(f, dev, start).value.Some? ==>
              HasMagic(dev[start]) && LoadBank(f, dev, start).value.value.generation == GenerationOf(dev[start])
  {
    if LengthOf(dev[start]) <= CAPACITY { SlotsFit(LengthOf(dev[start])); }
  }

  /** Loading finds the held generation exactly when the other bank is not accepting garbage. */
  lemma LoadHeld(f: Format, dev: Dev, generation: nat, payload: seq<byte>)
    requires Holds(f, dev, generation, payload) && StaleOlder(dev, generation) && f.decode(payload).Ok?
    ensures Load(f, dev) == Ok(Some(Checkpoint(GenerationOf(dev[Target(generation)]), f.decode(payload).value)))
            <==> !AcceptsGarbage(f, dev, Target(generation + 1))
    ensures Load(f, dev).Err? <==> AcceptsGarbage(f, dev, Target(generation + 1))
  {
    BankReadable(f, dev, Target(generation));
    BankReadable(f, dev, Target(generation + 1));
  }

  /** A held payload that does not decode makes loading fail, whatever the other bank holds. */
  lemma LoadHeldBad(f: Format, dev: Dev, generation: nat, payload: seq<byte>)
    requires Holds(f, dev, generation, payload) && f.decode(payload).Err?
    ensures Load(f, dev).Err?
  {
    BankReadable(f, dev, Target(generation));
  }

  lemma LoadBlank(f: Format, dev: Dev)
    requires Blank(dev)
    ensures Load(f, dev) == Ok(None)
  {}

  // ---- Crashing while storing ----

  lemma PayloadWithin(bank: nat, payload: seq<byte>)
    requires |payload| <= CAPACITY
    ensures Within(PayloadWrites(bank, payload), bank + 1, bank + BANK_BLOCKS)
  {
    SlotsFit(|payload|);
  }

  /** The two banks, in either order. */
  predicate TwoBanks(bank: nat, other: nat) {
    (bank == BANK_A && other == BANK_B) || (bank == BANK_B && other == BANK_A)
  }

  lemma Elsewhere(dev: Dev, dev': Dev, bank: nat, other: nat, lo: nat)
    requires |dev| >= RESERVED_END && TwoBanks(bank, other)
    requires bank <= lo && SameOutside(dev, dev', lo, bank + BANK_BLOCKS)
    ensures SameBank(dev, dev', other) && (bank < lo ==> dev'[bank] == dev[bank])
    ensures SameOutside(dev, dev', 0, RESERVED_END)
  {}

  lemma PrefixWithin(dev: Dev, ps: seq<Write>, w: Write, lo: nat, hi: nat, k: nat)
    requires Within(ps, lo, hi) && k <= |ps|
    ensures SameOutside(dev, Apply(dev, (ps + [w])[..k]), lo, hi)
  {
    assert (ps + [w])[..k] == ps[..k];
    ApplyWithin(dev, ps[..k], lo, hi);
  }

  /** Until the header is written, both headers and the whole other bank are untouched. */
  lemma CrashBeforeHeader(dev: Dev, bank: nat, other: nat, payload: seq<byte>, header: Block, k: nat)
    requires |dev| >= RESERVED_END && |payload| <= CAPACITY && k <= Slots(|payload|) && TwoBanks(bank, other)
    ensures var dk := Apply(dev, BankWrites(bank, payload, header)[..k]);
            SameBank(dev, dk, other) && dk[bank] == dev[bank] && SameOutside(dev, dk, 0, RESERVED_END)
  {
    PayloadWithin(bank, payload);
    PrefixWithin(dev, PayloadWrites(bank, payload), Write(bank, header), bank + 1, bank + BANK_BLOCKS, k);
    Elsewhere(dev, Apply(dev, BankWrites(bank, payload, header)[..k]), bank, other, bank + 1);
  }

  /** Blocks written one after the other from `lo` on, then one below them, all stay. */
  lemma RunStored(dev: Dev, ps: seq<Write>, w: Write, lo: nat, hi: nat)
    requires forall i :: 0 <= i < |ps| ==> ps[i].lba == lo + 1 + i
    requires w.lba == lo && lo + 1 + |ps| <= hi <= |dev|
    ensures var d1 := Apply(dev, ps + [w]);
            && d1[lo] == w.data && SameOutside(dev, d1, lo, hi)
            && forall i :: 0 <= i < |ps| ==> d1[lo + 1 + i] == ps[i].data
  {
    var ws := ps + [w];
    ApplyWithin(dev, ws, lo, hi);
    ApplyOnce(dev, ws, |ps|);
    forall i | 0 <= i < |ps| ensures Apply(dev, ws)[lo + 1 + i] == ps[i].data {
      assert ws[i] == ps[i];
      ApplyOnce(dev, ws, i);
    }
  }

  lemma GatherWritten(dev: Dev, ps: seq<Write>, bank: nat, payload: seq<byte>)
    requires |ps| == Slots(|payload|) && bank + 1 + |ps| <= |dev|
    requires forall i :: 0 <= i < |ps| ==> dev[bank + 1 + i] == ps[i].data
    requires forall i :: 0 <= i < |ps| ==> ps[i].data == Chunk(payload, i)
    ensures Gather(dev, bank + 1, |payload|) == payload
  {
    GatherStored(dev, bank + 1, payload);
  }

  lemma PayloadStored(dev: Dev, bank: nat, payload: seq<byte>, header: Block)
    requires |payload| <= CAPACITY && bank + BANK_BLOCKS <= |dev|
    ensures Slots(|payload|) < BANK_BLOCKS
    ensures var d1 := Apply(dev, BankWrites(bank, payload, header));
            && d1[bank] == header && SameOutside(dev, d1, bank, bank + BANK_BLOCKS)
            && Gather(d1, bank + 1, |payload|) == payload
  {
    var ps := PayloadWrites(bank, payload);
    SlotsFit(|payload|);
    RunStored(dev, ps, Write(bank, header), bank, bank + BANK_BLOCKS);
    GatherWritten(Apply(dev, ps + [Write(bank, header)]), ps, bank, payload);
  }

  lemma StoreHolds(f: Format, dev: Dev, generation: nat, bank: nat, other: nat, payload: seq<byte>, header: Block)
    requires |dev| >= RESERVED_END && |payload| <= CAPACITY && Announces(f, header, generation, payload)
    requires TwoBanks(bank, other) && bank == Target(generation)
    ensures var d1 := Apply(dev, BankWrites(bank, payload, header));
            && Holds(f, d1, generation, payload)
            && SameBank(dev, d1, other)
            && SameOutside(dev, d1, 0, RESERVED_END)
  {
    PayloadStored(dev, bank, payload, header);
    Elsewhere(dev, Apply(dev, BankWrites(bank, payload, header)), bank, other, bank);
  }

  lemma HoldsFrame(f: Format, dev: Dev, dev': Dev, generation: nat, payload: seq<byte>)
    requires Holds(f, dev, generation, payload) && SameBank(dev, dev', Target(generation))
    ensures Holds(f, dev', generation, payload)
  {
    GatherFrame(dev, dev', Target(generation) + 1, |payload|);
  }

  lemma StillHeld(f: Format, dev: Dev, dk: Dev, generation: nat, before: seq<byte>)
    requires Holds(f, dev, generation, before) && StaleOlder(dev, generation)
    requires SameBank(dev, dk, Target(generation)) && dk[Target(generation + 1)] == dev[Target(generation + 1)]
    ensures Holds(f, dk, generation, before) && StaleOlder(dk, generation)
  {
    HoldsFrame(f, dev, dk, generation, before);
  }

  /** Once a newer generation is in place, the bank it replaced is only a stale copy. */
  lemma NowStale(f: Format, dev: Dev, dk: Dev, generation: nat, before: seq<byte>)
    requires Holds(f, dev, generation, before) && SameBank(dev, dk, Target(generation))
    ensures StaleOlder(dk, generation + 1)
    ensures AcceptsGarbage(f, dk, Target(generation)) <==> f.decode(before).Err?
  {
    HoldsFrame(f, dev, dk, generation, before);
    assert Target(generation + 2) == Target(generation);
  }

  /**
   * A crash after any number `k` of the block writes of a store leaves the old checkpoint
   * held, unless the header was reached, and then the new one is.
   */
  lemma CrashDuringStore(f: Format, dev: Dev, generation: nat, before: seq<byte>, payload: seq<byte>, header: Block,
                         k: nat)
    requires Holds(f, dev, generation, before) && StaleOlder(dev, generation)
    requires |payload| <= CAPACITY && Announces(f, header, generation + 1, payload)
    requires k <= Slots(|payload|) + 1
    ensures var dk := Apply(dev, BankWrites(Target(generation + 1), payload, header)[..k]);
            && SameOutside(dev, dk, 0, RESERVED_END)
            && if k <= Slots(|payload|) then Holds(f, dk, generation, before) && StaleOlder(dk, generation)
               else
                 && Holds(f, dk, generation + 1, payload) && StaleOlder(dk, generation + 1)
                 && (AcceptsGarbage(f, dk, Target(generation)) <==> f.decode(before).Err?)
  {
    var bank, other := Target(generation + 1), Target(generation);
    var ws := BankWrites(bank, payload, header);
    var dk := Apply(dev, ws[..k]);
    if k <= Slots(|payload|) {
      CrashBeforeHeader(dev, bank, other, payload, header, k);
      StillHeld(f, dev, dk, generation, before);
    } else {
      assert ws[..k] == ws;
      StoreHolds(f, dev, generation + 1, bank, other, payload, header);
      NowStale(f, dev, dk, generation, before);
    }
  }

  /** The saturating generation counter reuses the current bank exactly at its last value. */
  lemma BankReused(generation: u64)
    ensures Target(NextGeneration(generation)) == Target(generation) <==> generation == U64 - 1
  {}

  // ---- The operations ----

  method WritePayload(device: Device, bank: nat, payload: seq<byte>) returns (ok: bool, ghost ws: seq<Write>)
    requires |payload| <= CAPACITY
    modifies device
    ensures device.log == old(device.log) + ws && device.blocks == Apply(old(device.blocks), ws)
    ensures |ws| <= Slots(|payload|) && ws == PayloadWrites(bank, payload)[..|ws|]
    ensures ok <==> |ws| == Slots(|payload|)
  {
    ws := [];
    var i := 0;
    ghost var all := PayloadWrites(bank, payload);
    while i < Slots(|payload|)
      invariant 0 <= i <= Slots(|payload|) && |ws| == i && ws == all[..i]
      invariant device.log == old(device.log) + ws && device.blocks == Apply(old(device.blocks), ws)
    {
      var block := Chunk(payload, i);
      ok := device.WriteBlock(bank + 1 + i, block);
      if !ok {
        return false, ws;
      }
      assert all[i] == Write(bank + 1 + i, block);
      ApplyNext(old(device.blocks), all, i);
      ws := ws + [all[i]];
      i := i + 1;
    }
    ok := true;
  }

  /**
   * `store`: the writes that reach the device are a prefix of the payload blocks followed by
   * the header, and the whole of it exactly when the store succeeds.
   */
  method Store(f: Format, device: Device, generation: u64, d: Dir, nextInode: u64, logicalTime: u64)
    returns (r: Result<u64, Error>, ghost ws: seq<Write>, ghost header: Block)
    modifies device
    ensures device.log == old(device.log) + ws && device.blocks == Apply(old(device.blocks), ws)
    ensures var encoded := f.encode(d, nextInode, logicalTime);
            if encoded.None? || |encoded.value| > CAPACITY then r == Err(CheckpointTooLarge) && ws == []
            else
              && |ws| <= Slots(|encoded.value|) + 1
              && ws == BankWrites(Target(NextGeneration(generation)), encoded.value, header)[..|ws|]
              && Announces(f, header, NextGeneration(generation), encoded.value)
              && r == if |ws| == Slots(|encoded.value|) + 1 then Ok(NextGeneration(generation)) else Err(DeviceFailed)
  {
    ws := [];
    header := seq(BLOCK_SIZE, i => 0);
    var encoded := f.encode(d, nextInode, logicalTime);
    if encoded.None? {
      return Err(CheckpointTooLarge), ws, header;
    }
    var payload := encoded.value;
    if |payload| > CAPACITY {
      return Err(CheckpointTooLarge), ws, header;
    }
    var next := NextGeneration(generation);
    var block := HeaderBlock(next, |payload|, f.crc(payload), |d|);
    HeaderFields(next, |payload|, f.crc(payload), |d|);
    header := block;
    var ok;
    ok, ws := WritePayload(device, Target(next), payload);
    PrefixOf(PayloadWrites(Target(next), payload), Write(Target(next), block), ws);
    if !ok {
      return Err(DeviceFailed), ws, header;
    }
    ok := device.WriteBlock(Target(next), block);
    if !ok {
      return Err(DeviceFailed), ws, header;
    }
    ApplyConcat(old(device.blocks), ws, [Write(Target(next), block)]);
    ws := ws + [Write(Target(next), block)];
    r := Ok(next);
  }

  lemma BankWritesWithin(bank: nat, payload: seq<byte>, header: Block, k: nat)
    requires |payload| <= CAPACITY && k <= Slots(|payload|) + 1
    ensures Within(BankWrites(bank, payload, header)[..k], bank, bank + BANK_BLOCKS)
  {
    PayloadWithin(bank, payload);
  }

  lemma PrefixOf(all: seq<Write>, last: Write, ws: seq<Write>)
    requires |ws| <= |all| && ws == all[..|ws|]
    ensures ws == (all + [last])[..|ws|]
    ensures |ws| == |all| ==> ws + [last] == (all + [last])[..|ws| + 1]
  {}

  lemma GatherNext(dev: Dev, at: nat, left: nat, n: nat, payload: seq<byte>, head: seq<byte>)
    requires left > 0 && n == (if left < BLOCK_SIZE then left else BLOCK_SIZE) && at < |dev| && head == dev[at][..n]
    ensures 1 + Slots(left - n) == Slots(left)
    ensures at + Slots(left) <= |dev| ==>
              payload + Gather(dev, at, left) == payload + head + Gather(dev, at + 1, left - n)
  {}

  method LoadPayload(device: Device, from: nat, len: nat) returns (r: Option<seq<byte>>)
    requires from <= |device.blocks|
    ensures from + Slots(len) <= |device.blocks| ==> r == Some(Gather(device.blocks, from, len))
    ensures from + Slots(len) > |device.blocks| ==> r == None
  {
    var payload: seq<byte> := [];
    var at: nat, left: nat := from, len;
    while left > 0
      invariant at <= |device.blocks| && left <= len && |payload| == len - left && at + Slots(left) == from + Slots(len)
      invariant from + Slots(len) <= |device.blocks| ==>
                  payload + Gather(device.blocks, at, left) == Gather(device.blocks, from, len)
      decreases left
    {
      var block := device.ReadBlock(at);
      if block.None? {
        return None;
      }
      var n := if left < BLOCK_SIZE then left else BLOCK_SIZE;
      var head := block.value[..n];
      GatherNext(device.blocks, at, left, n, payload, head);
      payload := payload + head;
      at, left := at + 1, left - n;
    }
    assert payload + [] == payload;
    r := Some(payload);
  }

  method LoadOneBank(f: Format, device: Device, start: nat) returns (r: Result<Option<Checkpoint>, Error>)
    ensures r == LoadBank(f, device.blocks, start)
  {
    var header := device.ReadBlock(start);
    if header.None? || !HasMagic(header.value) || LengthOf(header.value) > CAPACITY {
      return Ok(None);
    }
    var payload := LoadPayload(device, start + 1, LengthOf(header.value));
    if payload.None? {
      return Err(DeviceFailed);
    }
    if f.crc(payload.value) != CrcOf(header.value) {
      return Ok(None);
    }
    var decoded :- f.decode(payload.value);
    r := Ok(Some(Checkpoint(GenerationOf(header.value), decoded)));
  }

  method LoadCheckpoint(f: Format, device: Device) returns (r: Result<Option<Checkpoint>, Error>)
    ensures r == Load(f, device.blocks)
  {
    var a :- LoadOneBank(f, device, BANK_A);
    var b :- LoadOneBank(f, device, BANK_B);
    r := Ok(Choose(a, b));
  }
}

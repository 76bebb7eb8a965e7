/** The bitmap block allocator of `libs/zfs-core/src/allocator.rs`. */
module Allocator {

  import opened Common

  datatype AllocError = NoSpace | OutOfBounds | DoubleAlloc | NotAllocated

  // ---- Words and their bits ----

  /** Bit `i` of `w`: whether `w & (1 << i)` is non-zero. */
  predicate Bit(w: nat, i: nat) {
    if i == 0 then w % 2 == 1 else Bit(w / 2, i - 1)
  }

  /** `w | (1 << i)` */
  function SetBit(w: nat, i: nat): nat {
    if i == 0 then w - w % 2 + 1 else 2 * SetBit(w / 2, i - 1) + w % 2
  }

  /** `w & !(1 << i)` */
  function ClearBit(w: nat, i: nat): nat {
    if i == 0 then w - w % 2 else 2 * ClearBit(w / 2, i - 1) + w % 2
  }

  /** `(!w).trailing_zeros()`: the position of the lowest clear bit. */
  function TrailingOnes(w: nat): nat {
    if w % 2 == 0 then 0 else 1 + TrailingOnes(w / 2)
  }

  lemma {:induction false} SetBitBits(w: nat, i: nat, j: nat)
    ensures Bit(SetBit(w, i), j) <==> i == j || Bit(w, j)
  {
    if i == 0 || j == 0 {
      HalfOf(SetBit(w, i), if i == 0 then w / 2 else SetBit(w / 2, i - 1), if i == 0 then 1 else w % 2);
    } else {
      HalfOf(SetBit(w, i), SetBit(w / 2, i - 1), w % 2);
      SetBitBits(w / 2, i - 1, j - 1);
    }
  }

  lemma {:induction false} ClearBitBits(w: nat, i: nat, j: nat)
    ensures Bit(ClearBit(w, i), j) <==> i != j && Bit(w, j)
  {
    if i == 0 || j == 0 {
      HalfOf(ClearBit(w, i), if i == 0 then w / 2 else ClearBit(w / 2, i - 1), if i == 0 then 0 else w % 2);
    } else {
      HalfOf(ClearBit(w, i), ClearBit(w / 2, i - 1), w % 2);
      ClearBitBits(w / 2, i - 1, j - 1);
    }
  }

  lemma {:induction false} BitBound(w: nat, i: nat, n: nat)
    requires w < Pow2(n) && i < n
    ensures SetBit(w, i) < Pow2(n) && ClearBit(w, i) < Pow2(n)
  {
    if i != 0 { BitBound(w / 2, i - 1, n - 1); }
  }

  lemma {:induction false} LowestClear(w: nat, n: nat)
    requires w < Pow2(n)
    ensures TrailingOnes(w) <= n && !Bit(w, TrailingOnes(w))
    ensures TrailingOnes(w) == n <==> w == Pow2(n) - 1
    ensures forall j :: 0 <= j < TrailingOnes(w) ==> Bit(w, j)
  {
    if w % 2 == 1 {
      LowestClear(w / 2, n - 1);
      forall j | 0 <= j < TrailingOnes(w) ensures Bit(w, j) {
        assert j == 0 || Bit(w / 2, j - 1);
      }
    }
  }

  /** Bit `off` of the whole bitmap. */
  predicate BitAt(bitmap: seq<u64>, off: nat) {
    off / 64 < |bitmap| && Bit(bitmap[off / 64], off % 64)
  }

  function WithBit(bitmap: seq<u64>, off: nat): seq<u64>
    requires off / 64 < |bitmap|
  {
    WordBound(bitmap[off / 64], off % 64);
    bitmap[off / 64 := SetBit(bitmap[off / 64], off % 64)]
  }

  function WithoutBit(bitmap: seq<u64>, off: nat): seq<u64>
    requires off / 64 < |bitmap|
  {
    WordBound(bitmap[off / 64], off % 64);
    bitmap[off / 64 := ClearBit(bitmap[off / 64], off % 64)]
  }

  lemma WithBitBits(bitmap: seq<u64>, off: nat, o: nat)
    requires off / 64 < |bitmap|
    ensures BitAt(WithBit(bitmap, off), o) <==> o == off || BitAt(bitmap, o)
    ensures BitAt(WithoutBit(bitmap, off), o) <==> o != off && BitAt(bitmap, o)
  {
    SetBitBits(bitmap[off / 64], off % 64, o % 64);
    ClearBitBits(bitmap[off / 64], off % 64, o % 64);
    if o / 64 == off / 64 && o % 64 == off % 64 { assert o == off; }
  }

  lemma WordBound(w: u64, i: nat)
    requires i < 64
    ensures SetBit(w, i) < U64 && ClearBit(w, i) < U64
  {
    PowValues();
    BitBound(w, i, 64);
  }

  /** The whole scan of `allocate`: the first word that is not full, and its lowest clear bit. */
  method FirstClear(bitmap: seq<u64>) returns (off: nat)
    ensures off <= 64 * |bitmap| && !BitAt(bitmap, off)
    ensures forall o: nat :: o < off ==> BitAt(bitmap, o)
  {
    var index := 0;
    PowValues();
    while index < |bitmap| && bitmap[index] == U64 - 1
      invariant 0 <= index <= |bitmap|
      invariant forall o: nat :: o < 64 * index ==> BitAt(bitmap, o)
    {
      LowestClear(U64 - 1, 64);
      index := index + 1;
    }
    if index == |bitmap| {
      return 64 * index;
    }
    LowestClear(bitmap[index], 64);
    off := 64 * index + TrailingOnes(bitmap[index]);
    assert off / 64 == index && off % 64 == TrailingOnes(bitmap[index]);
    forall o: nat | o < off ensures BitAt(bitmap, o) {
      if o >= 64 * index { assert o / 64 == index && o % 64 == o - 64 * index; }
    }
  }

  ghost function Range(base: nat, total: nat): (r: set<nat>)
    ensures |r| == total
    ensures forall b :: b in r <==> base <= b < base + total
  {
    if total == 0 then {} else Range(base, total - 1) + {base + total - 1}
  }

  /** The blocks whose bit is set. */
  ghost function UsedSet(base: nat, total: nat, bitmap: seq<u64>): (used: set<nat>) {
    if total == 0 then {}
    else if BitAt(bitmap, total - 1) then UsedSet(base, total - 1, bitmap) + {base + total - 1}
    else UsedSet(base, total - 1, bitmap)
  }

  lemma {:induction false} UsedMember(base: nat, total: nat, bitmap: seq<u64>, b: nat)
    ensures b in UsedSet(base, total, bitmap) <==> base <= b < base + total && BitAt(bitmap, b - base)
  {
    if total != 0 { UsedMember(base, total - 1, bitmap, b); }
  }

  lemma UsedInRange(base: nat, total: nat, bitmap: seq<u64>)
    ensures UsedSet(base, total, bitmap) <= Range(base, total)
    ensures |UsedSet(base, total, bitmap)| <= total
    ensures |UsedSet(base, total, bitmap)| == total ==> UsedSet(base, total, bitmap) == Range(base, total)
  {
    forall b | b in UsedSet(base, total, bitmap) ensures b in Range(base, total) {
      UsedMember(base, total, bitmap, b);
    }
    Subset(UsedSet(base, total, bitmap), Range(base, total));
  }

  lemma UsedWithBit(base: nat, total: nat, bitmap: seq<u64>, off: nat)
    requires off < total && off / 64 < |bitmap|
    ensures UsedSet(base, total, WithBit(bitmap, off)) == UsedSet(base, total, bitmap) + {base + off}
    ensures UsedSet(base, total, WithoutBit(bitmap, off)) == UsedSet(base, total, bitmap) - {base + off}
  {
    forall b: nat
      ensures b in UsedSet(base, total, WithBit(bitmap, off)) <==> b in UsedSet(base, total, bitmap) + {base + off}
      ensures b in UsedSet(base, total, WithoutBit(bitmap, off)) <==> b in UsedSet(base, total, bitmap) - {base + off}
    {
      UsedMember(base, total, bitmap, b);
      UsedMember(base, total, WithBit(bitmap, off), b);
      UsedMember(base, total, WithoutBit(bitmap, off), b);
      if base <= b { WithBitBits(bitmap, off, b - base); }
    }
  }

  /** The counter counts the blocks in range whose bit is clear, and no bit is set past the end. */
  ghost predicate Counted(base: nat, total: nat, free: nat, bitmap: seq<u64>) {
    && base + total < U64
    && |bitmap| == (total + 63) / 64
    && free == total - |UsedSet(base, total, bitmap)|
    && forall off: nat :: BitAt(bitmap, off) ==> off < total
  }

  lemma CountedWithBit(base: nat, total: nat, free: nat, bitmap: seq<u64>, off: nat)
    requires Counted(base, total, free, bitmap) && off < total && base + off !in UsedSet(base, total, bitmap)
    ensures free > 0 && Counted(base, total, free - 1, WithBit(bitmap, off))
    ensures UsedSet(base, total, WithBit(bitmap, off)) == UsedSet(base, total, bitmap) + {base + off}
  {
    forall o: nat | BitAt(WithBit(bitmap, off), o) ensures o < total { WithBitBits(bitmap, off, o); }
    UsedWithBit(base, total, bitmap, off);
    UsedInRange(base, total, WithBit(bitmap, off));
  }

  lemma CountedWithoutBit(base: nat, total: nat, free: nat, bitmap: seq<u64>, off: nat)
    requires Counted(base, total, free, bitmap) && off < total && base + off in UsedSet(base, total, bitmap)
    ensures Counted(base, total, free + 1, WithoutBit(bitmap, off))
    ensures UsedSet(base, total, WithoutBit(bitmap, off)) == UsedSet(base, total, bitmap) - {base + off}
  {
    forall o: nat | BitAt(WithoutBit(bitmap, off), o) ensures o < total { WithBitBits(bitmap, off, o); }
    UsedWithBit(base, total, bitmap, off);
  }

  lemma HasHole(base: nat, total: nat, free: nat, bitmap: seq<u64>) returns (o: nat)
    requires Counted(base, total, free, bitmap) && free > 0
    ensures o < total && !BitAt(bitmap, o)
  {
    var used := UsedSet(base, total, bitmap);
    var hole :| hole in Range(base, total) && hole !in used by {
      UsedInRange(base, total, bitmap);
      if forall b :: b in Range(base, total) ==> b in used { Subset(Range(base, total), used); }
    }
    UsedMember(base, total, bitmap, hole);
    o := hole - base;
  }

  lemma ClearBitInRange(base: nat, total: nat, free: nat, bitmap: seq<u64>, off: nat)
    requires Counted(base, total, free, bitmap) && free > 0
    requires !BitAt(bitmap, off) && forall o: nat :: o < off ==> BitAt(bitmap, o)
    ensures off < total && base + off !in UsedSet(base, total, bitmap)
    ensures forall b :: base <= b < base + off ==> b in UsedSet(base, total, bitmap)
  {
    var hole := HasHole(base, total, free, bitmap);
    assert off <= hole;
    UsedMember(base, total, bitmap, base + off);
    forall b | base <= b < base + off ensures b in UsedSet(base, total, bitmap) {
      UsedMember(base, total, bitmap, b);
      assert BitAt(bitmap, b - base);
    }
  }

  datatype AllocatorSnapshot = AllocatorSnapshot(base: nat, total: nat, bitmap: seq<u64>, free: nat)

  ghost predicate Saved(s: AllocatorSnapshot) {
    Counted(s.base, s.total, s.free, s.bitmap)
  }

  /** The blocks that were in use. */
  ghost function UsedIn(s: AllocatorSnapshot): set<nat> {
    UsedSet(s.base, s.total, s.bitmap)
  }

  class BlockAllocator {
    var base: nat
    var total: nat
    var free: nat
    var bitmap: seq<u64>

    ghost predicate Valid()
      reads this
    {
      Counted(base, total, free, bitmap)
    }

    /** The blocks whose bit is set. */
    ghost function Used(): set<nat>
      reads this
    {
      UsedSet(base, total, bitmap)
    }

    constructor (base: nat, total: nat)
      requires base + total < U64
      ensures Valid() && Used() == {} && this.base == base && this.total == total
    {
      this.base, this.total, this.free := base, total, total;
      bitmap := seq((total + 63) / 64, i => 0);
      new;
      forall off: nat ensures !BitAt(bitmap, off) { ZeroBits(off % 64); }
      forall b: nat ensures b !in Used() { UsedMember(base, total, bitmap, b); }
      assert Used() == {};
    }

    predicate InRange(block: nat)
      reads this
    {
      base <= block < base + total
    }

    predicate IsAllocated(block: nat)
      reads this
      ensures IsAllocated(block) <==> block in Used()
    {
      UsedMember(base, total, bitmap, block);
      InRange(block) && BitAt(bitmap, block - base)
    }

    method SetAt(off: nat)
      requires Valid() && off < total && base + off !in Used()
      modifies this`bitmap, this`free
      ensures Valid() && Used() == old(Used()) + {base + off} && free == old(free) - 1
    {
      CountedWithBit(base, total, free, bitmap, off);
      bitmap := WithBit(bitmap, off);
      free := free - 1;
    }

    method ClearAt(off: nat)
      requires Valid() && off < total && base + off in Used()
      modifies this`bitmap, this`free
      ensures Valid() && Used() == old(Used()) - {base + off} && free == old(free) + 1
    {
      CountedWithoutBit(base, total, free, bitmap, off);
      bitmap := WithoutBit(bitmap, off);
      free := free + 1;
    }

    /**
     * Takes the lowest block that is not in use, and fails only when every block is in use;
     * the out-of-bounds exit of the word scan is never taken.
     */
    method Allocate() returns (r: Result<u64, AllocError>)
      requires Valid()
      modifies this`bitmap, this`free
      ensures Valid()
      ensures r.Ok? ==> base <= r.value < base + total && r.value !in old(Used())
      ensures r.Ok? ==> forall b :: base <= b < r.value ==> b in old(Used())
      ensures r.Ok? ==> Used() == old(Used()) + {r.value} && free == old(free) - 1
      ensures r.Ok? <==> old(free) > 0
      ensures r.Err? ==> r == Err(NoSpace) && Used() == old(Used()) == Range(base, total)
    {
      if free == 0 {
        UsedInRange(base, total, bitmap);
        return Err(NoSpace);
      }
      var off := FirstClear(bitmap);
      ClearBitInRange(base, total, free, bitmap, off);
      if base + off >= base + total {
        return Err(AllocError.OutOfBounds);
      }
      SetAt(off);
      return Ok(base + off);
    }

    method Free(block: nat) returns (r: Result<(), AllocError>)
      requires Valid()
      modifies this`bitmap, this`free
      ensures Valid() && Used() == old(Used()) - {block}
      ensures r == if !InRange(block) then Err(AllocError.OutOfBounds)
                   else if block !in old(Used()) then Err(NotAllocated) else Ok(())
    {
      UsedMember(base, total, bitmap, block);
      if !InRange(block) {
        return Err(AllocError.OutOfBounds);
      }
      if !BitAt(bitmap, block - base) {
        return Err(NotAllocated);
      }
      ClearAt(block - base);
      return Ok(());
    }

    method MarkUsed(block: nat) returns (r: Result<(), AllocError>)
      requires Valid()
      modifies this`bitmap, this`free
      ensures Valid() && Used() == (if r.Ok? then old(Used()) + {block} else old(Used()))
      ensures r == if !InRange(block) then Err(AllocError.OutOfBounds)
                   else if block in old(Used()) then Err(DoubleAlloc) else Ok(())
    {
      UsedMember(base, total, bitmap, block);
      if !InRange(block) {
        return Err(AllocError.OutOfBounds);
      }
      if BitAt(bitmap, block - base) {
        return Err(DoubleAlloc);
      }
      SetAt(block - base);
      return Ok(());
    }

    method MarkUsedIdempotent(block: nat) returns (r: Result<(), AllocError>)
      requires Valid()
      modifies this`bitmap, this`free
      ensures Valid() && Used() == (if InRange(block) then old(Used()) + {block} else old(Used()))
      ensures r == if InRange(block) then Ok(()) else Err(AllocError.OutOfBounds)
    {
      UsedMember(base, total, bitmap, block);
      if !InRange(block) {
        return Err(AllocError.OutOfBounds);
      }
      if !BitAt(bitmap, block - base) {
        r := MarkUsed(block);
      } else {
        r := Ok(());
      }
    }

    function Snapshot(): AllocatorSnapshot
      reads this
    {
      AllocatorSnapshot(base, total, bitmap, free)
    }

    /** Puts everything back as it was saved. */
    method Restore(s: AllocatorSnapshot)
      requires Saved(s)
      modifies this
      ensures Valid() && Snapshot() == s && Used() == UsedIn(s)
    {
      base, total, bitmap, free := s.base, s.total, s.bitmap, s.free;
    }
  }

  lemma {:induction false} SameBits(x: nat, y: nat, n: nat)
    requires x < Pow2(n) && y < Pow2(n) && forall i: nat :: i < n ==> Bit(x, i) == Bit(y, i)
    ensures x == y
    decreases n
  {
    if n > 0 {
      forall i: nat | i < n - 1 ensures Bit(x / 2, i) == Bit(y / 2, i) {
        assert Bit(x, i + 1) == Bit(y, i + 1);
      }
      SameBits(x / 2, y / 2, n - 1);
      assert Bit(x, 0) == Bit(y, 0);
    }
  }

  lemma SameBit(base: nat, total: nat, bitmap: seq<u64>, bitmap': seq<u64>, k: nat, i: nat, off: nat)
    requires |bitmap| == |bitmap'| && k < |bitmap| && i < 64 && off == 64 * k + i
    requires BitAt(bitmap, off) ==> off < total
    requires BitAt(bitmap', off) ==> off < total
    requires UsedSet(base, total, bitmap) == UsedSet(base, total, bitmap')
    ensures Bit(bitmap[k], i) == Bit(bitmap'[k], i)
  {
    assert off / 64 == k && off % 64 == i;
    UsedMember(base, total, bitmap, base + off);
    UsedMember(base, total, bitmap', base + off);
  }

  /** The set of blocks in use determines the bitmap and the counter. */
  lemma SameBitmap(base: nat, total: nat, free: nat, bitmap: seq<u64>, free': nat, bitmap': seq<u64>)
    requires Counted(base, total, free, bitmap) && Counted(base, total, free', bitmap')
    requires UsedSet(base, total, bitmap) == UsedSet(base, total, bitmap')
    ensures free == free' && bitmap == bitmap'
  {
    forall k | 0 <= k < |bitmap| ensures bitmap[k] == bitmap'[k] {
      forall i: nat | i < 64 ensures Bit(bitmap[k], i) == Bit(bitmap'[k], i) {
        SameBit(base, total, bitmap, bitmap', k, i, 64 * k + i);
      }
      SameWord(bitmap[k], bitmap'[k]);
    }
  }

  lemma SameWord(x: u64, y: u64)
    requires forall i: nat :: i < 64 ==> Bit(x, i) == Bit(y, i)
    ensures x == y
  {
    PowValues();
    SameBits(x, y, 64);
  }

  lemma ZeroBits(i: nat)
    ensures !Bit(0, i)
  {}
}

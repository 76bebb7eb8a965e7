/**
 * The CRC-32 of `libs/zfs-core/src/crc.rs`, and the changes it is sure to detect.
 * A `u32` is a natural number below 2^32; exclusive or is defined bit by bit on naturals.
 */
module Crc {

  import opened Common

  const POLY: nat := 0xEDB8_8320
  const ONES: nat := 0xFFFF_FFFF

  function Xor(a: nat, b: nat): nat {
    if a == 0 then b
    else 2 * Xor(a / 2, b / 2) + (if a % 2 == b % 2 then 0 else 1)
  }

  /** One step of the polynomial division: shift right, fold the polynomial in if a one fell out. */
  function Shift(crc: nat): nat {
    if crc % 2 == 1 then Xor(crc / 2, POLY) else crc / 2
  }

  function Shifts(crc: nat, n: nat): nat {
    if n == 0 then crc else Shift(Shifts(crc, n - 1))
  }

  /** The accumulator after consuming `data` from its initial value. */
  function Feed(data: seq<byte>): (crc: nat)
    decreases |data|
  {
    if data == [] then ONES
    else Shifts(Xor(Feed(data[..|data| - 1]), data[|data| - 1]), 8)
  }

  function Crc32(data: seq<byte>): (crc: word) {
    FeedBound(data);
    XorWord(Feed(data), ONES);
    Xor(Feed(data), ONES)
  }

  method ComputeCrc32(data: seq<byte>) returns (crc: word)
    ensures crc == Crc32(data)
  {
    crc := ONES;
    var i := 0;
    while i < |data|
      invariant 0 <= i <= |data|
      invariant crc == Feed(data[..i])
    {
      assert data[..i + 1][..i] == data[..i];
      FeedBound(data[..i + 1]);
      crc := EightSteps(Xor(crc, data[i]));
      i := i + 1;
    }
    assert data[..i] == data;
    FeedBound(data);
    XorWord(crc, ONES);
    crc := Xor(crc, ONES);
  }

  method EightSteps(start: nat) returns (crc: nat)
    ensures crc == Shifts(start, 8)
  {
    crc := start;
    var k := 0;
    while k < 8
      invariant 0 <= k <= 8
      invariant crc == Shifts(start, k)
    {
      crc := Xor(crc / 2, if crc % 2 == 1 then POLY else 0);
      XorZero(Shifts(start, k) / 2);
      k := k + 1;
    }
  }

  // ---- Exclusive or ----

  lemma {:induction false} XorBound(a: nat, b: nat, n: nat)
    requires a < Pow2(n) && b < Pow2(n)
    ensures Xor(a, b) < Pow2(n)
  {
    if a != 0 { XorBound(a / 2, b / 2, n - 1); }
  }

  lemma {:induction false} XorSelf(a: nat)
    ensures Xor(a, a) == 0
  {
    if a != 0 { XorSelf(a / 2); }
  }

  lemma {:induction false} XorComm(a: nat, b: nat)
    ensures Xor(a, b) == Xor(b, a)
  {
    if a != 0 && b != 0 { XorComm(a / 2, b / 2); }
    else if a != 0 { XorZero(a); }
    else if b != 0 { XorZero(b); }
  }

  lemma {:induction false} XorZero(a: nat)
    ensures Xor(a, 0) == a
  {
    if a != 0 { XorZero(a / 2); }
  }

  lemma {:induction false} XorHalf(a: nat, b: nat)
    ensures Xor(a, b) / 2 == Xor(a / 2, b / 2)
    ensures Xor(a, b) % 2 == (if a % 2 == b % 2 then 0 else 1)
  {
    if a != 0 {
      HalfOf(Xor(a, b), Xor(a / 2, b / 2), if a % 2 == b % 2 then 0 else 1);
    }
  }

  lemma {:induction false} XorAssoc(a: nat, b: nat, c: nat)
    ensures Xor(Xor(a, b), c) == Xor(a, Xor(b, c))
    decreases a + b + c
  {
    if a + b + c != 0 {
      XorAssoc(a / 2, b / 2, c / 2);
      XorHalf(a, b);
      XorHalf(b, c);
      XorHalf(Xor(a, b), c);
      XorHalf(a, Xor(b, c));
    }
  }

  lemma XorSwap(a: nat, b: nat, p: nat, q: nat)
    ensures Xor(Xor(a, p), Xor(b, q)) == Xor(Xor(a, b), Xor(p, q))
  {
    calc {
      Xor(Xor(a, p), Xor(b, q));
      { XorAssoc(a, p, Xor(b, q)); XorAssoc(p, b, q); }
      Xor(a, Xor(Xor(p, b), q));
      { XorComm(p, b); XorAssoc(b, p, q); }
      Xor(a, Xor(b, Xor(p, q)));
      { XorAssoc(a, b, Xor(p, q)); }
      Xor(Xor(a, b), Xor(p, q));
    }
  }

  lemma XorCancel(a: nat, b: nat, c: nat)
    requires Xor(a, c) == Xor(b, c)
    ensures a == b
  {
    XorAssoc(a, c, c);
    XorAssoc(b, c, c);
    XorSelf(c);
    XorZero(a);
    XorZero(b);
  }

  lemma XorEmpty(a: nat, b: nat)
    requires Xor(a, b) == 0
    ensures a == b
  {
    XorSelf(b);
    XorCancel(a, b, b);
  }

  /** The top bit survives when only one operand has it. */
  lemma {:induction false} XorTop(a: nat, b: nat, n: nat)
    requires a < Pow2(n) <= b
    ensures Pow2(n) <= Xor(a, b)
  {
    if a != 0 { XorTop(a / 2, b / 2, n - 1); }
  }

  // ---- The step is linear, and shifts back out of clear top bits ----

  const TOP: nat := 0x8000_0000
  const FULL: nat := 0x1_0000_0000

  lemma XorWord(a: nat, b: nat)
    requires a < FULL && b < FULL
    ensures Xor(a, b) < FULL
  {
    PowValues();
    XorBound(a, b, 32);
  }

  lemma {:induction false} ShiftsBound(x: nat, n: nat)
    requires x < FULL
    ensures Shifts(x, n) < FULL
  {
    if n != 0 {
      ShiftsBound(x, n - 1);
      XorWord(Shifts(x, n - 1) / 2, POLY);
    }
  }

  lemma {:induction false} FeedBound(data: seq<byte>)
    ensures Feed(data) < FULL
    decreases |data|
  {
    if data != [] {
      var front, b := data[..|data| - 1], data[|data| - 1];
      FeedBound(front);
      XorWord(Feed(front), b);
      ShiftsBound(Xor(Feed(front), b), 8);
    }
  }

  lemma ShiftLinear(x: nat, y: nat)
    ensures Shift(Xor(x, y)) == Xor(Shift(x), Shift(y))
  {
    var a, b := x / 2, y / 2;
    XorHalf(x, y);
    XorSwap(a, b, POLY, POLY);
    XorSelf(POLY);
    XorZero(Xor(a, b));
    XorAssoc(a, b, POLY);
    XorSwap(a, b, POLY, 0);
    XorZero(b);
    XorZero(POLY);
  }

  lemma {:induction false} ShiftsLinear(x: nat, y: nat, n: nat)
    ensures Shifts(Xor(x, y), n) == Xor(Shifts(x, n), Shifts(y, n))
  {
    if n != 0 {
      ShiftsLinear(x, y, n - 1);
      ShiftLinear(Shifts(x, n - 1), Shifts(y, n - 1));
    }
  }

  /** A step whose result has a clear top bit did not fold the polynomial in. */
  lemma ShiftBack(x: nat)
    requires x < FULL && Shift(x) < TOP
    ensures x == 2 * Shift(x)
  {
    PowValues();
    if x % 2 == 1 { XorTop(x / 2, POLY, 31); }
  }

  /** `n` steps whose result stays below `bound`, with room to double `n` times, only shifted. */
  lemma {:induction false} ShiftsBack(x: nat, n: nat, bound: nat)
    requires x < FULL && Shifts(x, n) < bound && bound * Pow2(n) <= FULL
    ensures x == Shifts(x, n) * Pow2(n)
  {
    if n != 0 {
      var y, p := Shifts(x, n - 1), Pow2(n - 1);
      assert Shifts(x, n) == Shift(y);
      ShiftsBound(x, n - 1);
      assert bound <= TOP by { Halve(bound, p); }
      ShiftBack(y);
      Rearrange(bound, p, y, Shift(y));
      ShiftsBack(x, n - 1, 2 * bound);
    }
  }

  lemma Halve(bound: nat, p: nat)
    requires bound * (2 * p) <= FULL && p >= 1
    ensures bound <= TOP
  {
    assert bound * (2 * p) == 2 * bound * p >= 2 * bound;
  }

  lemma Rearrange(bound: nat, p: nat, y: nat, s: nat)
    requires y == 2 * s
    ensures (2 * bound) * p == bound * (2 * p) && y * p == s * (2 * p)
  {}

  lemma ByteUndone(d: nat, w: nat, r: nat)
    requires d < FULL && w < 256 && r < 0x100_0000 && r == Shifts(Xor(d, w), 8)
    ensures Xor(d, w) == 256 * r
  {
    XorWord(d, w);
    PowValues();
    ShiftsBack(Xor(d, w), 8, 0x100_0000);
  }

  // ---- Burst detection ----

  /** The bound on a difference confined to its `k` low bytes. */
  ghost function Low(k: nat): nat {
    if k == 0 then 1
    else if k == 1 then 0x100
    else if k == 2 then 0x1_0000
    else if k == 3 then 0x100_0000
    else FULL
  }

  lemma LowByte(d: nat, w: nat, r: nat, k: nat)
    requires w < 256 && k <= 3 && r < Low(k) && Xor(d, w) == 256 * r
    ensures d < Low(k + 1)
    ensures d == 0 ==> w == 0 && r == 0
  {
    assert d == Xor(256 * r, w) by {
      XorAssoc(d, w, w);
      XorSelf(w);
      XorZero(d);
    }
    LowIsPower(k + 1);
    XorBound(256 * r, w, 8 * (k + 1));
  }

  lemma LowIsPower(k: nat)
    requires k <= 4
    ensures Low(k) == Pow2(8 * k)
  {
    PowValues();
    if k == 0 {} else if k == 1 {} else if k == 2 {} else if k == 3 {} else {}
  }

  /** The difference of the two accumulators after `n` bytes. */
  ghost function Diff(a: seq<byte>, b: seq<byte>, n: nat): nat
    requires n <= |a| && n <= |b|
  {
    Xor(Feed(a[..n]), Feed(b[..n]))
  }

  lemma DiffStep(a: seq<byte>, b: seq<byte>, n: nat)
    requires n < |a| && n < |b|
    ensures Diff(a, b, n + 1) == Shifts(Xor(Diff(a, b, n), Xor(a[n], b[n])), 8)
  {
    assert a[..n + 1][..n] == a[..n] && b[..n + 1][..n] == b[..n];
    ShiftsLinear(Xor(Feed(a[..n]), a[n]), Xor(Feed(b[..n]), b[n]), 8);
    XorSwap(Feed(a[..n]), Feed(b[..n]), a[n], b[n]);
  }

  lemma DiffBound(a: seq<byte>, b: seq<byte>, n: nat)
    requires n <= |a| && n <= |b|
    ensures Diff(a, b, n) < FULL
  {
    FeedBound(a[..n]);
    FeedBound(b[..n]);
    XorWord(Feed(a[..n]), Feed(b[..n]));
  }

  /** One byte read backwards: a difference of `k` low bytes after it is one of `k + 1` before it. */
  lemma DiffBack(a: seq<byte>, b: seq<byte>, n: nat, k: nat)
    requires n < |a| && n < |b| && k <= 3 && Diff(a, b, n + 1) < Low(k)
    ensures Diff(a, b, n) < Low(k + 1)
    ensures Diff(a, b, n) == 0 ==> a[n] == b[n] && Diff(a, b, n + 1) == 0
  {
    var d, w := Diff(a, b, n), Xor(a[n], b[n]);
    DiffStep(a, b, n);
    DiffBound(a, b, n);
    assert w < 256 by {
      PowValues();
      XorBound(a[n], b[n], 8);
    }
    ByteUndone(d, w, Diff(a, b, n + 1));
    LowByte(d, w, Diff(a, b, n + 1), k);
    if d == 0 { XorEmpty(a[n], b[n]); }
  }

  lemma {:induction false} DiffZeroAfter(a: seq<byte>, b: seq<byte>, n: nat)
    requires n <= |a| == |b| && a[n..] == b[n..] && Diff(a, b, |a|) == 0
    ensures Diff(a, b, n) == 0
    decreases |a| - n
  {
    if n < |a| {
      assert a[n] == a[n..][0] && b[n] == b[n..][0];
      assert a[n + 1..] == a[n..][1..] && b[n + 1..] == b[n..][1..];
      DiffZeroAfter(a, b, n + 1);
      DiffStep(a, b, n);
      XorSelf(a[n]);
      XorZero(Diff(a, b, n));
      DiffBound(a, b, n);
      ByteUndone(Diff(a, b, n), Xor(a[n], b[n]), 0);
    }
  }

  lemma {:induction false} WindowFits(a: seq<byte>, b: seq<byte>, n: nat, e: nat)
    requires n <= e <= n + 4 && e <= |a| == |b| && Diff(a, b, e) == 0
    ensures Diff(a, b, n) < Low(e - n)
    decreases e - n
  {
    if n < e {
      WindowFits(a, b, n + 1, e);
      DiffBack(a, b, n, e - n - 1);
    }
  }

  lemma {:induction false} WindowEqual(a: seq<byte>, b: seq<byte>, n: nat, e: nat)
    requires n <= e <= n + 4 && e <= |a| == |b| && Diff(a, b, e) == 0 && Diff(a, b, n) == 0
    ensures a[n..e] == b[n..e]
    decreases e - n
  {
    if n < e {
      WindowFits(a, b, n + 1, e);
      DiffBack(a, b, n, e - n - 1);
      WindowEqual(a, b, n + 1, e);
      assert a[n..e] == [a[n]] + a[n + 1..e] && b[n..e] == [b[n]] + b[n + 1..e];
    }
  }

  lemma ThreeParts(a: seq<byte>, n: nat, e: nat)
    requires n <= e <= |a|
    ensures a == a[..n] + a[n..e] + a[e..]
  {}

  /**
   * Two inputs of equal length that agree outside four consecutive bytes have equal
   * checksums exactly when they are the same input.
   */
  lemma BurstDetected(a: seq<byte>, b: seq<byte>, i: nat)
    requires |a| == |b|
    requires forall k :: 0 <= k < |a| && !(i <= k < i + 4) ==> a[k] == b[k]
    ensures Crc32(a) == Crc32(b) <==> a == b
  {
    if Crc32(a) == Crc32(b) {
      var n := if i <= |a| then i else |a|;
      var e := if i + 4 <= |a| then i + 4 else |a|;
      assert a[..|a|] == a && b[..|b|] == b && a[..n] == b[..n];
      XorCancel(Feed(a), Feed(b), ONES);
      XorSelf(Feed(a));
      XorSelf(Feed(a[..n]));
      DiffZeroAfter(a, b, e);
      WindowEqual(a, b, n, e);
      ThreeParts(a, n, e);
      ThreeParts(b, n, e);
    }
  }
}

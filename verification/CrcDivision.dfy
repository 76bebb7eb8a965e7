/**
 * The CRC-32 as what IEEE 802.3 defines: the remainder of a division of polynomials over the field of two elements.
 * A polynomial is a natural number, bit `i` the coefficient of the `i`-th power; adding is exclusive or.
 */
module CrcDivision {
  import opened Common
  import opened Crc

  /** x^32 + x^26 + x^23 + x^22 + x^16 + x^12 + x^11 + x^10 + x^8 + x^7 + x^5 + x^4 + x^2 + x + 1 */
  const GENERATOR: nat := 0x1_04C1_1DB7

  /** The product of `q` and the generator. */
  function Times(q: nat): nat {
    if q == 0 then 0 else Xor(2 * Times(q / 2), if q % 2 == 1 then GENERATOR else 0)
  }

  ghost predicate Divides(p: nat) {
    exists q: nat :: Times(q) == p
  }

  /** The product of `a` and the `n`-th power. */
  function Up(a: nat, n: nat): nat {
    if n == 0 then a else 2 * Up(a, n - 1)
  }

  /** The `n` low bits of `a`, in the opposite order. */
  function Mirror(a: nat, n: nat): nat {
    if n == 0 then 0 else (if a % 2 == 1 then Pow2(n - 1) else 0) + Mirror(a / 2, n - 1)
  }

  /** The bits of the data in the order they are sent: byte after byte, the low bit first. */
  function Message(data: seq<byte>): nat
    decreases |data|
  {
    if data == [] then 0 else Up(Message(data[..|data| - 1]), 8) + Mirror(data[|data| - 1], 8)
  }

  /** The message followed by 32 zeros, with the first 32 bits of that inverted. */
  function Dividend(data: seq<byte>): nat {
    Xor(Up(Message(data), 32), Up(ONES, 8 * |data|))
  }

  // ---- Exclusive or and powers ----

  lemma XorDouble(a: nat, b: nat)
    ensures Xor(2 * a, 2 * b) == 2 * Xor(a, b)
  {
    XorHalf(2 * a, 2 * b);
    XorZero(2 * a);
    XorZero(a);
  }

  lemma {:induction false} UpAdds(a: nat, b: nat, n: nat)
    ensures Xor(Up(a, n), Up(b, n)) == Up(Xor(a, b), n)
  {
    if n != 0 {
      UpAdds(a, b, n - 1);
      XorDouble(Up(a, n - 1), Up(b, n - 1));
    }
  }

  lemma {:induction false} UpUp(a: nat, m: nat, n: nat)
    ensures Up(Up(a, m), n) == Up(a, m + n)
  {
    if n != 0 { UpUp(a, m, n - 1); }
  }

  lemma {:induction false} UpOne(n: nat)
    ensures Up(1, n) == Pow2(n) && Up(0, n) == 0
  {
    if n != 0 { UpOne(n - 1); }
  }

  /** Adding below the lowest bit in use. */
  lemma {:induction false} UpBelow(a: nat, b: nat, n: nat)
    requires b < Pow2(n)
    ensures Xor(Up(a, n), b) == Up(a, n) + b
  {
    if n == 0 {
      XorZero(a);
    } else {
      UpBelow(a, b / 2, n - 1);
      XorHalf(2 * Up(a, n - 1), b);
    }
  }

  // ---- Divisibility ----

  lemma {:induction false} TimesAdds(p: nat, q: nat)
    ensures Xor(Times(p), Times(q)) == Times(Xor(p, q))
    decreases p + q
  {
    if p + q == 0 {
    } else {
      TimesAdds(p / 2, q / 2);
      XorHalf(p, q);
      TimesStep(p);
      TimesStep(q);
      TimesStep(Xor(p, q));
      var i, j := if p % 2 == 1 then GENERATOR else 0, if q % 2 == 1 then GENERATOR else 0;
      XorSwap(2 * Times(p / 2), 2 * Times(q / 2), i, j);
      XorDouble(Times(p / 2), Times(q / 2));
      XorSelf(GENERATOR);
      XorZero(GENERATOR);
    }
  }

  lemma TimesStep(q: nat)
    ensures Times(q) == Xor(2 * Times(q / 2), if q % 2 == 1 then GENERATOR else 0)
  {}

  lemma DividesSum(a: nat, b: nat)
    requires Divides(a) && Divides(b)
    ensures Divides(Xor(a, b))
  {
    var p: nat :| Times(p) == a;
    var q: nat :| Times(q) == b;
    TimesAdds(p, q);
  }

  lemma DividesDouble(a: nat)
    requires Divides(a)
    ensures Divides(2 * a)
  {
    var q: nat :| Times(q) == a;
    TimesStep(2 * q);
    XorZero(2 * a);
    assert Times(2 * q) == 2 * a;
  }

  lemma DividesSelf()
    ensures Divides(0) && Divides(GENERATOR)
  {
    assert Times(0) == 0;
    TimesStep(1);
    assert Times(1) == GENERATOR;
  }

  /** A multiple of the generator is zero or has a power of 32 or more. */
  lemma {:induction false} TimesLarge(q: nat)
    requires q != 0
    ensures Times(q) >= FULL
  {
    TimesStep(q);
    if q == 1 {
      assert Times(0) == 0;
    } else {
      TimesLarge(q / 2);
      var t, g := 2 * Times(q / 2), if q % 2 == 1 then GENERATOR else 0;
      PowValues();
      assert Pow2(33) == 2 * Pow2(32);
      XorTop(g, t, 33);
      XorComm(g, t);
    }
  }

  lemma {:induction false} DividesUp(a: nat, n: nat)
    requires Divides(a)
    ensures Divides(Up(a, n))
  {
    if n != 0 {
      DividesUp(a, n - 1);
      DividesDouble(Up(a, n - 1));
    }
  }

  // ---- The register is a polynomial, read from its low end ----

  lemma {:induction false} MirrorBound(a: nat, n: nat)
    ensures Mirror(a, n) < Pow2(n)
  {
    if n != 0 { MirrorBound(a / 2, n - 1); }
  }

  /** Each zero bit above makes room below. */
  lemma {:induction false} MirrorRoom(a: nat, n: nat)
    requires a < Pow2(n)
    ensures Mirror(a, n + 1) == 2 * Mirror(a, n)
  {
    if n != 0 { MirrorRoom(a / 2, n - 1); }
  }

  lemma {:induction false} MirrorRooms(a: nat, n: nat, m: nat)
    requires a < Pow2(n)
    ensures Mirror(a, n + m) == Up(Mirror(a, n), m) && a < Pow2(n + m)
  {
    if m != 0 {
      MirrorRooms(a, n, m - 1);
      MirrorRoom(a, n + m - 1);
    }
  }

  function Top(i: nat, n: nat): nat {
    if i % 2 == 1 then Pow2(n) else 0
  }

  function Parted(i: nat, j: nat): nat {
    if i == j then 0 else 1
  }

  lemma TopBit(i: nat, j: nat, x: nat, y: nat, n: nat)
    requires i < 2 && j < 2 && x < Pow2(n) && y < Pow2(n)
    ensures Xor(Top(i, n) + x, Top(j, n) + y) == Top(Parted(i, j), n) + Xor(x, y)
  {
    TopUp(i, n);
    TopUp(j, n);
    UpBelow(i, x, n);
    UpBelow(j, y, n);
    XorSwap(Up(i, n), Up(j, n), x, y);
    UpAdds(i, j, n);
    XorBound(x, y, n);
    XorBits(i, j);
    UpBelow(Parted(i, j), Xor(x, y), n);
    TopUp(Parted(i, j), n);
  }

  lemma XorBits(i: nat, j: nat)
    requires i < 2 && j < 2
    ensures Xor(i, j) == Parted(i, j)
  {
    XorZero(i);
  }

  lemma TopUp(i: nat, n: nat)
    requires i < 2
    ensures Top(i, n) == Up(i, n)
  {
    UpOne(n);
  }

  lemma {:induction false} MirrorAdds(a: nat, b: nat, n: nat)
    ensures Mirror(Xor(a, b), n) == Xor(Mirror(a, n), Mirror(b, n))
  {
    if n != 0 {
      var x, y := Mirror(a / 2, n - 1), Mirror(b / 2, n - 1);
      MirrorAdds(a / 2, b / 2, n - 1);
      MirrorBound(a / 2, n - 1);
      MirrorBound(b / 2, n - 1);
      TopBit(a % 2, b % 2, x, y, n - 1);
      XorHalf(a, b);
      MirrorStep(a, n);
      MirrorStep(b, n);
      MirrorStep(Xor(a, b), n);
    }
  }

  lemma MirrorStep(a: nat, n: nat)
    requires n != 0
    ensures Mirror(a, n) == Top(a % 2, n - 1) + Mirror(a / 2, n - 1)
  {}

  lemma MirrorBit(h: nat, b: nat, n: nat)
    requires b < 2
    ensures Mirror(2 * h + b, n + 1) == (if b == 1 then Pow2(n) else 0) + Mirror(h, n)
  {
    assert (2 * h + b) / 2 == h && (2 * h + b) % 2 == b;
  }

  lemma NibblePowers()
    ensures Pow2(4) == 0x10 && Pow2(8) == 0x100 && Pow2(12) == 0x1000 && Pow2(16) == 0x1_0000
    ensures Pow2(20) == 0x10_0000 && Pow2(24) == 0x100_0000 && Pow2(28) == 0x1000_0000
  {
    PowSum(12, 8);
    PowSum(24, 4);
    PowValues();
  }

  /** Four bits more at the low end, `b0` the lowest, and what becomes of the mirror image `m`. */
  lemma NextNibble(h: nat, b3: nat, b2: nat, b1: nat, b0: nat, n: nat, p: nat, m: nat, a: nat)
    requires b3 < 2 && b2 < 2 && b1 < 2 && b0 < 2 && Mirror(h, n) == m && Pow2(n) == p
    requires a == 16 * h + 8 * b3 + 4 * b2 + 2 * b1 + b0
    ensures Mirror(a, n + 4) == (if b0 == 1 then 8 * p else 0) + (if b1 == 1 then 4 * p else 0)
                                + (if b2 == 1 then 2 * p else 0) + (if b3 == 1 then p else 0) + m
  {
    var h1 := 2 * h + b3;
    var h2 := 2 * h1 + b2;
    var h3 := 2 * h2 + b1;
    MirrorBit(h, b3, n);
    MirrorBit(h1, b2, n + 1);
    MirrorBit(h2, b1, n + 2);
    MirrorBit(h3, b0, n + 3);
    assert Pow2(n + 1) == 2 * p;
    assert Pow2(n + 2) == 4 * p;
    assert Pow2(n + 3) == 8 * p;
    assert a == 2 * h3 + b0;
  }

  lemma MirrorUpper(h: nat)
    requires h == 0xEDB8
    ensures Mirror(h, 16) == 0x1DB7
  {
    NibblePowers();
    NextNibble(0, 1, 1, 1, 0, 0, 1, 0, h / 0x1000);
    NextNibble(h / 0x1000, 1, 1, 0, 1, 4, 0x10, 0x7, h / 0x100);
    NextNibble(h / 0x100, 1, 0, 1, 1, 8, 0x100, 0xB7, h / 0x10);
    NextNibble(h / 0x10, 1, 0, 0, 0, 12, 0x1000, 0xDB7, h);
  }

  /** The code's polynomial is the generator without its highest power, mirrored. */
  lemma MirrorPoly()
    ensures Mirror(POLY, 32) == GENERATOR - FULL
  {
    NibblePowers();
    MirrorUpper(POLY / 0x1_0000);
    NextNibble(POLY / 0x1_0000, 1, 0, 0, 0, 16, 0x1_0000, 0x1DB7, POLY / 0x1000);
    NextNibble(POLY / 0x1000, 0, 0, 1, 1, 20, 0x10_0000, 0x1_1DB7, POLY / 0x100);
    NextNibble(POLY / 0x100, 0, 0, 1, 0, 24, 0x100_0000, 0xC1_1DB7, POLY / 0x10);
    NextNibble(POLY / 0x10, 0, 0, 0, 0, 28, 0x1000_0000, 0x4C1_1DB7, POLY);
  }

  // ---- The theorem ----

  /** The register as a polynomial. */
  function Held(crc: nat): nat {
    Mirror(crc, 32)
  }

  /** One step multiplies by the first power, and takes the generator off if the 32nd power comes up. */
  lemma ShiftIsTimesX(crc: nat)
    requires crc < FULL
    ensures Held(Shift(crc)) == Xor(2 * Held(crc), if crc % 2 == 1 then GENERATOR else 0)
  {
    PowValues();
    var m := Mirror(crc / 2, 31);
    MirrorRoom(crc / 2, 31);
    if crc % 2 == 1 {
      MirrorAdds(crc / 2, POLY, 32);
      MirrorPoly();
      MirrorBound(crc / 2, 31);
      HighCancels(2 * m, GENERATOR - FULL);
    } else {
      XorZero(2 * m);
    }
  }

  lemma HighCancels(a: nat, b: nat)
    requires a < FULL && b < FULL
    ensures Xor(FULL + a, FULL + b) == Xor(a, b)
  {
    PowValues();
    TopBit(1, 1, a, b, 32);
  }

  /** Two polynomials that leave the same remainder. */
  ghost predicate Congruent(a: nat, b: nat) {
    Divides(Xor(a, b))
  }

  lemma CongruentTrans(a: nat, b: nat, c: nat)
    requires Congruent(a, b) && Congruent(b, c)
    ensures Congruent(a, c)
  {
    DividesSum(Xor(a, b), Xor(b, c));
    XorAssoc(a, b, Xor(b, c));
    XorAssoc(b, b, c);
    XorSelf(b);
  }

  lemma CongruentDouble(a: nat, b: nat)
    requires Congruent(a, b)
    ensures Congruent(2 * a, 2 * b)
  {
    DividesDouble(Xor(a, b));
    XorDouble(a, b);
  }

  lemma ShiftCongruent(crc: nat)
    requires crc < FULL
    ensures Congruent(Held(Shift(crc)), 2 * Held(crc))
  {
    ShiftIsTimesX(crc);
    var t, g := 2 * Held(crc), if crc % 2 == 1 then GENERATOR else 0;
    XorComm(t, g);
    XorAssoc(g, t, t);
    XorSelf(t);
    XorZero(g);
    DividesSelf();
  }

  lemma {:induction false} ShiftsCongruent(crc: nat, n: nat)
    requires crc < FULL
    ensures Congruent(Held(Shifts(crc, n)), Up(Held(crc), n))
  {
    if n == 0 {
      XorSelf(Held(crc));
      DividesSelf();
    } else {
      var before := Shifts(crc, n - 1);
      ShiftsCongruent(crc, n - 1);
      ShiftsBound(crc, n - 1);
      ShiftCongruent(before);
      CongruentDouble(Held(before), Up(Held(crc), n - 1));
      CongruentTrans(Held(Shift(before)), 2 * Held(before), Up(Held(crc), n));
    }
  }

  lemma HeldByte(b: byte)
    ensures Held(b) == Up(Mirror(b, 8), 24)
  {
    PowValues();
    MirrorRooms(b, 8, 24);
  }

  lemma MessageNext(front: seq<byte>, b: byte)
    ensures Up(Message(front + [b]), 32) == Xor(Up(Up(Message(front), 32), 8), Up(Mirror(b, 8), 32))
  {
    assert (front + [b])[..|front|] == front;
    var m, w := Message(front), Mirror(b, 8);
    MirrorBound(b, 8);
    UpBelow(m, w, 8);
    UpAdds(Up(m, 8), w, 32);
    UpUp(m, 8, 32);
    UpUp(m, 32, 8);
  }

  /** What one more byte does to the dividend. */
  lemma DividendNext(front: seq<byte>, b: byte)
    ensures Dividend(front + [b]) == Xor(Up(Dividend(front), 8), Up(Mirror(b, 8), 32))
  {
    var m, ones, w := Up(Message(front), 32), Up(ONES, 8 * |front|), Up(Mirror(b, 8), 32);
    MessageNext(front, b);
    UpUp(ONES, 8 * |front|, 8);
    UpAdds(m, ones, 8);
    XorSwap(Up(m, 8), Up(ones, 8), w, 0);
    XorZero(Up(ones, 8));
    XorZero(w);
  }

  lemma ByteCongruent(crc: nat, b: byte)
    requires crc < FULL
    ensures Congruent(Held(Shifts(Xor(crc, b), 8)), Xor(Up(Held(crc), 8), Up(Mirror(b, 8), 32)))
  {
    XorWord(crc, b);
    ShiftsCongruent(Xor(crc, b), 8);
    MirrorAdds(crc, b, 32);
    HeldByte(b);
    UpAdds(Held(crc), Held(b), 8);
    UpUp(Mirror(b, 8), 24, 8);
  }

  lemma CongruentUp(a: nat, b: nat, n: nat)
    requires Congruent(a, b)
    ensures Congruent(Up(a, n), Up(b, n))
  {
    DividesUp(Xor(a, b), n);
    UpAdds(a, b, n);
  }

  lemma CongruentPlus(a: nat, b: nat, c: nat)
    requires Congruent(a, b)
    ensures Congruent(Xor(a, c), Xor(b, c))
  {
    XorSwap(a, b, c, c);
    XorSelf(c);
    XorZero(Xor(a, b));
  }

  /** The register is the dividend so far, up to a multiple of the generator. */
  lemma {:induction false} FeedCongruent(data: seq<byte>)
    ensures Congruent(Held(Feed(data)), Dividend(data))
    decreases |data|
  {
    if data == [] {
      MirrorOnes();
      UpOne(32);
      XorSelf(ONES);
      DividesSelf();
    } else {
      var front, b := data[..|data| - 1], data[|data| - 1];
      assert data == front + [b];
      var w := Up(Mirror(b, 8), 32);
      FeedCongruent(front);
      FeedBound(front);
      ByteCongruent(Feed(front), b);
      CongruentUp(Held(Feed(front)), Dividend(front), 8);
      CongruentPlus(Up(Held(Feed(front)), 8), Up(Dividend(front), 8), w);
      DividendNext(front, b);
      CongruentTrans(Held(Feed(data)), Xor(Up(Held(Feed(front)), 8), w), Dividend(data));
    }
  }

  lemma {:induction false} MirrorAllOnes(n: nat)
    ensures Mirror(Pow2(n) - 1, n) == Pow2(n) - 1
  {
    if n != 0 {
      assert (Pow2(n) - 1) / 2 == Pow2(n - 1) - 1 && (Pow2(n) - 1) % 2 == 1;
      MirrorAllOnes(n - 1);
    }
  }

  lemma MirrorOnes()
    ensures Held(ONES) == ONES
  {
    PowValues();
    MirrorAllOnes(32);
  }

  /**
   * The checksum is the remainder: of all polynomials below the 32nd power just one differs from the dividend by a
   * multiple of the generator, and the checksum is that one, mirrored and inverted.
   */
  lemma CrcIsRemainder(data: seq<byte>, r: nat)
    requires r < FULL
    ensures Congruent(r, Dividend(data)) <==> r == Mirror(Xor(Crc32(data), ONES), 32)
  {
    var held := Held(Feed(data));
    XorAssoc(Feed(data), ONES, ONES);
    XorSelf(ONES);
    XorZero(Feed(data));
    FeedCongruent(data);
    if Congruent(r, Dividend(data)) {
      XorComm(held, Dividend(data));
      CongruentTrans(r, Dividend(data), held);
      PowValues();
      MirrorBound(Feed(data), 32);
      XorWord(r, held);
      var q: nat :| Times(q) == Xor(r, held);
      if q != 0 { TimesLarge(q); }
      XorEmpty(r, held);
    }
  }
}

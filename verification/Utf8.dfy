/**
 * UTF-8: the encoding of section 3 of RFC 3629 and the strict streaming decoder of
 * `microkernel/src/display.rs`. A Dafny `char` is a Unicode scalar value.
 */
module Utf8 {
  import opened Common

  const REPLACEMENT: char := '\U{FFFD}'

  // ---- The encoding (RFC 3629, section 3) ----

  function Encode(c: char): (bs: seq<byte>)
    ensures 1 <= |bs| <= 4
  {
    var n := c as int;
    if n < 0x80 then [n]
    else if n < 0x800 then [0xC0 + n / 64, 0x80 + n % 64]
    else if n < 0x1_0000 then [0xE0 + n / 4096, 0x80 + n / 64 % 64, 0x80 + n % 64]
    else [0xF0 + n / 0x4_0000, 0x80 + n / 4096 % 64, 0x80 + n / 64 % 64, 0x80 + n % 64]
  }

  function EncodeAll(s: string): seq<byte> {
    if s == [] then [] else Encode(s[0]) + EncodeAll(s[1..])
  }

  // ---- The decoder's state and one step of it ----

  /** The fields `code`, `need` and `min`. */
  datatype State = State(code: nat, need: nat, min: nat)

  const FRESH := State(0, 0, 0)

  predicate Scalar(n: int) {
    0 <= n < 0xD800 || 0xE000 <= n <= 0x10_FFFF
  }

  function Lead(b: byte): (State, Option<char>) {
    if b <= 0x7F then (FRESH, Some(b as char))
    else if 0xC2 <= b <= 0xDF then (State(b % 32, 1, 0x80), None)
    else if 0xE0 <= b <= 0xEF then (State(b % 16, 2, 0x800), None)
    else if 0xF0 <= b <= 0xF4 then (State(b % 8, 3, 0x1_0000), None)
    else (FRESH, Some(REPLACEMENT))
  }

  function Step(d: State, b: byte): (State, Option<char>) {
    if d.need == 0 then Lead(b)
    else if !(0x80 <= b < 0xC0) then (FRESH, Some(REPLACEMENT))
    else
      var code := d.code * 64 + b % 64;
      if d.need > 1 then (State(code, d.need - 1, d.min), None)
      else if code < d.min || !Scalar(code) then (FRESH, Some(REPLACEMENT))
      else (FRESH, Some(code as char))
  }

  function Emit(o: Option<char>): string {
    if o.Some? then [o.value] else []
  }

  /** Feeding a byte sequence: the state reached and the characters emitted. */
  function Run(d: State, bs: seq<byte>): (State, string)
    decreases |bs|
  {
    if bs == [] then (d, [])
    else
      var (d1, o) := Step(d, bs[0]);
      var (d2, s) := Run(d1, bs[1..]);
      (d2, Emit(o) + s)
  }

  class Utf8Decoder {
    var code: nat
    var need: nat
    var min: nat

    function View(): State
      reads this
    {
      State(code, need, min)
    }

    constructor ()
      ensures View() == FRESH
    {
      code, need, min := 0, 0, 0;
    }

    method Reset()
      modifies this
      ensures View() == FRESH
    {
      code, need, min := 0, 0, 0;
    }

    method Push(b: byte) returns (r: Option<char>)
      requires need == 0 ==> View() == FRESH
      modifies this
      ensures (View(), r) == Step(old(View()), b)
      ensures need == 0 ==> View() == FRESH
    {
      if need == 0 {
        if b <= 0x7F {
          return Some(b as char);
        } else if 0xC2 <= b <= 0xDF {
          code, need, min := b % 32, 1, 0x80;
        } else if 0xE0 <= b <= 0xEF {
          code, need, min := b % 16, 2, 0x800;
        } else if 0xF0 <= b <= 0xF4 {
          code, need, min := b % 8, 3, 0x1_0000;
        } else {
          return Some(REPLACEMENT);
        }
        return None;
      }
      if !(0x80 <= b < 0xC0) {
        Reset();
        return Some(REPLACEMENT);
      }
      code := code * 64 + b % 64;
      need := need - 1;
      if need != 0 {
        return None;
      }
      var cp, low := code, min;
      Reset();
      if cp < low || cp > 0x10_FFFF || 0xD800 <= cp <= 0xDFFF {
        return Some(REPLACEMENT);
      }
      return Some(cp as char);
    }

    /** Feeding a whole byte string, as the console does. */
    method Feed(bs: seq<byte>) returns (out: string)
      requires need == 0 ==> View() == FRESH
      modifies this
      ensures (View(), out) == Run(old(View()), bs)
    {
      out := [];
      var i := 0;
      assert bs[0..] == bs;
      assert out + Run(View(), bs).1 == Run(View(), bs).1;
      while i < |bs|
        invariant 0 <= i <= |bs|
        invariant need == 0 ==> View() == FRESH
        invariant Run(old(View()), bs) == (Run(View(), bs[i..]).0, out + Run(View(), bs[i..]).1)
      {
        RunFrom(View(), bs, i, out);
        var r := Push(bs[i]);
        if r.Some? {
          out := out + [r.value];
        } else {
          assert out + Emit(r) == out;
        }
        i := i + 1;
      }
      assert bs[i..] == [];
      assert out + [] == out;
    }
  }

  // ---- Decoding inverts encoding ----

  /** Both runs start with the same step. */
  lemma FirstStep(d: State, a: seq<byte>, b: seq<byte>) returns (d1: State, out: string)
    requires a != []
    ensures Run(d, a) == (Run(d1, a[1..]).0, out + Run(d1, a[1..]).1)
    ensures Run(d, a + b) == (Run(d1, a[1..] + b).0, out + Run(d1, a[1..] + b).1)
  {
    d1, out := Step(d, a[0]).0, Emit(Step(d, a[0]).1);
    assert (a + b)[0] == a[0] && (a + b)[1..] == a[1..] + b;
  }

  lemma {:induction false} RunConcat(d: State, a: seq<byte>, b: seq<byte>)
    ensures Run(d, a + b).0 == Run(Run(d, a).0, b).0
    ensures Run(d, a + b).1 == Run(d, a).1 + Run(Run(d, a).0, b).1
    decreases |a|
  {
    if a == [] {
      assert a + b == b;
    } else {
      var d1, out := FirstStep(d, a, b);
      RunConcat(d1, a[1..], b);
      Regroup(out, Run(d1, a[1..]).1, Run(Run(d, a).0, b).1);
    }
  }

  lemma Run1(d: State, x: byte)
    ensures Run(d, [x]) == (Step(d, x).0, Emit(Step(d, x).1))
  {
    assert Run(Step(d, x).0, [x][1..]) == (Step(d, x).0, []);
    assert Emit(Step(d, x).1) + [] == Emit(Step(d, x).1);
  }

  /** The run from byte `i` on: that byte, then the rest. */
  lemma RunFrom(d: State, bs: seq<byte>, i: nat, out: string)
    requires i < |bs|
    ensures var (d1, o) := Step(d, bs[i]);
            && Run(d, bs[i..]).0 == Run(d1, bs[i + 1..]).0
            && out + Run(d, bs[i..]).1 == out + Emit(o) + Run(d1, bs[i + 1..]).1
  {
    assert bs[i..][1..] == bs[i + 1..];
  }

  /** A byte that completes nothing moves the rest of the input to the next state. */
  lemma RunQuiet(d: State, d1: State, x: byte, rest: seq<byte>)
    requires Step(d, x) == (d1, None)
    ensures Run(d, [x] + rest) == Run(d1, rest)
  {
    assert ([x] + rest)[1..] == rest;
    assert [] + Run(d1, rest).1 == Run(d1, rest).1;
  }

  lemma RunEncode(c: char)
    ensures Run(FRESH, Encode(c)) == (FRESH, [c])
  {
    var n := c as int;
    if n < 0x80 {
      Run1(FRESH, n);
    } else if n < 0x800 {
      RunEncode2(n);
    } else if n < 0x1_0000 {
      RunEncode3(n);
    } else {
      RunEncode4(n);
    }
  }

  lemma RunEncode2(n: nat)
    requires 0x80 <= n < 0x800
    ensures Run(FRESH, [0xC0 + n / 64, 0x80 + n % 64]) == (FRESH, [n as char])
  {
    var d := State(n / 64, 1, 0x80);
    RunQuiet(FRESH, d, 0xC0 + n / 64, [0x80 + n % 64]);
    Run1(d, 0x80 + n % 64);
    assert [0xC0 + n / 64, 0x80 + n % 64] == [0xC0 + n / 64] + [0x80 + n % 64];
  }

  lemma RunThree(d: State, d1: State, d2: State, x: byte, y: byte, z: byte, c: char)
    requires Step(d, x) == (d1, None) && Step(d1, y) == (d2, None) && Step(d2, z) == (FRESH, Some(c))
    ensures Run(d, [x, y, z]) == (FRESH, [c])
  {
    RunQuiet(d, d1, x, [y, z]);
    RunQuiet(d1, d2, y, [z]);
    Run1(d2, z);
    assert [x, y, z] == [x] + [y, z] && [y, z] == [y] + [z];
  }

  lemma Digits(n: nat)
    ensures n == (n / 4096 * 64 + n / 64 % 64) * 64 + n % 64
  {
    assert n == n / 64 * 64 + n % 64;
    assert n / 4096 == n / 64 / 64;
  }

  lemma RunEncode3(n: nat)
    requires 0x800 <= n < 0x1_0000 && Scalar(n)
    ensures Run(FRESH, [0xE0 + n / 4096, 0x80 + n / 64 % 64, 0x80 + n % 64]) == (FRESH, [n as char])
  {
    var h, m, l := n / 4096, n / 64 % 64, n % 64;
    Digits(n);
    RunThree(FRESH, State(h, 2, 0x800), State(h * 64 + m, 1, 0x800), 0xE0 + h, 0x80 + m, 0x80 + l, n as char);
  }

  lemma RunEncode4(n: nat)
    requires 0x1_0000 <= n <= 0x10_FFFF
    ensures Run(FRESH, [0xF0 + n / 0x4_0000, 0x80 + n / 4096 % 64, 0x80 + n / 64 % 64, 0x80 + n % 64])
         == (FRESH, [n as char])
  {
    var h, k, m, l := n / 0x4_0000, n / 4096 % 64, n / 64 % 64, n % 64;
    var w, x, y, z := 0xF0 + h, 0x80 + k, 0x80 + m, 0x80 + l;
    var d1 := State(h, 3, 0x1_0000);
    assert n / 4096 == h * 64 + k;
    Digits(n);
    RunThree(d1, State(h * 64 + k, 2, 0x1_0000), State((h * 64 + k) * 64 + m, 1, 0x1_0000), x, y, z, n as char);
    RunQuiet(FRESH, d1, w, [x, y, z]);
    assert [w, x, y, z] == [w] + [x, y, z];
  }

  /** A fresh decoder fed the encoding of any text emits that text and ends reset. */
  lemma {:induction false} StreamRoundTrip(s: string)
    ensures Run(FRESH, EncodeAll(s)) == (FRESH, s)
  {
    if s != [] {
      RunConcat(FRESH, Encode(s[0]), EncodeAll(s[1..]));
      RunEncode(s[0]);
      StreamRoundTrip(s[1..]);
      assert [s[0]] + s[1..] == s;
    }
  }

  // ---- What a decoder emits was just fed to it ----

  ghost predicate Holds1(d: State, x: int) {
    || (0xC2 <= x <= 0xDF && d == State(x - 0xC0, 1, 0x80))
    || (0xE0 <= x <= 0xEF && d == State(x - 0xE0, 2, 0x800))
    || (0xF0 <= x <= 0xF4 && d == State(x - 0xF0, 3, 0x1_0000))
  }

  ghost predicate Tail(y: int) {
    0x80 <= y < 0xC0
  }

  ghost predicate Holds2(d: State, x: int, y: int) {
    && Tail(y)
    && (|| (0xE0 <= x <= 0xEF && d == State((x - 0xE0) * 64 + (y - 0x80), 1, 0x800))
        || (0xF0 <= x <= 0xF4 && d == State((x - 0xF0) * 64 + (y - 0x80), 2, 0x1_0000)))
  }

  ghost predicate Holds3(d: State, x: int, y: int, z: int) {
    && Tail(y) && Tail(z) && 0xF0 <= x <= 0xF4
    && d == State(((x - 0xF0) * 64 + (y - 0x80)) * 64 + (z - 0x80), 1, 0x1_0000)
  }

  /** `p` is the unfinished sequence held by the decoder state `d`. */
  ghost predicate Holds(d: State, p: seq<byte>) {
    if |p| == 0 then d == FRESH
    else if |p| == 1 then Holds1(d, p[0])
    else if |p| == 2 then Holds2(d, p[0], p[1])
    else |p| == 3 && Holds3(d, p[0], p[1], p[2])
  }

  ghost predicate Ends(d: State, b: byte, fed: seq<byte>) {
    var (d1, o) := Step(d, b);
    && o.Some? && d1 == FRESH
    && (o.value != REPLACEMENT ==> Encode(o.value) == fed)
  }

  lemma StepHolds0(b: byte)
    ensures Step(FRESH, b).1.None? ==> Holds1(Step(FRESH, b).0, b)
    ensures Step(FRESH, b).1.Some? ==> Ends(FRESH, b, [b])
  {}

  lemma StepHolds1(d: State, x: byte, b: byte)
    requires Holds1(d, x)
    ensures Step(d, b).1.None? ==> Holds2(Step(d, b).0, x, b)
    ensures Step(d, b).1.Some? ==> Ends(d, b, [x, b])
  {
    if Tail(b) { assert b % 64 == b - 0x80; }
  }

  lemma StepHolds2(d: State, x: byte, y: byte, b: byte)
    requires Holds2(d, x, y)
    ensures Step(d, b).1.None? ==> Holds3(Step(d, b).0, x, y, b)
    ensures Step(d, b).1.Some? ==> Ends(d, b, [x, y, b])
  {
    if Tail(b) {
      assert b % 64 == b - 0x80;
      var n := ((x - 0xE0) * 64 + (y - 0x80)) * 64 + (b - 0x80);
      assert n % 64 == b - 0x80 && n / 64 == (x - 0xE0) * 64 + (y - 0x80);
      assert n / 4096 == x - 0xE0;
    }
  }

  lemma FourDigits(x: nat, y: nat, z: nat, b: nat)
    requires y < 64 && z < 64 && b < 64
    ensures var n := ((x * 64 + y) * 64 + z) * 64 + b;
            n % 64 == b && n / 64 % 64 == z && n / 4096 % 64 == y && n / 0x4_0000 == x
  {
    var m := x * 64 + y;
    var n := (m * 64 + z) * 64 + b;
    assert n / 64 == m * 64 + z;
    assert n / 4096 == m;
  }

  lemma StepHolds3(d: State, x: byte, y: byte, z: byte, b: byte)
    requires Holds3(d, x, y, z)
    ensures Ends(d, b, [x, y, z, b])
  {
    if Tail(b) {
      assert b % 64 == b - 0x80;
      FourDigits(x - 0xF0, y - 0x80, z - 0x80, b - 0x80);
    }
  }

  /** One step: either the byte joins the unfinished sequence, or the sequence ends here. */
  lemma StepHolds(d: State, p: seq<byte>, b: byte)
    requires Holds(d, p)
    ensures Step(d, b).1.None? ==> Holds(Step(d, b).0, p + [b])
    ensures Step(d, b).1.Some? ==> Ends(d, b, p + [b])
  {
    if |p| == 0 {
      StepHolds0(b);
      assert p + [b] == [b];
    } else if |p| == 1 {
      StepHolds1(d, p[0], b);
      assert p + [b] == [p[0], b];
    } else if |p| == 2 {
      StepHolds2(d, p[0], p[1], b);
      assert p + [b] == [p[0], p[1], b];
    } else {
      StepHolds3(d, p[0], p[1], p[2], b);
      assert p + [b] == [p[0], p[1], p[2], b];
    }
  }

  ghost predicate IsSuffix(t: seq<byte>, s: seq<byte>) {
    |t| <= |s| && s[|s| - |t|..] == t
  }

  lemma {:induction false} RunHolds(d: State, p: seq<byte>, bs: seq<byte>) returns (q: seq<byte>)
    requires Holds(d, p)
    ensures Holds(Run(d, bs).0, q) && IsSuffix(q, p + bs)
    decreases |bs|
  {
    if bs == [] {
      assert p + bs == p;
      q := p;
    } else {
      var d1 := Step(d, bs[0]).0;
      StepHolds(d, p, bs[0]);
      if Step(d, bs[0]).1.None? {
        q := RunHolds(d1, p + [bs[0]], bs[1..]);
        assert p + bs == p + [bs[0]] + bs[1..];
      } else {
        q := RunHolds(d1, [], bs[1..]);
        SuffixOfTail(q, p, bs);
      }
    }
  }

  lemma SuffixAfter(q: seq<byte>, p: seq<byte>, s: seq<byte>)
    requires IsSuffix(q, s)
    ensures IsSuffix(q, p + s)
  {
    assert (p + s)[|p + s| - |q|..] == s[|s| - |q|..];
  }

  lemma SuffixOfTail(q: seq<byte>, p: seq<byte>, bs: seq<byte>)
    requires bs != [] && IsSuffix(q, [] + bs[1..])
    ensures IsSuffix(q, p + bs)
  {
    assert [] + bs[1..] == bs[1..];
    assert p + bs == (p + [bs[0]]) + bs[1..];
    SuffixAfter(q, p + [bs[0]], bs[1..]);
  }

  /**
   * Whatever bytes came before, a character other than U+FFFD that the byte `b` makes the
   * decoder emit has its (unique, shortest) encoding as the last bytes of the input.
   */
  lemma EmittedWasJustFed(bs: seq<byte>, b: byte)
    ensures var o := Step(Run(FRESH, bs).0, b).1;
            o.Some? && o.value != REPLACEMENT ==> IsSuffix(Encode(o.value), bs + [b])
  {
    var q := RunHolds(FRESH, [], bs);
    assert [] + bs == bs;
    StepHolds(Run(FRESH, bs).0, q, b);
    SuffixSnoc(q, bs, b);
  }

  lemma SuffixSnoc(q: seq<byte>, bs: seq<byte>, b: byte)
    requires IsSuffix(q, bs)
    ensures IsSuffix(q + [b], bs + [b])
  {
    assert (bs + [b])[|bs| - |q|..] == bs[|bs| - |q|..] + [b];
  }

  // ---- No byte is passed over ----

  /** The bytes cannot become the encoding of any character, whatever follows. */
  ghost predicate Hopeless(p: seq<byte>) {
    forall x: char :: !(p <= Encode(x))
  }

  /** What the decoder shows for a piece of the input: the character it encodes, or U+FFFD for a hopeless one. */
  ghost predicate Shown(p: seq<byte>, c: char) {
    p == Encode(c) || (c == REPLACEMENT && Hopeless(p))
  }

  function Joined(pieces: seq<seq<byte>>): seq<byte> {
    if pieces == [] then [] else pieces[0] + Joined(pieces[1..])
  }

  /** The byte joins the unfinished sequence. */
  lemma Joins(d: State, p: seq<byte>, b: byte)
    requires Holds(d, p) && Step(d, b).1.None?
    ensures Holds(Step(d, b).0, p + [b])
    ensures Run(FRESH, p) == (d, []) ==> Run(FRESH, p + [b]) == (Step(d, b).0, [])
  {
    StepHolds(d, p, b);
    RunConcat(FRESH, p, [b]);
    Run1(d, b);
  }

  lemma NothingShown(d: State, bs: seq<byte>)
    requires bs != [] && Run(d, bs).1 == []
    ensures Step(d, bs[0]).1.None? && Run(Step(d, bs[0]).0, bs[1..]) == Run(d, bs)
  {
    var (d1, o) := Step(d, bs[0]);
    assert |Run(d, bs).1| == |Emit(o)| + |Run(d1, bs[1..]).1|;
  }

  lemma {:induction false} Silent(d: State, p: seq<byte>, bs: seq<byte>)
    requires Holds(d, p) && Run(d, bs).1 == []
    ensures Holds(Run(d, bs).0, p + bs)
    decreases |bs|
  {
    if bs == [] {
      assert p + bs == p;
    } else {
      NothingShown(d, bs);
      Joins(d, p, bs[0]);
      Silent(Step(d, bs[0]).0, p + [bs[0]], bs[1..]);
      assert p + [bs[0]] + bs[1..] == p + bs;
    }
  }

  /** A piece for which U+FFFD is shown encodes that, or nothing. */
  lemma Refused(p: seq<byte>, d: State, b: byte)
    requires Run(FRESH, p) == (d, []) && Step(d, b) == (FRESH, Some(REPLACEMENT))
    ensures Shown(p + [b], REPLACEMENT)
  {
    Run1(d, b);
    RunConcat(FRESH, p, [b]);
    if x: char :| p + [b] <= Encode(x) {
      var rest := Encode(x)[|p| + 1..];
      assert Encode(x) == p + [b] + rest;
      RunEncode(x);
      RunConcat(FRESH, p + [b], rest);
      assert Run(FRESH, p + [b]).1 == [REPLACEMENT];
      assert ([REPLACEMENT] + Run(FRESH, rest).1)[0] == REPLACEMENT;
      Silent(FRESH, [], rest);
      assert [] + rest == rest;
      assert p + [b] + [] == p + [b];
    }
  }

  /** The byte ends the piece. */
  lemma EndsPiece(d: State, p: seq<byte>, b: byte)
    requires Holds(d, p) && Run(FRESH, p) == (d, []) && Step(d, b).1.Some?
    ensures Step(d, b).0 == FRESH && Shown(p + [b], Step(d, b).1.value)
  {
    StepHolds(d, p, b);
    if Step(d, b).1.value == REPLACEMENT { Refused(p, d, b); }
  }

  lemma ShownFirst(d: State, bs: seq<byte>)
    requires bs != [] && Step(d, bs[0]).1.Some?
    ensures Run(d, bs).0 == Run(Step(d, bs[0]).0, bs[1..]).0
    ensures Run(d, bs).1 == [Step(d, bs[0]).1.value] + Run(Step(d, bs[0]).0, bs[1..]).1
  {}

  lemma QuietFirst(d: State, bs: seq<byte>)
    requires bs != [] && Step(d, bs[0]).1.None?
    ensures Run(d, bs) == Run(Step(d, bs[0]).0, bs[1..])
  {
    assert [] + Run(Step(d, bs[0]).0, bs[1..]).1 == Run(Step(d, bs[0]).0, bs[1..]).1;
  }

  lemma {:induction false} Pieces(d: State, p: seq<byte>, bs: seq<byte>)
    returns (pieces: seq<seq<byte>>, rest: seq<byte>)
    requires Holds(d, p) && Run(FRESH, p) == (d, [])
    ensures p + bs == Joined(pieces) + rest && Holds(Run(d, bs).0, rest)
    ensures |pieces| == |Run(d, bs).1| && forall i :: 0 <= i < |pieces| ==> Shown(pieces[i], Run(d, bs).1[i])
    decreases |bs|
  {
    if bs == [] {
      pieces, rest := [], p;
    } else {
      assert p + bs == p + [bs[0]] + bs[1..];
      if Step(d, bs[0]).1.None? {
        Joins(d, p, bs[0]);
        QuietFirst(d, bs);
        pieces, rest := Pieces(Step(d, bs[0]).0, p + [bs[0]], bs[1..]);
      } else {
        EndsPiece(d, p, bs[0]);
        ShownFirst(d, bs);
        var more;
        more, rest := Pieces(FRESH, [], bs[1..]);
        pieces := [p + [bs[0]]] + more;
        PiecesNext(p + [bs[0]], more, bs[1..], rest);
      }
    }
  }

  lemma PiecesNext(piece: seq<byte>, more: seq<seq<byte>>, bs: seq<byte>, rest: seq<byte>)
    requires [] + bs == Joined(more) + rest
    ensures piece + bs == Joined([piece] + more) + rest
  {
    assert ([piece] + more)[1..] == more && [] + bs == bs;
  }

  /**
   * Any bytes at all fed to a fresh decoder fall into pieces, one for each character shown: the encoding of that
   * character, or bytes that could not become the encoding of any, for which U+FFFD is shown. What is left over is
   * at most three bytes, and there is something left exactly when the decoder is not reset.
   */
  lemma EveryByteCounts(bs: seq<byte>) returns (pieces: seq<seq<byte>>, rest: seq<byte>)
    ensures bs == Joined(pieces) + rest && |rest| <= 3 && (Run(FRESH, bs).0 == FRESH <==> rest == [])
    ensures |pieces| == |Run(FRESH, bs).1|
    ensures forall i :: 0 <= i < |pieces| ==> Shown(pieces[i], Run(FRESH, bs).1[i])
  {
    pieces, rest := Pieces(FRESH, [], bs);
    assert [] + bs == bs;
  }

  /** The encoding loses nothing: two texts with the same bytes are the same text. */
  lemma EncodeInjective(s: string, t: string)
    requires EncodeAll(s) == EncodeAll(t)
    ensures s == t
  {
    StreamRoundTrip(s);
    StreamRoundTrip(t);
  }

  // ---- Whole-string validation, as `core::str::from_utf8` does it ----

  /** Some text exactly when the bytes are the encoding of that text. */
  function FromUtf8(bs: seq<byte>): (r: Option<string>)
    ensures r.Some? ==> EncodeAll(r.value) == bs
  {
    var (d, s) := Run(FRESH, bs);
    if d == FRESH && EncodeAll(s) == bs then Some(s) else None
  }

  lemma FromUtf8Complete(s: string)
    ensures FromUtf8(EncodeAll(s)) == Some(s)
  {
    StreamRoundTrip(s);
  }
}

/** Stage-2 translation tables of `microkernel/src/iommu.rs`: three levels of 512 words in memory. */
module Stage2 {
  import opened Common

  const IOVA_LIMIT: nat := 0x1_0000_0000
  const TABLE_BITS: nat := 0x3
  const LEAF_BITS: nat := 0x7ff

  /** Memory by page: the words of each table page. */
  type Memory = map<nat, seq<nat>>

  // ---- Words ----

  predicate TableValid(w: nat) { w % 2 == 1 }

  /** `w & 0x0000_ffff_ffff_f000` */
  function TablePtr(w: nat): nat { w / 4096 * 4096 % 0x1_0000_0000_0000 }

  predicate IsPage(p: nat) { p % 4096 == 0 && p < 0x1_0000_0000_0000 }

  lemma PointerBack(k: nat, bits: nat)
    requires k < 0x10_0000_0000 && bits < 4096
    ensures TablePtr(k * 4096 + bits) == k * 4096
  {
    assert (k * 4096 + bits) / 4096 == k;
  }

  lemma ValidBit(k: nat, bits: nat)
    ensures TableValid(k * 4096 + bits) == TableValid(bits)
  {
    assert k * 4096 + bits == 2 * (k * 2048) + bits;
  }

  lemma WordRoundTrip(p: nat, bits: nat)
    requires IsPage(p) && bits < 4096
    ensures TablePtr(p + bits) == p
    ensures TableValid(p + bits) == TableValid(bits)
  {
    var k := p / 4096;
    assert p == k * 4096;
    PointerBack(k, bits);
    ValidBit(k, bits);
  }

  /** The three indices of a page number. */
  function I1(v: nat): nat { v / 512 / 512 }
  function I2(v: nat): nat { v / 512 % 512 }
  function I3(v: nat): nat { v % 512 }

  /** The shifts and masks of the source pick these indices. */
  lemma Indices(iova: nat)
    requires iova < IOVA_LIMIT
    ensures var v := iova / 4096;
            iova / 0x4000_0000 % 512 == I1(v) && iova / 0x20_0000 % 512 == I2(v) && iova / 0x1000 % 512 == I3(v)
    ensures I1(iova / 4096) < 4 && iova / 4096 < 0x800_0000
  {
    var v := iova / 4096;
    assert v / 512 == iova / 0x20_0000;
    assert v / 512 / 512 == iova / 0x4000_0000;
  }

  lemma Split(v: nat)
    requires v < 0x800_0000
    ensures I1(v) < 512 && v / 512 == I1(v) * 512 + I2(v) && v == (v / 512) * 512 + I3(v)
  {}

  // ---- The tables as maps ----

  /**
   * The second-level table for each first index, the third-level table for each pair of indices,
   * the page that each triple of indices maps to, and the pages that hold the tables.
   */
  datatype Space = Space(root: nat, l2: map<nat, nat>, l3: map<(nat, nat), nat>, leaf: map<(nat, nat, nat), nat>,
                         tables: set<nat>)

  function Get<K>(m: map<K, nat>, k: K): Option<nat> {
    if k in m then Some(m[k]) else None
  }

  /** The word for a table or page, or for nothing. */
  function Word(x: Option<nat>, bits: nat): nat {
    if x.Some? then x.value + bits else 0
  }

  ghost predicate RootRow(words: seq<nat>, l2: map<nat, nat>) {
    |words| == 512 && forall a: nat :: a < 512 ==> words[a] == Word(Get(l2, a), TABLE_BITS)
  }

  ghost predicate TableRow(words: seq<nat>, l3: map<(nat, nat), nat>, a: nat) {
    |words| == 512 && forall b: nat :: b < 512 ==> words[b] == Word(Get(l3, (a, b)), TABLE_BITS)
  }

  ghost predicate LeafRow(words: seq<nat>, leaf: map<(nat, nat, nat), nat>, a: nat, b: nat) {
    |words| == 512 && forall c: nat :: c < 512 ==> words[c] == Word(Get(leaf, (a, b, c)), LEAF_BITS)
  }

  ghost predicate RootSpells(mem: Memory, s: Space) {
    s.root in mem && IsPage(s.root) && RootRow(mem[s.root], s.l2)
  }

  ghost predicate TablesSpell(mem: Memory, l2: map<nat, nat>, l3: map<(nat, nat), nat>) {
    forall a :: a in l2 ==> a < 512 && IsPage(l2[a]) && l2[a] in mem && TableRow(mem[l2[a]], l3, a)
  }

  ghost predicate LeavesSpell(mem: Memory, l3: map<(nat, nat), nat>, leaf: map<(nat, nat, nat), nat>) {
    forall k :: k in l3 ==> IsPage(l3[k]) && l3[k] in mem && LeafRow(mem[l3[k]], leaf, k.0, k.1)
  }

  /** Every table hangs off the one above it, and every mapped page off a third-level table. */
  ghost predicate Rooted(s: Space) {
    && (forall k :: k in s.l3 ==> k.0 in s.l2 && k.1 < 512)
    && (forall t :: t in s.leaf ==> (t.0, t.1) in s.l3 && t.2 < 512 && IsPage(s.leaf[t]))
  }

  /** The words in memory spell exactly these maps, and no two tables share a page. */
  ghost predicate Spells(mem: Memory, s: Space) {
    && RootSpells(mem, s) && TablesSpell(mem, s.l2, s.l3) && LeavesSpell(mem, s.l3, s.leaf)
    && Rooted(s) && Separate(s) && Owns(s)
  }

  predicate IsTable(s: Space, p: nat) {
    p == s.root || p in s.l2.Values || p in s.l3.Values
  }

  /** The table pages are the root and those that the maps name. */
  ghost predicate Owns(s: Space) {
    && s.root in s.tables && (forall a :: a in s.l2 ==> s.l2[a] in s.tables)
    && (forall k :: k in s.l3 ==> s.l3[k] in s.tables)
    && (forall p {:trigger IsTable(s, p)} :: p in s.tables ==> IsTable(s, p))
  }

  ghost predicate Separate(s: Space) {
    && (forall i, j :: i in s.l2 && j in s.l2 && i != j ==> s.l2[i] != s.l2[j])
    && (forall i, j :: i in s.l3 && j in s.l3 && i != j ==> s.l3[i] != s.l3[j])
    && (forall i, j :: i in s.l2 && j in s.l3 ==> s.l2[i] != s.l3[j])
    && (forall i :: i in s.l2 ==> s.l2[i] != s.root) && (forall i :: i in s.l3 ==> s.l3[i] != s.root)
  }

  // ---- The hardware walk ----

  /**
   * What the IOMMU makes of a device address: a fault, or a physical address with the memory type, the access rights
   * (bit 0 read, bit 1 write) and the shareability.
   */
  datatype Access = Fault | Reached(address: nat, kind: nat, rights: nat, share: nat)

  /** A word that maps `size` bytes; without the access flag it faults. */
  function Reach(w: nat, size: nat, x: nat): Access
    requires size > 0
  {
    if w / 1024 % 2 == 0 then Fault
    else Reached(w % 0x1_0000_0000_0000 / size * size + x % size, w / 4 % 16, w / 64 % 4, w / 256 % 4)
  }

  /** Word `i` of the table at `p`; zero, which is invalid, where there is no memory. */
  function Fetch(mem: Memory, p: nat, i: nat): nat {
    if p in mem && i < |mem[p]| then mem[p][i] else 0
  }

  /** The page that a table word points to. */
  function Next(w: nat): nat { w % 0x1_0000_0000_0000 / 4096 * 4096 }

  /**
   * The stage-2 walk of the Arm architecture for a 39-bit address and 4 KB pages. The two low bits of a word say
   * what it is: 11 a table at the first two levels and a page at the third; 01 a block of 1 GB or 2 MB at the
   * first two levels and nothing at the third; anything else is invalid.
   */
  function HardwareWalk(mem: Memory, root: nat, x: nat): Access {
    var w1 := Fetch(mem, root, x / 0x4000_0000 % 512);
    if w1 % 4 == 1 then Reach(w1, 0x4000_0000, x)
    else if w1 % 4 != 3 then Fault
    else
      var w2 := Fetch(mem, Next(w1), x / 0x20_0000 % 512);
      if w2 % 4 == 1 then Reach(w2, 0x20_0000, x)
      else if w2 % 4 != 3 then Fault
      else
        var w3 := Fetch(mem, Next(w2), x / 0x1000 % 512);
        if w3 % 4 == 3 then Reach(w3, 0x1000, x) else Fault
  }

  /** Page number `v` as its three indices. */
  function Path(v: nat): (nat, nat, nat) { (I1(v), I2(v), I3(v)) }

  /** Distinct pages have distinct indices. */
  lemma PathInjective(v: nat, w: nat)
    requires v < 0x800_0000 && w < 0x800_0000 && Path(v) == Path(w)
    ensures v == w
  {
    Split(v);
    Split(w);
  }

  lemma WordBack(w: nat, x: Option<nat>, bits: nat)
    requires w == Word(x, bits) && bits < 4096 && bits % 2 == 1 && (x.Some? ==> IsPage(x.value))
    ensures TableValid(w) <==> x.Some?
    ensures x.Some? ==> TablePtr(w) == x.value
  {
    if x.Some? { WordRoundTrip(x.value, bits); }
  }

  lemma PageSum(p: nat, bits: nat)
    requires IsPage(p) && bits < 4096
    ensures (p + bits) % 0x1_0000_0000_0000 / 4096 * 4096 == p && (p + bits) % 4 == bits % 4
  {
    LowBits(p / 4096, bits);
    assert p == 4096 * (p / 4096);
  }

  lemma LowBits(k: nat, bits: nat)
    requires bits < 4096
    ensures (4096 * k + bits) / 4096 == k && (4096 * k + bits) % 4 == bits % 4
  {
    assert 4096 * k + bits == 4 * (1024 * k) + bits;
  }

  /** The word of a table, as the hardware reads it. */
  lemma TableWord(w: nat, x: Option<nat>)
    requires w == Word(x, TABLE_BITS) && (x.Some? ==> IsPage(x.value))
    ensures w % 4 == (if x.Some? then 3 else 0) && (x.Some? ==> Next(w) == x.value)
  {
    if x.Some? { PageSum(x.value, TABLE_BITS); }
  }

  lemma LeafKind(w: nat, k: nat)
    requires w == 4096 * k + LEAF_BITS
    ensures w / 4 % 16 == 15
  {
    assert w / 4 == 1024 * k + 511;
    assert w / 4 == 16 * (64 * k + 31) + 15;
  }

  lemma LeafRights(w: nat, k: nat)
    requires w == 4096 * k + LEAF_BITS
    ensures w / 64 % 4 == 3
  {
    assert w / 64 == 64 * k + 31;
    assert w / 64 == 4 * (16 * k + 7) + 3;
  }

  lemma LeafShare(w: nat, k: nat)
    requires w == 4096 * k + LEAF_BITS
    ensures w / 256 % 4 == 3
  {
    assert w / 256 == 16 * k + 7;
    assert w / 256 == 4 * (4 * k + 1) + 3;
  }

  lemma LeafAccessed(w: nat, k: nat)
    requires w == 4096 * k + LEAF_BITS
    ensures w / 1024 % 2 == 1
  {
    Quotient(w, 4 * k + 1);
    IsOdd(4 * k + 1, 2 * k);
  }

  lemma Quotient(w: nat, q: nat)
    requires w == 1024 * q + 1023
    ensures w / 1024 == q
  {}

  lemma IsOdd(q: nat, k: nat)
    requires q == 2 * k + 1
    ensures q % 2 == 1
  {}

  /** The word of a page: normal write-back memory, read and write, inner shareable, access flag set. */
  lemma LeafWord(w: nat, p: nat, x: nat)
    requires w == p + LEAF_BITS && IsPage(p)
    ensures w % 4 == 3 && Reach(w, 4096, x) == Reached(p + x % 4096, 15, 3, 3)
  {
    PageSum(p, LEAF_BITS);
    assert p == 4096 * (p / 4096);
    LeafKind(w, p / 4096);
    LeafRights(w, p / 4096);
    LeafShare(w, p / 4096);
    LeafAccessed(w, p / 4096);
  }

  lemma WalkIndices(x: nat)
    requires x < 0x80_0000_0000
    ensures Path(x / 4096) == (x / 0x4000_0000 % 512, x / 0x20_0000 % 512, x / 0x1000 % 512)
    ensures x / 0x4000_0000 < 512
  {
    var v := x / 4096;
    assert v / 512 == x / 0x20_0000;
    assert v / 512 / 512 == x / 0x4000_0000;
  }

  /** A device address under a table of mapped pages: each byte in its place, ordinary memory, full rights. */
  function Seen(leaf: map<(nat, nat, nat), nat>, x: nat): Access {
    match Get(leaf, Path(x / 4096))
    case None => Fault
    case Some(p) => Reached(p + x % 4096, 15, 3, 3)
  }

  /** The hardware reaches exactly the mapped pages, each byte of them in its place, with full rights. */
  lemma HardwareIs(mem: Memory, s: Space, x: nat)
    requires Spells(mem, s) && x < 0x80_0000_0000
    ensures HardwareWalk(mem, s.root, x) == Seen(s.leaf, x)
  {
    WalkIndices(x);
    var (a, b, c) := Path(x / 4096);
    TableWord(mem[s.root][a], Get(s.l2, a));
    if a in s.l2 {
      TableWord(mem[s.l2[a]][b], Get(s.l3, (a, b)));
      if (a, b) in s.l3 && (a, b, c) in s.leaf {
        LeafWord(mem[s.l3[(a, b)]][c], s.leaf[(a, b, c)], x);
      }
    }
  }

  // ---- Changing the tables ----

  function Zeros(): (z: seq<nat>)
    ensures |z| == 512 && forall i :: 0 <= i < 512 ==> z[i] == 0
  {
    seq(512, i => 0)
  }

  /** Writing one word of a table. */
  function With(words: seq<nat>, i: nat, w: nat): seq<nat>
    requires i < |words|
  {
    words[i := w]
  }

  /** The tables only depend on their own pages. */
  lemma SpellsFrame(mem: Memory, mem': Memory, s: Space)
    requires Spells(mem, s) && forall p :: p in s.tables && p in mem ==> p in mem' && mem'[p] == mem[p]
    ensures Spells(mem', s)
  {}

  lemma RootRowSet(words: seq<nat>, l2: map<nat, nat>, a: nat, p: nat)
    requires RootRow(words, l2) && a < 512
    ensures RootRow(With(words, a, p + TABLE_BITS), l2[a := p])
  {}

  lemma TableRowSet(words: seq<nat>, l3: map<(nat, nat), nat>, a: nat, b: nat, p: nat)
    requires TableRow(words, l3, a) && b < 512
    ensures TableRow(With(words, b, p + TABLE_BITS), l3[(a, b) := p], a)
  {}

  lemma LeafRowSet(words: seq<nat>, leaf: map<(nat, nat, nat), nat>, a: nat, b: nat, c: nat, pa: nat)
    requires LeafRow(words, leaf, a, b) && c < 512
    ensures LeafRow(With(words, c, pa + LEAF_BITS), leaf[(a, b, c) := pa], a, b)
    ensures LeafRow(With(words, c, 0), leaf - {(a, b, c)}, a, b)
  {}

  /** Rows of other tables do not change. */
  lemma RowsSame(words: seq<nat>, l3: map<(nat, nat), nat>, a: nat, a': nat, b: nat, p: nat)
    requires TableRow(words, l3, a') && a' != a
    ensures TableRow(words, l3[(a, b) := p], a')
  {}

  lemma LeavesSame(words: seq<nat>, leaf: map<(nat, nat, nat), nat>, k: (nat, nat), a: nat, b: nat, c: nat, pa: nat)
    requires LeafRow(words, leaf, k.0, k.1) && k != (a, b)
    ensures LeafRow(words, leaf[(a, b, c) := pa], k.0, k.1) && LeafRow(words, leaf - {(a, b, c)}, k.0, k.1)
  {}

  /** Two memories agree on the pages of these tables. */
  ghost predicate SameTables<K(!new)>(mem: Memory, mem': Memory, m: map<K, nat>) {
    forall k :: k in m && m[k] in mem ==> m[k] in mem' && mem'[m[k]] == mem[m[k]]
  }

  lemma TablesFrame(mem: Memory, mem': Memory, l2: map<nat, nat>, l3: map<(nat, nat), nat>)
    requires TablesSpell(mem, l2, l3) && SameTables(mem, mem', l2)
    ensures TablesSpell(mem', l2, l3)
  {}

  lemma LeavesFrame(mem: Memory, mem': Memory, l3: map<(nat, nat), nat>, leaf: map<(nat, nat, nat), nat>)
    requires LeavesSpell(mem, l3, leaf) && SameTables(mem, mem', l3)
    ensures LeavesSpell(mem', l3, leaf)
  {}

  lemma EmptyTable(l3: map<(nat, nat), nat>, a: nat)
    requires forall k :: k in l3 ==> k.0 != a
    ensures TableRow(Zeros(), l3, a)
  {}

  lemma EmptyLeaves(leaf: map<(nat, nat, nat), nat>, a: nat, b: nat)
    requires forall t :: t in leaf ==> (t.0, t.1) != (a, b)
    ensures LeafRow(Zeros(), leaf, a, b)
  {}

  lemma TablesPlus(mem: Memory, l2: map<nat, nat>, l3: map<(nat, nat), nat>, a: nat, p: nat)
    requires TablesSpell(mem, l2, l3) && a < 512 && IsPage(p) && p in mem && TableRow(mem[p], l3, a)
    ensures TablesSpell(mem, l2[a := p], l3)
  {}

  lemma LeavesPlus(mem: Memory, l3: map<(nat, nat), nat>, leaf: map<(nat, nat, nat), nat>, k: (nat, nat), p: nat)
    requires LeavesSpell(mem, l3, leaf) && IsPage(p) && p in mem && LeafRow(mem[p], leaf, k.0, k.1)
    ensures LeavesSpell(mem, l3[k := p], leaf)
  {}

  lemma OwnsSecond(s: Space, a: nat, p: nat)
    requires Owns(s) && a !in s.l2
    ensures Owns(s.(l2 := s.l2[a := p], tables := s.tables + {p}))
  {
    var s' := s.(l2 := s.l2[a := p], tables := s.tables + {p});
    AddValue(s.l2, a, p);
    forall q | q in s'.tables ensures IsTable(s', q) {
      assert q == p || IsTable(s, q);
    }
  }

  lemma OwnsThird(s: Space, k: (nat, nat), p: nat)
    requires Owns(s) && k !in s.l3
    ensures Owns(s.(l3 := s.l3[k := p], tables := s.tables + {p}))
  {
    var s' := s.(l3 := s.l3[k := p], tables := s.tables + {p});
    AddValue(s.l3, k, p);
    forall q | q in s'.tables ensures IsTable(s', q) {
      assert q == p || IsTable(s, q);
    }
  }

  lemma SeparateSecond(s: Space, a: nat, p: nat)
    requires Separate(s) && Owns(s) && p !in s.tables && a !in s.l2
    ensures Separate(s.(l2 := s.l2[a := p], tables := s.tables + {p}))
  {}

  lemma SeparateThird(s: Space, k: (nat, nat), p: nat)
    requires Separate(s) && Owns(s) && p !in s.tables && k !in s.l3
    ensures Separate(s.(l3 := s.l3[k := p], tables := s.tables + {p}))
  {}

  /** What does not depend on the mapped pages. */
  lemma SameShape(s: Space, s': Space)
    requires Owns(s) && Separate(s) && s'.root == s.root && s'.l2 == s.l2 && s'.l3 == s.l3 && s'.tables == s.tables
    ensures Owns(s') && Separate(s')
  {
    forall q | q in s'.tables ensures IsTable(s', q) {
      assert IsTable(s, q);
    }
  }

  lemma RootedTables(s: Space, s': Space)
    requires Rooted(s) && s'.leaf == s.leaf && s.l2.Keys <= s'.l2.Keys && s.l3.Keys <= s'.l3.Keys
    requires forall k :: k in s'.l3 && k !in s.l3 ==> k.0 in s'.l2 && k.1 < 512
    ensures Rooted(s')
  {}

  lemma RootedLeaf(s: Space, t: (nat, nat, nat), pa: nat)
    requires Rooted(s) && (t.0, t.1) in s.l3 && t.2 < 512 && IsPage(pa)
    ensures Rooted(s.(leaf := s.leaf[t := pa])) && Rooted(s.(leaf := s.leaf - {t}))
  {}

  lemma AddSecond(mem: Memory, s: Space, a: nat, p: nat)
    requires Spells(mem, s) && a < 512 && a !in s.l2 && IsPage(p) && p !in s.tables
    ensures Spells(mem[p := Zeros()][s.root := With(mem[s.root], a, p + TABLE_BITS)],
            s.(l2 := s.l2[a := p], tables := s.tables + {p}))
  {
    var mem' := mem[p := Zeros()][s.root := With(mem[s.root], a, p + TABLE_BITS)];
    RootRowSet(mem[s.root], s.l2, a, p);
    TablesFrame(mem, mem', s.l2, s.l3);
    LeavesFrame(mem, mem', s.l3, s.leaf);
    EmptyTable(s.l3, a);
    TablesPlus(mem', s.l2, s.l3, a, p);
    OwnsSecond(s, a, p);
    SeparateSecond(s, a, p);
    RootedTables(s, s.(l2 := s.l2[a := p], tables := s.tables + {p}));
  }

  lemma AddValue<K>(m: map<K, nat>, k: K, p: nat)
    requires k !in m
    ensures m[k := p].Values == m.Values + {p}
  {
    var m' := m[k := p];
    assert m'[k] == p;
    forall x | x in m.Values ensures x in m'.Values {
      var i :| i in m && m[i] == x;
      assert m'[i] == x;
    }
  }

  /** One second-level table got a new entry. */
  lemma TablesSet(mem: Memory, l2: map<nat, nat>, l3: map<(nat, nat), nat>, a: nat, b: nat, p: nat, words: seq<nat>)
    requires TablesSpell(mem, l2, l3) && a in l2 && TableRow(words, l3[(a, b) := p], a)
    requires forall i :: i in l2 && i != a ==> l2[i] != l2[a]
    ensures TablesSpell(mem[l2[a] := words], l2, l3[(a, b) := p])
  {
    forall i | i in l2 && i != a ensures TableRow(mem[l2[i]], l3[(a, b) := p], i) {
      RowsSame(mem[l2[i]], l3, a, i, b, p);
    }
  }

  lemma ShapeThird(s: Space, a: nat, b: nat, p: nat)
    requires Owns(s) && Separate(s) && Rooted(s) && p !in s.tables && (a, b) !in s.l3 && a in s.l2 && b < 512
    ensures var s' := s.(l3 := s.l3[(a, b) := p], tables := s.tables + {p}); Owns(s') && Separate(s') && Rooted(s')
  {
    OwnsThird(s, (a, b), p);
    SeparateThird(s, (a, b), p);
    RootedTables(s, s.(l3 := s.l3[(a, b) := p], tables := s.tables + {p}));
  }

  lemma AddThird(mem: Memory, s: Space, a: nat, b: nat, p: nat)
    requires Spells(mem, s) && a in s.l2 && b < 512 && (a, b) !in s.l3 && IsPage(p) && p !in s.tables
    ensures Spells(mem[p := Zeros()][s.l2[a] := With(mem[s.l2[a]], b, p + TABLE_BITS)],
            s.(l3 := s.l3[(a, b) := p], tables := s.tables + {p}))
  {
    var mem1, words := mem[p := Zeros()], With(mem[s.l2[a]], b, p + TABLE_BITS);
    var mem' := mem1[s.l2[a] := words];
    TablesFrame(mem, mem1, s.l2, s.l3);
    TableRowSet(mem[s.l2[a]], s.l3, a, b, p);
    TablesSet(mem1, s.l2, s.l3, a, b, p, words);
    LeavesFrame(mem, mem', s.l3, s.leaf);
    EmptyLeaves(s.leaf, a, b);
    LeavesPlus(mem', s.l3, s.leaf, (a, b), p);
    ShapeThird(s, a, b, p);
  }

  /** One third-level table changed at one entry. */
  lemma LeavesSet(mem: Memory, l3: map<(nat, nat), nat>, leaf: map<(nat, nat, nat), nat>,
                  leaf': map<(nat, nat, nat), nat>, a: nat, b: nat, c: nat, pa: nat, words: seq<nat>)
    requires LeavesSpell(mem, l3, leaf) && (a, b) in l3 && LeafRow(words, leaf', a, b)
    requires leaf' == leaf - {(a, b, c)} || leaf' == leaf[(a, b, c) := pa]
    requires forall k :: k in l3 && k != (a, b) ==> l3[k] != l3[(a, b)]
    ensures LeavesSpell(mem[l3[(a, b)] := words], l3, leaf')
  {
    forall k | k in l3 && k != (a, b) ensures LeafRow(mem[l3[k]], leaf', k.0, k.1) {
      LeavesSame(mem[l3[k]], leaf, k, a, b, c, pa);
    }
  }

  lemma SetLeaf(mem: Memory, s: Space, a: nat, b: nat, c: nat, pa: nat)
    requires Spells(mem, s) && (a, b) in s.l3 && c < 512 && IsPage(pa)
    ensures Spells(mem[s.l3[(a, b)] := With(mem[s.l3[(a, b)]], c, pa + LEAF_BITS)], s.(leaf := s.leaf[(a, b, c) := pa]))
  {
    var words := With(mem[s.l3[(a, b)]], c, pa + LEAF_BITS);
    LeafRowSet(mem[s.l3[(a, b)]], s.leaf, a, b, c, pa);
    LeavesSet(mem, s.l3, s.leaf, s.leaf[(a, b, c) := pa], a, b, c, pa, words);
    SameShape(s, s.(leaf := s.leaf[(a, b, c) := pa]));
    RootedLeaf(s, (a, b, c), pa);
    TablesFrame(mem, mem[s.l3[(a, b)] := words], s.l2, s.l3);
  }

  lemma ClearLeaf(mem: Memory, s: Space, a: nat, b: nat, c: nat)
    requires Spells(mem, s) && (a, b) in s.l3 && c < 512
    ensures Spells(mem[s.l3[(a, b)] := With(mem[s.l3[(a, b)]], c, 0)], s.(leaf := s.leaf - {(a, b, c)}))
  {
    var words := With(mem[s.l3[(a, b)]], c, 0);
    LeafRowSet(mem[s.l3[(a, b)]], s.leaf, a, b, c, 0);
    LeavesSet(mem, s.l3, s.leaf, s.leaf - {(a, b, c)}, a, b, c, 0, words);
    SameShape(s, s.(leaf := s.leaf - {(a, b, c)}));
    RootedLeaf(s, (a, b, c), 0);
    TablesFrame(mem, mem[s.l3[(a, b)] := words], s.l2, s.l3);
  }
}

/** The IOMMU domain manager of `microkernel/src/iommu.rs`, over memory that it writes in place. */
module Iommu {
  import opened Common
  import opened Stage2
  import opened FirstFit

  datatype IommuError = Invalid | NoMemory | Busy | NotFound | Hardware

  /** Table memory and the list of free pages. */
  class PhysMem {
    var pages: Memory
    var free: seq<nat>

    constructor (free: seq<nat>)
      ensures this.free == free && pages == map[]
    {
      this.free, pages := free, map[];
    }

    /** A free page, zeroed. */
    method AllocZeroed() returns (r: Option<nat>)
      modifies this
      ensures if old(free) == [] then r == None && pages == old(pages) && free == []
              else var p := old(free)[|old(free)| - 1];
                   r == Some(p) && free == old(free)[..|old(free)| - 1] && pages == old(pages)[p := Zeros()]
    {
      if free == [] {
        return None;
      }
      var p := free[|free| - 1];
      free := free[..|free| - 1];
      pages := pages[p := Zeros()];
      r := Some(p);
    }

    method WriteWord(page: nat, i: nat, w: nat)
      requires page in pages && i < |pages[page]|
      modifies this`pages
      ensures pages == old(pages)[page := With(old(pages)[page], i, w)]
    {
      pages := pages[page := With(pages[page], i, w)];
    }

    method FreePage(p: nat)
      modifies this`free
      ensures free == old(free) + [p]
    {
      free := free + [p];
    }
  }

  /** The free pages: real ones, listed once, and none of them in use. */
  ghost predicate Stock(free: seq<nat>, inUse: set<nat>) {
    && (forall i :: 0 <= i < |free| ==> IsPage(free[i]) && free[i] !in inUse)
    && (forall i, j :: 0 <= i < j < |free| ==> free[i] != free[j])
  }

  ghost function SetOf(ps: seq<nat>): set<nat> {
    set p | p in ps
  }

  /** The tables grew by pages off the end of the free list; other pages are as they were. */
  ghost predicate Grew(s: Space, s': Space, pages: Memory, pages': Memory, free: seq<nat>, free': seq<nat>) {
    && Spells(pages', s') && s'.root == s.root
    && |free'| <= |free| && free' == free[..|free'|]
    && s'.tables == s.tables + SetOf(free[|free'|..])
    && forall p :: p in pages && p !in s'.tables ==> p in pages' && pages'[p] == pages[p]
  }

  lemma GrewStock(s: Space, s': Space, pages: Memory, pages': Memory, free: seq<nat>, free': seq<nat>)
    requires Grew(s, s', pages, pages', free, free') && Stock(free, s.tables)
    ensures Stock(free', s'.tables)
  {
    forall i | 0 <= i < |free'| ensures free'[i] !in SetOf(free[|free'|..]) {
      assert free'[i] == free[i];
    }
  }

  lemma GrewTwice(s: Space, s1: Space, s2: Space, p0: Memory, p1: Memory, p2: Memory, f0: seq<nat>, f1: seq<nat>,
                  f2: seq<nat>)
    requires Grew(s, s1, p0, p1, f0, f1) && Grew(s1, s2, p1, p2, f1, f2)
    ensures Grew(s, s2, p0, p2, f0, f2)
  {
    assert f0[|f2|..] == f1[|f2|..] + f0[|f1|..];
    assert f2 == f0[..|f2|];
  }

  lemma GrewNot(s: Space, pages: Memory, free: seq<nat>)
    requires Spells(pages, s)
    ensures Grew(s, s, pages, pages, free, free)
  {
    assert free[|free|..] == [];
  }

  lemma GrewOne(s: Space, s': Space, pages: Memory, pages': Memory, free: seq<nat>)
    requires free != [] && Spells(pages', s') && s'.root == s.root
    requires s'.tables == s.tables + {free[|free| - 1]}
    requires forall p :: p in pages && p !in s'.tables ==> p in pages' && pages'[p] == pages[p]
    ensures Grew(s, s', pages, pages', free, free[..|free| - 1])
  {
    assert free[|free| - 1..] == [free[|free| - 1]];
  }

  lemma GrewSecond(s: Space, s': Space, pages: Memory, pages': Memory, free: seq<nat>, a: nat, p: nat)
    requires Spells(pages, s) && Stock(free, s.tables) && a < 512 && a !in s.l2
    requires free != [] && p == free[|free| - 1] && s' == s.(l2 := s.l2[a := p], tables := s.tables + {p})
    requires pages' == pages[p := Zeros()][s.root := With(pages[s.root], a, p + TABLE_BITS)]
    ensures Grew(s, s', pages, pages', free, free[..|free| - 1])
  {
    AddSecond(pages, s, a, p);
    GrewOne(s, s', pages, pages', free);
  }

  lemma GrewThird(s: Space, s': Space, pages: Memory, pages': Memory, free: seq<nat>, a: nat, b: nat, p: nat)
    requires Spells(pages, s) && Stock(free, s.tables) && a in s.l2 && b < 512 && (a, b) !in s.l3
    requires free != [] && p == free[|free| - 1] && s' == s.(l3 := s.l3[(a, b) := p], tables := s.tables + {p})
    requires pages' == pages[p := Zeros()][s.l2[a] := With(pages[s.l2[a]], b, p + TABLE_BITS)]
    ensures Grew(s, s', pages, pages', free, free[..|free| - 1])
  {
    AddThird(pages, s, a, b, p);
    GrewOne(s, s', pages, pages', free);
  }

  /** What the first two levels hold. */
  lemma ReadRoot(pages: Memory, s: Space, a: nat)
    requires Spells(pages, s) && a < 512
    ensures s.root in pages && |pages[s.root]| == 512
    ensures TableValid(pages[s.root][a]) <==> a in s.l2
    ensures a in s.l2 ==> TablePtr(pages[s.root][a]) == s.l2[a]
  {
    WordBack(pages[s.root][a], Get(s.l2, a), TABLE_BITS);
  }

  lemma ReadTable(pages: Memory, s: Space, a: nat, b: nat)
    requires Spells(pages, s) && a in s.l2 && b < 512
    ensures s.l2[a] in pages && |pages[s.l2[a]]| == 512
    ensures TableValid(pages[s.l2[a]][b]) <==> (a, b) in s.l3
    ensures (a, b) in s.l3 ==> TablePtr(pages[s.l2[a]][b]) == s.l3[(a, b)]
  {
    WordBack(pages[s.l2[a]][b], Get(s.l3, (a, b)), TABLE_BITS);
  }

  lemma ReadLeaf(pages: Memory, s: Space, a: nat, b: nat, c: nat)
    requires Spells(pages, s) && (a, b) in s.l3 && c < 512
    ensures s.l3[(a, b)] in pages && |pages[s.l3[(a, b)]]| == 512
    ensures TableValid(pages[s.l3[(a, b)]][c]) <==> (a, b, c) in s.leaf
  {
    WordBack(pages[s.l3[(a, b)]][c], Get(s.leaf, (a, b, c)), LEAF_BITS);
  }

  /** Zeroing a fresh page and writing a word of another page. */
  lemma ZeroThenWrite(pages: Memory, p: nat, q: nat, i: nat, w: nat)
    requires p != q && q in pages && i < |pages[q]|
    ensures pages[p := Zeros()][q := With(pages[p := Zeros()][q], i, w)] ==
              pages[p := Zeros()][q := With(pages[q], i, w)]
  {}

  /** The second-level table for index `a`, allocated if it is not there. */
  method SecondTable(mem: PhysMem, root: nat, a: nat, ghost s: Space) returns (r: Option<nat>, ghost s': Space)
    requires Spells(mem.pages, s) && s.root == root && a < 512 && Stock(mem.free, s.tables)
    modifies mem
    ensures Grew(s, s', old(mem.pages), mem.pages, old(mem.free), mem.free) && s'.leaf == s.leaf && s'.l3 == s.l3
    ensures r.Some? ==> a in s'.l2 && r.value == s'.l2[a]
    ensures r.None? ==> old(mem.free) == [] && a !in s.l2
    ensures |old(mem.free)| <= |mem.free| + 1 && (r.None? ==> old(mem.free) == [])
  {
    ReadRoot(mem.pages, s, a);
    if TableValid(mem.pages[root][a]) {
      GrewNot(s, mem.pages, mem.free);
      return Some(TablePtr(mem.pages[root][a])), s;
    }
    s' := s;
    r := mem.AllocZeroed();
    if r.None? {
      GrewNot(s, mem.pages, mem.free);
      return;
    }
    var p := r.value;
    mem.WriteWord(root, a, p + TABLE_BITS);
    ZeroThenWrite(old(mem.pages), p, root, a, p + TABLE_BITS);
    s' := s.(l2 := s.l2[a := p], tables := s.tables + {p});
    GrewSecond(s, s', old(mem.pages), mem.pages, old(mem.free), a, p);
  }

  /** The third-level table for indices `a` and `b`, allocated if it is not there. */
  method ThirdTable(mem: PhysMem, second: nat, a: nat, b: nat, ghost s: Space) returns (r: Option<nat>, ghost s': Space)
    requires Spells(mem.pages, s) && a in s.l2 && s.l2[a] == second && b < 512 && Stock(mem.free, s.tables)
    modifies mem
    ensures Grew(s, s', old(mem.pages), mem.pages, old(mem.free), mem.free) && s'.leaf == s.leaf
    ensures r.Some? ==> (a, b) in s'.l3 && r.value == s'.l3[(a, b)]
    ensures r.None? ==> old(mem.free) == [] && (a, b) !in s.l3
    ensures |old(mem.free)| <= |mem.free| + 1 && (r.None? ==> old(mem.free) == [])
  {
    ReadTable(mem.pages, s, a, b);
    if TableValid(mem.pages[second][b]) {
      GrewNot(s, mem.pages, mem.free);
      return Some(TablePtr(mem.pages[second][b])), s;
    }
    s' := s;
    r := mem.AllocZeroed();
    if r.None? {
      GrewNot(s, mem.pages, mem.free);
      return;
    }
    var p := r.value;
    mem.WriteWord(second, b, p + TABLE_BITS);
    ZeroThenWrite(old(mem.pages), p, second, b, p + TABLE_BITS);
    s' := s.(l3 := s.l3[(a, b) := p], tables := s.tables + {p});
    GrewThird(s, s', old(mem.pages), mem.pages, old(mem.free), a, b, p);
  }

  lemma GrewLeaf(s: Space, s': Space, pages: Memory, pages': Memory, free: seq<nat>, k: (nat, nat))
    requires Spells(pages', s') && s'.root == s.root && s'.tables == s.tables && s.l3 == s'.l3 && k in s.l3
    requires forall p :: p in pages && p != s.l3[k] ==> p in pages' && pages'[p] == pages[p]
    ensures Grew(s, s', pages, pages', free, free)
  {
    assert free[|free|..] == [];
  }

  /** `pa & 0x0000_ffff_ffff_f000` for an aligned address. */
  function Phys(pa: nat): nat { pa % 0x1_0000_0000_0000 }

  lemma PhysPage(pa: nat)
    requires pa % 4096 == 0
    ensures IsPage(Phys(pa))
  {}

  lemma GrewFill(s: Space, s': Space, pages: Memory, pages': Memory, free: seq<nat>, a: nat, b: nat, c: nat, q: nat)
    requires Spells(pages, s) && (a, b) in s.l3 && c < 512 && IsPage(q)
    requires s' == s.(leaf := s.leaf[(a, b, c) := q])
    requires pages' == pages[s.l3[(a, b)] := With(pages[s.l3[(a, b)]], c, q + LEAF_BITS)]
    ensures Grew(s, s', pages, pages', free, free)
  {
    SetLeaf(pages, s, a, b, c, q);
    GrewLeaf(s, s', pages, pages', free, (a, b));
  }

  lemma GrewEmpty(s: Space, s': Space, pages: Memory, pages': Memory, free: seq<nat>, a: nat, b: nat, c: nat)
    requires Spells(pages, s) && (a, b) in s.l3 && c < 512 && s' == s.(leaf := s.leaf - {(a, b, c)})
    requires pages' == pages[s.l3[(a, b)] := With(pages[s.l3[(a, b)]], c, 0)]
    ensures Grew(s, s', pages, pages', free, free)
  {
    ClearLeaf(pages, s, a, b, c);
    GrewLeaf(s, s', pages, pages', free, (a, b));
  }

  /** Write one leaf entry unless it is taken. */
  method FillLeaf(mem: PhysMem, third: nat, a: nat, b: nat, c: nat, pa: nat, ghost s: Space)
    returns (ok: bool, ghost s': Space)
    requires Spells(mem.pages, s) && (a, b) in s.l3 && s.l3[(a, b)] == third && c < 512 && pa % 4096 == 0
    modifies mem`pages
    ensures Grew(s, s', old(mem.pages), mem.pages, mem.free, mem.free)
    ensures ok <==> (a, b, c) !in s.leaf
    ensures s'.leaf == if ok then s.leaf[(a, b, c) := Phys(pa)] else s.leaf
  {
    ReadLeaf(mem.pages, s, a, b, c);
    if TableValid(mem.pages[third][c]) {
      GrewNot(s, mem.pages, mem.free);
      return false, s;
    }
    mem.WriteWord(third, c, Phys(pa) + LEAF_BITS);
    ok, s' := true, s.(leaf := s.leaf[(a, b, c) := Phys(pa)]);
    PhysPage(pa);
    GrewFill(s, s', old(mem.pages), mem.pages, mem.free, a, b, c, Phys(pa));
  }

  lemma NoTable(pages: Memory, s: Space, a: nat, b: nat, c: nat)
    requires Spells(pages, s) && (a !in s.l2 || (a, b) !in s.l3)
    ensures (a, b, c) !in s.leaf
  {}

  /** The third-level table for both indices, with whatever tables it takes. */
  method Tables(mem: PhysMem, root: nat, a: nat, b: nat, ghost s: Space) returns (r: Option<nat>, ghost s': Space)
    requires Spells(mem.pages, s) && s.root == root && Stock(mem.free, s.tables) && a < 512 && b < 512
    modifies mem
    ensures Grew(s, s', old(mem.pages), mem.pages, old(mem.free), mem.free) && s'.leaf == s.leaf
    ensures r.Some? ==> (a, b) in s'.l3 && r.value == s'.l3[(a, b)]
    ensures r.None? ==> mem.free == [] && (a, b) !in s.l3
    ensures |old(mem.free)| <= |mem.free| + 2 && (r.None? ==> |old(mem.free)| < 2)
  {
    var second, s1 := SecondTable(mem, root, a, s);
    if second.None? {
      return None, s1;
    }
    GrewStock(s, s1, old(mem.pages), mem.pages, old(mem.free), mem.free);
    ghost var p1, f1 := mem.pages, mem.free;
    r, s' := ThirdTable(mem, second.value, a, b, s1);
    GrewTwice(s, s1, s', old(mem.pages), p1, mem.pages, old(mem.free), f1, mem.free);
  }

  /** Maps one page at its three indices. */
  method MapAt(mem: PhysMem, root: nat, a: nat, b: nat, c: nat, pa: nat, ghost s: Space)
    returns (r: Result<(), IommuError>, ghost s': Space)
    requires Spells(mem.pages, s) && s.root == root && Stock(mem.free, s.tables)
    requires a < 512 && b < 512 && c < 512 && pa % 4096 == 0
    modifies mem
    ensures Grew(s, s', old(mem.pages), mem.pages, old(mem.free), mem.free)
    ensures r.Ok? || r == Err(Busy) || (r == Err(NoMemory) && mem.free == [])
    ensures r == Err(Busy) <==> (a, b, c) in s.leaf
    ensures s'.leaf == if r.Ok? then s.leaf[(a, b, c) := Phys(pa)] else s.leaf
    ensures |old(mem.free)| <= |mem.free| + 2 && (r == Err(NoMemory) ==> |old(mem.free)| < 2)
  {
    var third, s1 := Tables(mem, root, a, b, s);
    if third.None? {
      NoTable(old(mem.pages), s, a, b, c);
      return Err(NoMemory), s1;
    }
    ghost var p1, f1 := mem.pages, mem.free;
    var ok;
    ok, s' := FillLeaf(mem, third.value, a, b, c, pa, s1);
    GrewTwice(s, s1, s', old(mem.pages), p1, mem.pages, old(mem.free), f1, mem.free);
    r := if ok then Ok(()) else Err(Busy);
  }

  predicate BadPage(iova: nat, pa: nat) {
    iova % 4096 != 0 || pa % 4096 != 0 || iova >= 0x1_0000_0000
  }

  /** The indices of an address, by the shifts and masks of the source. */
  function Index1(iova: nat): nat { iova / 0x4000_0000 % 512 }
  function Index2(iova: nat): nat { iova / 0x20_0000 % 512 }
  function Index3(iova: nat): nat { iova / 0x1000 % 512 }

  lemma PathOf(iova: nat)
    requires iova < 0x1_0000_0000
    ensures Path(iova / 4096) == (Index1(iova), Index2(iova), Index3(iova))
    ensures Index1(iova) < 512 && Index2(iova) < 512 && Index3(iova) < 512
  {
    Indices(iova);
  }

  /**
   * What the hardware finds changed, byte by byte: all of page `v` now is at `to`, open to reads and writes, and
   * every other address is as before; with no `to`, that goes for page `v` too.
   */
  ghost predicate WalksTo(pages: Memory, pages': Memory, root: nat, v: nat, to: Option<nat>) {
    forall x :: 0 <= x < 0x80_0000_0000 ==>
      HardwareWalk(pages', root, x) ==
      if to.Some? && x / 4096 == v then Reached(to.value + x % 4096, 15, 3, 3) else HardwareWalk(pages, root, x)
  }

  /** The hardware now faults on page `v`, and finds every other address as before. */
  ghost predicate WalksOff(pages: Memory, pages': Memory, root: nat, v: nat) {
    forall x :: 0 <= x < 0x80_0000_0000 ==>
      HardwareWalk(pages', root, x) == if x / 4096 == v then Fault else HardwareWalk(pages, root, x)
  }

  lemma SeenAfter(leaf: map<(nat, nat, nat), nat>, v: nat, p: nat, x: nat)
    requires v < 0x800_0000 && x < 0x80_0000_0000
    ensures Seen(leaf[Path(v) := p], x) == if x / 4096 == v then Reached(p + x % 4096, 15, 3, 3) else Seen(leaf, x)
    ensures Seen(leaf - {Path(v)}, x) == if x / 4096 == v then Fault else Seen(leaf, x)
  {
    if Path(x / 4096) == Path(v) { PathInjective(x / 4096, v); }
  }

  lemma WalkMapped(pages: Memory, pages': Memory, s: Space, s': Space, v: nat, p: nat)
    requires Spells(pages, s) && Spells(pages', s') && s'.root == s.root && v < 0x800_0000
    requires s'.leaf == s.leaf[Path(v) := p]
    ensures WalksTo(pages, pages', s.root, v, Some(p))
  {
    forall x | 0 <= x < 0x80_0000_0000
      ensures HardwareWalk(pages', s.root, x) ==
              if x / 4096 == v then Reached(p + x % 4096, 15, 3, 3) else HardwareWalk(pages, s.root, x)
    {
      HardwareIs(pages, s, x);
      HardwareIs(pages', s', x);
      SeenAfter(s.leaf, v, p, x);
    }
  }

  lemma WalkUnmapped(pages: Memory, pages': Memory, s: Space, s': Space, v: nat)
    requires Spells(pages, s) && Spells(pages', s') && s'.root == s.root && v < 0x800_0000
    requires s'.leaf == s.leaf - {Path(v)}
    ensures WalksOff(pages, pages', s.root, v)
  {
    forall x | 0 <= x < 0x80_0000_0000
      ensures HardwareWalk(pages', s.root, x) == if x / 4096 == v then Fault else HardwareWalk(pages, s.root, x)
    {
      HardwareIs(pages, s, x);
      HardwareIs(pages', s', x);
      SeenAfter(s.leaf, v, 0, x);
    }
  }

  lemma WalkSame(pages: Memory, pages': Memory, s: Space, s': Space, v: nat)
    requires Spells(pages, s) && Spells(pages', s') && s'.root == s.root && s'.leaf == s.leaf
    ensures WalksTo(pages, pages', s.root, v, None)
  {
    forall x | 0 <= x < 0x80_0000_0000
      ensures HardwareWalk(pages', s.root, x) == HardwareWalk(pages, s.root, x)
    {
      HardwareIs(pages, s, x);
      HardwareIs(pages', s', x);
    }
  }

  /**
   * Maps one page. Memory runs out only with the free list empty; every failure leaves the mapped
   * pages as they were, with the tables added so far in place and owned by the space.
   */
  method MapPage(mem: PhysMem, root: nat, iova: nat, pa: nat, ghost s: Space)
    returns (r: Result<(), IommuError>, ghost s': Space)
    requires Spells(mem.pages, s) && s.root == root && Stock(mem.free, s.tables)
    modifies mem
    ensures Grew(s, s', old(mem.pages), mem.pages, old(mem.free), mem.free)
    ensures r == Err(Invalid) <==> BadPage(iova, pa)
    ensures r == Err(Busy) <==> !BadPage(iova, pa) && Path(iova / 4096) in s.leaf
    ensures r.Ok? || r == Err(Invalid) || r == Err(Busy) || (r == Err(NoMemory) && mem.free == [])
    ensures s'.leaf == if r.Ok? then s.leaf[Path(iova / 4096) := Phys(pa)] else s.leaf
    ensures |old(mem.free)| <= |mem.free| + 2 && (r == Err(NoMemory) ==> |old(mem.free)| < 2)
    ensures WalksTo(old(mem.pages), mem.pages, root, iova / 4096,
              if r.Ok? then Some(pa % 0x1_0000_0000_0000) else None)
  {
    if BadPage(iova, pa) {
      GrewNot(s, mem.pages, mem.free);
      return Err(Invalid), s;
    }
    PathOf(iova);
    r, s' := MapAt(mem, root, Index1(iova), Index2(iova), Index3(iova), pa, s);
    if r.Ok? {
      WalkMapped(old(mem.pages), mem.pages, s, s', iova / 4096, Phys(pa));
    } else {
      WalkSame(old(mem.pages), mem.pages, s, s', iova / 4096);
    }
  }

  /** Clears one leaf entry at its three indices: true exactly when it was there. */
  method UnmapAt(mem: PhysMem, root: nat, a: nat, b: nat, c: nat, ghost s: Space) returns (ok: bool, ghost s': Space)
    requires Spells(mem.pages, s) && s.root == root && a < 512 && b < 512 && c < 512
    modifies mem`pages
    ensures Grew(s, s', old(mem.pages), mem.pages, mem.free, mem.free)
    ensures ok <==> (a, b, c) in s.leaf
    ensures s'.leaf == s.leaf - {(a, b, c)}
  {
    GrewNot(s, mem.pages, mem.free);
    ok, s' := false, s;
    ReadRoot(mem.pages, s, a);
    var e1 := mem.pages[root][a];
    if !TableValid(e1) {
      NoTable(old(mem.pages), s, a, b, c);
      NotMapped(s.leaf, (a, b, c));
      return;
    }
    ReadTable(mem.pages, s, a, b);
    var e2 := mem.pages[TablePtr(e1)][b];
    if !TableValid(e2) {
      NoTable(old(mem.pages), s, a, b, c);
      NotMapped(s.leaf, (a, b, c));
      return;
    }
    ok, s' := EmptyLeaf(mem, TablePtr(e2), a, b, c, s);
  }

  method EmptyLeaf(mem: PhysMem, third: nat, a: nat, b: nat, c: nat, ghost s: Space) returns (ok: bool, ghost s': Space)
    requires Spells(mem.pages, s) && (a, b) in s.l3 && s.l3[(a, b)] == third && c < 512
    modifies mem`pages
    ensures Grew(s, s', old(mem.pages), mem.pages, mem.free, mem.free)
    ensures ok <==> (a, b, c) in s.leaf
    ensures s'.leaf == s.leaf - {(a, b, c)}
  {
    ReadLeaf(mem.pages, s, a, b, c);
    if !TableValid(mem.pages[third][c]) {
      GrewNot(s, mem.pages, mem.free);
      NotMapped(s.leaf, (a, b, c));
      return false, s;
    }
    mem.WriteWord(third, c, 0);
    ok, s' := true, s.(leaf := s.leaf - {(a, b, c)});
    GrewEmpty(s, s', old(mem.pages), mem.pages, mem.free, a, b, c);
  }

  /** Unmaps one page: true exactly when it was mapped. */
  method UnmapPage(mem: PhysMem, root: nat, iova: nat, ghost s: Space) returns (ok: bool, ghost s': Space)
    requires Spells(mem.pages, s) && s.root == root
    modifies mem`pages
    ensures Grew(s, s', old(mem.pages), mem.pages, mem.free, mem.free)
    ensures ok <==> !BadPage(iova, 0) && Path(iova / 4096) in s.leaf
    ensures s'.leaf == if BadPage(iova, 0) then s.leaf else s.leaf - {Path(iova / 4096)}
    ensures if ok then WalksOff(old(mem.pages), mem.pages, root, iova / 4096)
            else WalksTo(old(mem.pages), mem.pages, root, iova / 4096, None)
  {
    if BadPage(iova, 0) {
      GrewNot(s, mem.pages, mem.free);
      return false, s;
    }
    PathOf(iova);
    ok, s' := UnmapAt(mem, root, Index1(iova), Index2(iova), Index3(iova), s);
    if ok {
      WalkUnmapped(old(mem.pages), mem.pages, s, s', iova / 4096);
    } else {
      WalkSame(old(mem.pages), mem.pages, s, s', iova / 4096);
    }
  }

  lemma NotMapped(leaf: map<(nat, nat, nat), nat>, t: (nat, nat, nat))
    requires t !in leaf
    ensures leaf == leaf - {t}
  {}

  // ---- Freeing a space's tables ----

  ghost predicate Once(ps: seq<nat>) {
    forall i, j :: 0 <= i < j < |ps| ==> ps[i] != ps[j]
  }

  lemma OncePlus(ps: seq<nat>, p: nat)
    requires Once(ps) && p !in SetOf(ps)
    ensures Once(ps + [p])
  {
    forall i | 0 <= i < |ps| ensures ps[i] != p { assert ps[i] in SetOf(ps); }
  }

  lemma SetOfPlus(ps: seq<nat>, p: nat)
    ensures SetOf(ps + [p]) == SetOf(ps) + {p}
  {}

  /** The second- and third-level tables under the first `i` root entries. */
  ghost function Under(s: Space, i: nat): set<nat> {
    (set a | a in s.l2 && a < i :: s.l2[a]) + (set k | k in s.l3 && k.0 < i :: s.l3[k])
  }

  /** The third-level tables under the first `j` entries of second-level table `a`. */
  ghost function Row(s: Space, a: nat, j: nat): set<nat> {
    set k | k in s.l3 && k.0 == a && k.1 < j :: s.l3[k]
  }

  lemma RowStep(s: Space, a: nat, j: nat)
    requires Separate(s)
    ensures (a, j) !in s.l3 ==> Row(s, a, j + 1) == Row(s, a, j)
    ensures (a, j) in s.l3 ==> Row(s, a, j + 1) == Row(s, a, j) + {s.l3[(a, j)]}
    ensures (a, j) in s.l3 ==> s.l3[(a, j)] !in Under(s, a) + Row(s, a, j)
  {
    forall k | k in s.l3 && k.0 == a && k.1 < j + 1 && k != (a, j) ensures s.l3[k] in Row(s, a, j) {}
  }

  lemma UnderStep(s: Space, a: nat)
    requires Rooted(s) && Separate(s)
    ensures a !in s.l2 ==> Under(s, a + 1) == Under(s, a)
    ensures a in s.l2 ==> Under(s, a + 1) == Under(s, a) + Row(s, a, 512) + {s.l2[a]}
    ensures a in s.l2 ==> s.l2[a] !in Under(s, a) + Row(s, a, 512)
  {
    if a in s.l2 {
      forall k | k in s.l3 && k.0 < a + 1 ensures s.l3[k] in Under(s, a) + Row(s, a, 512) {
        assert k.0 < a || s.l3[k] in Row(s, a, 512);
      }
      assert s.l2[a] in Under(s, a + 1);
    }
  }

  lemma UnderAll(s: Space, pages: Memory)
    requires Spells(pages, s)
    ensures s.tables == Under(s, 512) + {s.root} && s.root !in Under(s, 512)
  {
    forall p | p in s.tables && p != s.root ensures p in Under(s, 512) {
      assert IsTable(s, p);
      if p in s.l2.Values {
        var a :| a in s.l2 && s.l2[a] == p;
      } else {
        var k :| k in s.l3 && s.l3[k] == p;
        assert k.0 in s.l2;
      }
    }
  }

  /** One more third-level table freed. */
  lemma RowFreed(s: Space, a: nat, j: nat, done: seq<nat>)
    requires Separate(s) && (a, j) in s.l3 && Once(done) && SetOf(done) == Under(s, a) + Row(s, a, j)
    ensures var done' := done + [s.l3[(a, j)]]; Once(done') && SetOf(done') == Under(s, a) + Row(s, a, j + 1)
  {
    RowStep(s, a, j);
    OncePlus(done, s.l3[(a, j)]);
    SetOfPlus(done, s.l3[(a, j)]);
  }

  /** One second-level table freed after those under it. */
  lemma TableFreed(s: Space, a: nat, done: seq<nat>)
    requires Rooted(s) && Separate(s) && a in s.l2 && Once(done) && SetOf(done) == Under(s, a) + Row(s, a, 512)
    ensures var done' := done + [s.l2[a]]; Once(done') && SetOf(done') == Under(s, a + 1)
  {
    UnderStep(s, a);
    OncePlus(done, s.l2[a]);
    SetOfPlus(done, s.l2[a]);
  }

  /** Frees the third-level tables of one second-level table. */
  method FreeRow(mem: PhysMem, second: nat, a: nat, ghost s: Space, ghost done: seq<nat>)
    returns (ghost done': seq<nat>)
    requires Spells(mem.pages, s) && a in s.l2 && s.l2[a] == second
    requires Once(done) && SetOf(done) == Under(s, a)
    modifies mem`free
    ensures Once(done') && SetOf(done') == Under(s, a) + Row(s, a, 512)
    ensures done <= done' && mem.free == old(mem.free) + done'[|done|..]
  {
    done' := done;
    ReadTable(mem.pages, s, a, 0);
    for j := 0 to 512
      invariant Once(done') && SetOf(done') == Under(s, a) + Row(s, a, j)
      invariant done <= done' && mem.free == old(mem.free) + done'[|done|..]
    {
      ReadTable(mem.pages, s, a, j);
      var e := mem.pages[second][j];
      if !TableValid(e) {
        RowStep(s, a, j);
      } else {
        RowFreed(s, a, j, done');
        mem.FreePage(TablePtr(e));
        done' := done' + [TablePtr(e)];
      }
    }
  }

  /** Frees every table of a space, each exactly once. */
  method FreeTables(mem: PhysMem, root: nat, ghost s: Space) returns (ghost done: seq<nat>)
    requires Spells(mem.pages, s) && s.root == root
    modifies mem`free
    ensures Once(done) && SetOf(done) == s.tables && mem.free == old(mem.free) + done
  {
    done := [];
    ReadRoot(mem.pages, s, 0);
    for i := 0 to 512
      invariant Once(done) && SetOf(done) == Under(s, i) && mem.free == old(mem.free) + done
    {
      ReadRoot(mem.pages, s, i);
      var e := mem.pages[root][i];
      if !TableValid(e) {
        UnderStep(s, i);
      } else {
        ghost var before := done;
        done := FreeRow(mem, TablePtr(e), i, s, done);
        assert before + done[|before|..] == done;
        TableFreed(s, i, done);
        mem.FreePage(TablePtr(e));
        done := done + [TablePtr(e)];
      }
    }
    UnderAll(s, mem.pages);
    OncePlus(done, root);
    SetOfPlus(done, root);
    mem.FreePage(root);
    done := done + [root];
  }
}

/** The translation domains of `microkernel/src/iommu.rs` and the mappings recorded for each. */
module Domains {
  import opened Common
  import opened Stage2
  import opened FirstFit
  import opened Iommu

  type Leaf = map<(nat, nat, nat), nat>

  // ---- Runs of pages ----

  /** `n` pages mapped from page `first` on. */
  ghost function Laid(leaf: Leaf, first: nat, phys: nat, n: nat): Leaf {
    if n == 0 then leaf else Laid(leaf, first, phys, n - 1)[Path(first + n - 1) := Phys(phys + (n - 1) * 4096)]
  }

  /** `n` pages unmapped from page `first` on. */
  ghost function Cleared(leaf: Leaf, first: nat, n: nat): Leaf {
    if n == 0 then leaf else Cleared(leaf, first, n - 1) - {Path(first + n - 1)}
  }

  lemma {:induction false} LaidAt(leaf: Leaf, first: nat, phys: nat, n: nat, v: nat)
    requires first + n <= 0x800_0000 && v < 0x800_0000
    ensures Get(Laid(leaf, first, phys, n), Path(v)) ==
            if first <= v < first + n then Some(Phys(phys + (v - first) * 4096)) else Get(leaf, Path(v))
  {
    if n != 0 {
      LaidAt(leaf, first, phys, n - 1, v);
      if Path(v) == Path(first + n - 1) { PathInjective(v, first + n - 1); }
    }
  }

  lemma {:induction false} ClearedAt(leaf: Leaf, first: nat, n: nat, v: nat)
    requires first + n <= 0x800_0000 && v < 0x800_0000
    ensures Get(Cleared(leaf, first, n), Path(v)) == if first <= v < first + n then None else Get(leaf, Path(v))
  {
    if n != 0 {
      ClearedAt(leaf, first, n - 1, v);
      if Path(v) == Path(first + n - 1) { PathInjective(v, first + n - 1); }
    }
  }

  /** Keys are triples of table indices. */
  ghost predicate Indexed(leaf: Leaf) {
    forall t :: t in leaf ==> t.0 < 512 && t.1 < 512 && t.2 < 512
  }

  lemma SpelledIndexed(pages: Memory, s: Space)
    requires Spells(pages, s)
    ensures Indexed(s.leaf)
  {}

  lemma PathOnto(t: (nat, nat, nat)) returns (v: nat)
    requires t.0 < 512 && t.1 < 512 && t.2 < 512
    ensures v < 0x800_0000 && Path(v) == t
  {
    v := (t.0 * 512 + t.1) * 512 + t.2;
    assert v / 512 == t.0 * 512 + t.1;
  }

  lemma SameLeaf(x: Leaf, y: Leaf)
    requires Indexed(x) && Indexed(y) && forall v :: 0 <= v < 0x800_0000 ==> Get(x, Path(v)) == Get(y, Path(v))
    ensures x == y
  {
    forall t | t in x || t in y ensures Get(x, t) == Get(y, t) {
      var v := PathOnto(t);
    }
  }

  /** None of the `n` pages from `first` on is mapped. */
  ghost predicate Unmapped(leaf: Leaf, first: nat, n: nat) {
    forall v :: first <= v < first + n ==> Path(v) !in leaf
  }

  lemma UnmappedFewer(leaf: Leaf, first: nat, n: nat, k: nat)
    requires Unmapped(leaf, first, n) && k < n
    ensures Unmapped(leaf, first, k) && Path(first + k) !in leaf
  {}

  /** Undoing a run of pages that were free before puts everything back. */
  lemma Undone(leaf: Leaf, first: nat, phys: nat, n: nat)
    requires first + n <= 0x800_0000
    requires Unmapped(leaf, first, n)
    requires Indexed(leaf) && Indexed(Cleared(Laid(leaf, first, phys, n), first, n))
    ensures Cleared(Laid(leaf, first, phys, n), first, n) == leaf
  {
    forall v | 0 <= v < 0x800_0000
      ensures Get(Cleared(Laid(leaf, first, phys, n), first, n), Path(v)) == Get(leaf, Path(v))
    {
      ClearedAt(Laid(leaf, first, phys, n), first, n, v);
      LaidAt(leaf, first, phys, n, v);
    }
    SameLeaf(Cleared(Laid(leaf, first, phys, n), first, n), leaf);
  }

  lemma AlignedSum(pa: nat, n: nat)
    requires pa % 4096 == 0
    ensures (pa + n * 4096) % 4096 == 0
  {}

  lemma PageOf(at: nat, v: nat)
    requires at == v * 4096 && v < 0x10_0000
    ensures at / 4096 == v && !BadPage(at, 0)
  {}

  /** Unmaps page `v`. */
  method UnmapNumber(mem: PhysMem, root: nat, at: nat, ghost v: nat, ghost s: Space) returns (ghost s': Space)
    requires Spells(mem.pages, s) && s.root == root && at == v * 4096 && v < 0x10_0000
    modifies mem`pages
    ensures Grew(s, s', old(mem.pages), mem.pages, mem.free, mem.free) && s'.leaf == s.leaf - {Path(v)}
  {
    PageOf(at, v);
    var wasMapped;
    wasMapped, s' := UnmapPage(mem, root, at, s);
  }

  /** Maps page `v`, which is not mapped. */
  method MapNumber(mem: PhysMem, root: nat, at: nat, pa: nat, ghost v: nat, ghost s: Space)
    returns (r: Result<(), IommuError>, ghost s': Space)
    requires Spells(mem.pages, s) && s.root == root && Stock(mem.free, s.tables)
    requires at == v * 4096 && pa % 4096 == 0 && v < 0x10_0000 && Path(v) !in s.leaf
    modifies mem
    ensures Grew(s, s', old(mem.pages), mem.pages, old(mem.free), mem.free) && Stock(mem.free, s'.tables)
    ensures r.Ok? || (r == Err(NoMemory) && mem.free == [])
    ensures s'.leaf == if r.Ok? then s.leaf[Path(v) := Phys(pa)] else s.leaf
    ensures |old(mem.free)| <= |mem.free| + 2 && (r == Err(NoMemory) ==> |old(mem.free)| < 2)
  {
    PageOf(at, v);
    r, s' := MapPage(mem, root, at, pa, s);
    GrewStock(s, s', old(mem.pages), mem.pages, old(mem.free), mem.free);
  }

  /** Where a loop over the pages of a run stands. */
  ghost predicate Clearing(s: Space, s': Space, pages: Memory, pages': Memory, free: seq<nat>, first: nat, done: nat) {
    Grew(s, s', pages, pages', free, free) && s'.leaf == Cleared(s.leaf, first, done)
  }

  ghost predicate Laying(s: Space, s': Space, pages: Memory, pages': Memory, free: seq<nat>, free': seq<nat>,
                         first: nat, pa: nat, done: nat) {
    && Grew(s, s', pages, pages', free, free') && Stock(free', s'.tables)
    && s'.leaf == Laid(s.leaf, first, pa, done)
  }

  lemma ClearedNext(leaf: Leaf, first: nat, n: nat, v: nat)
    requires v == first + n
    ensures Cleared(leaf, first, n) - {Path(v)} == Cleared(leaf, first, n + 1)
  {}

  /** One page more of a run to unmap. */
  method UnmapNext(mem: PhysMem, root: nat, iova: nat, done: nat, ghost first: nat, ghost s: Space, ghost t: Space,
                   ghost pages: Memory)
    returns (ghost s': Space)
    requires s.root == root && iova == first * 4096 && first + done < 0x10_0000
    requires Clearing(s, t, pages, mem.pages, mem.free, first, done)
    modifies mem`pages
    ensures Clearing(s, s', pages, mem.pages, mem.free, first, done + 1)
  {
    ghost var v := first + done;
    var at := iova + done * 4096;
    ClearedNext(s.leaf, first, done, v);
    s' := UnmapNumber(mem, root, at, v, t);
    GrewTwice(s, t, s', pages, old(mem.pages), mem.pages, mem.free, mem.free, mem.free);
  }

  /** Unmaps `n` pages from `iova` on. */
  method UnmapRange(mem: PhysMem, root: nat, iova: nat, n: nat, ghost first: nat, ghost s: Space)
    returns (ghost s': Space)
    requires Spells(mem.pages, s) && s.root == root && iova == first * 4096 && first + n <= 0x10_0000
    modifies mem`pages
    ensures Clearing(s, s', old(mem.pages), mem.pages, mem.free, first, n)
  {
    s' := s;
    GrewNot(s, mem.pages, mem.free);
    for i := 0 to n
      invariant Clearing(s, s', old(mem.pages), mem.pages, mem.free, first, i)
    {
      s' := UnmapNext(mem, root, iova, i, first, s, s', old(mem.pages));
    }
  }

  method RollBack(mem: PhysMem, root: nat, iova: nat, pa: nat, done: nat, ghost first: nat, ghost s: Space,
                  ghost t: Space,
                  ghost pages: Memory, ghost free: seq<nat>)
    returns (ghost s': Space)
    requires Spells(pages, s) && s.root == root && iova == first * 4096 && first + done <= 0x10_0000
    requires Unmapped(s.leaf, first, done)
    requires Grew(s, t, pages, mem.pages, free, mem.free) && t.leaf == Laid(s.leaf, first, pa, done)
    modifies mem`pages
    ensures Grew(s, s', pages, mem.pages, free, mem.free) && s'.leaf == s.leaf
  {
    s' := UnmapRange(mem, root, iova, done, first, t);
    GrewTwice(s, t, s', pages, old(mem.pages), mem.pages, free, mem.free, mem.free);
    SpelledIndexed(pages, s);
    SpelledIndexed(mem.pages, s');
    Undone(s.leaf, first, pa, done);
  }

  lemma LaidNext(leaf: Leaf, first: nat, phys: nat, n: nat, v: nat, q: nat)
    requires v == first + n < 0x800_0000 && q == Phys(phys + n * 4096)
    ensures Path(v) in Laid(leaf, first, phys, n) <==> Path(v) in leaf
    ensures Laid(leaf, first, phys, n)[Path(v) := q] == Laid(leaf, first, phys, n + 1)
  {
    LaidAt(leaf, first, phys, n, v);
  }

  /** One page more of a run. */
  method MapNext(mem: PhysMem, root: nat, iova: nat, pa: nat, done: nat, ghost first: nat, ghost s: Space,
                 ghost t: Space,
                 ghost pages: Memory, ghost free: seq<nat>)
    returns (r: Result<(), IommuError>, ghost s': Space)
    requires s.root == root && iova == first * 4096 && first + done < 0x10_0000 && pa % 4096 == 0
    requires Path(first + done) !in s.leaf
    requires Laying(s, t, pages, mem.pages, free, mem.free, first, pa, done)
    modifies mem
    ensures r.Ok? || (r == Err(NoMemory) && mem.free == [])
    ensures Laying(s, s', pages, mem.pages, free, mem.free, first, pa, if r.Ok? then done + 1 else done)
    ensures |old(mem.free)| <= |mem.free| + 2 && (r == Err(NoMemory) ==> |old(mem.free)| < 2)
  {
    ghost var v := first + done;
    var at, q := iova + done * 4096, pa + done * 4096;
    LaidNext(s.leaf, first, pa, done, v, Phys(q));
    AlignedSum(pa, done);
    r, s' := MapNumber(mem, root, at, q, v, t);
    GrewTwice(s, t, s', pages, old(mem.pages), mem.pages, free, old(mem.free), mem.free);
  }

  /** One page more, or every page so far taken back. */
  method MapOrUndo(mem: PhysMem, root: nat, iova: nat, pa: nat, done: nat, ghost first: nat, ghost s: Space,
                   ghost t: Space,
                   ghost pages: Memory, ghost free: seq<nat>)
    returns (r: Result<(), IommuError>, ghost s': Space)
    requires Spells(pages, s) && s.root == root && iova == first * 4096 && first + done < 0x10_0000 && pa % 4096 == 0
    requires Unmapped(s.leaf, first, done) && Path(first + done) !in s.leaf
    requires Laying(s, t, pages, mem.pages, free, mem.free, first, pa, done) && |free| <= |mem.free| + 2 * done
    modifies mem
    ensures r.Ok? || (r == Err(NoMemory) && mem.free == [])
    ensures r.Ok? ==> Laying(s, s', pages, mem.pages, free, mem.free, first, pa, done + 1)
    ensures r.Err? ==> Grew(s, s', pages, mem.pages, free, mem.free) && s'.leaf == s.leaf
    ensures |free| <= (if r.Ok? then |mem.free| + 2 else 1) + 2 * done
  {
    r, s' := MapNext(mem, root, iova, pa, done, first, s, t, pages, free);
    if r.Err? {
      s' := RollBack(mem, root, iova, pa, done, first, s, s', pages, free);
    }
  }

  /**
   * Maps `pages` pages from `iova` on, all of which are unmapped. The only failure is running out of
   * table memory, and then every page mapped so far is unmapped again.
   */
  method MapRange(mem: PhysMem, root: nat, iova: nat, pa: nat, pages: nat, ghost first: nat, ghost s: Space)
    returns (r: Result<(), IommuError>, ghost s': Space)
    requires Spells(mem.pages, s) && s.root == root && Stock(mem.free, s.tables)
    requires iova == first * 4096 && pa % 4096 == 0 && first + pages <= 0x10_0000
    requires Unmapped(s.leaf, first, pages)
    modifies mem
    ensures Grew(s, s', old(mem.pages), mem.pages, old(mem.free), mem.free)
    ensures r.Ok? || (r == Err(NoMemory) && mem.free == [])
    ensures s'.leaf == if r.Ok? then Laid(s.leaf, first, pa, pages) else s.leaf
    ensures r == Err(NoMemory) ==> |old(mem.free)| < 2 * pages
  {
    var done := 0;
    r, s' := Ok(()), s;
    GrewNot(s, mem.pages, mem.free);
    while done < pages
      invariant done <= pages && r.Ok? && |old(mem.free)| <= |mem.free| + 2 * done
      invariant Laying(s, s', old(mem.pages), mem.pages, old(mem.free), mem.free, first, pa, done)
    {
      UnmappedFewer(s.leaf, first, pages, done);
      r, s' := MapOrUndo(mem, root, iova, pa, done, first, s, s', old(mem.pages), old(mem.free));
      if r.Err? {
        return;
      }
      done := done + 1;
    }
  }

  // ---- Mappings as recorded ----

  predicate Covers(m: Mapping, v: nat) {
    m.iova / 4096 <= v < m.iova / 4096 + m.pages
  }

  /** Where a mapping takes page `v`. */
  function Target(m: Mapping, v: nat): nat
    requires Covers(m, v)
  {
    Phys(m.phys + (v - m.iova / 4096) * 4096)
  }

  predicate InWindow(m: Mapping) {
    && m.iova % 4096 == 0 && m.phys % 4096 == 0 && m.pages >= 1
    && DMA_IOVA_BASE <= m.iova && m.iova + m.pages * 4096 <= DMA_IOVA_END
  }

  /** Mappings lie in the window and do not overlap. */
  ghost predicate Tidy(ms: seq<Mapping>) {
    && (forall i :: 0 <= i < |ms| ==> InWindow(ms[i]))
    && (forall i, j, v :: 0 <= i < j < |ms| && Covers(ms[i], v) ==> !Covers(ms[j], v))
  }

  ghost predicate Covered(ms: seq<Mapping>, v: nat) {
    exists i :: 0 <= i < |ms| && Covers(ms[i], v)
  }

  /** The mapped pages are exactly the recorded ones, each going where its record says. */
  ghost predicate Describes(ms: seq<Mapping>, leaf: Leaf) {
    && (forall i, v :: 0 <= i < |ms| && 0 <= v < 0x800_0000 && Covers(ms[i], v) ==>
          Get(leaf, Path(v)) == Some(Target(ms[i], v)))
    && (forall v :: 0 <= v < 0x800_0000 && Path(v) in leaf ==> Covered(ms, v))
  }

  /** A range that fits among the recorded ones covers none of their pages. */
  lemma FitsApart(ms: seq<Mapping>, iova: nat, pages: nat, i: nat, v: nat)
    requires Fits(IovaRanges(ms), pages * 4096, iova) && iova % 4096 == 0 && i < |ms| && InWindow(ms[i])
    requires iova / 4096 <= v < iova / 4096 + pages
    ensures !Covers(ms[i], v)
  {
    assert IovaRanges(ms)[i] == Range(ms[i].iova, ms[i].pages * 4096);
  }

  lemma AddedForward(ms: seq<Mapping>, leaf: Leaf, m: Mapping, i: nat, v: nat)
    requires Describes(ms, leaf) && InWindow(m) && i <= |ms| && v < 0x800_0000 && Covers((ms + [m])[i], v)
    requires i < |ms| ==> !Covers(m, v)
    ensures Get(Laid(leaf, m.iova / 4096, m.phys, m.pages), Path(v)) == Some(Target((ms + [m])[i], v))
  {
    LaidAt(leaf, m.iova / 4096, m.phys, m.pages, v);
    if i < |ms| { assert Covers(ms[i], v); }
  }

  lemma AddedBack(ms: seq<Mapping>, leaf: Leaf, m: Mapping, v: nat)
    requires Describes(ms, leaf) && InWindow(m) && v < 0x800_0000
    requires Path(v) in Laid(leaf, m.iova / 4096, m.phys, m.pages)
    ensures Covered(ms + [m], v)
  {
    LaidAt(leaf, m.iova / 4096, m.phys, m.pages, v);
    if Covers(m, v) {
      assert Covers((ms + [m])[|ms|], v);
    } else {
      var i :| 0 <= i < |ms| && Covers(ms[i], v);
      assert Covers((ms + [m])[i], v);
    }
  }

  lemma DescribesAdd(ms: seq<Mapping>, leaf: Leaf, m: Mapping)
    requires Tidy(ms) && Describes(ms, leaf) && InWindow(m)
    requires forall i, v :: 0 <= i < |ms| && Covers(ms[i], v) ==> !Covers(m, v)
    ensures Tidy(ms + [m]) && Describes(ms + [m], Laid(leaf, m.iova / 4096, m.phys, m.pages))
  {
    var leaf', ms' := Laid(leaf, m.iova / 4096, m.phys, m.pages), ms + [m];
    forall i, v | 0 <= i < |ms'| && 0 <= v < 0x800_0000 && Covers(ms'[i], v)
      ensures Get(leaf', Path(v)) == Some(Target(ms'[i], v))
    {
      if i < |ms| { assert Covers(ms[i], v); }
      AddedForward(ms, leaf, m, i, v);
    }
    forall v | 0 <= v < 0x800_0000 && Path(v) in leaf' ensures Covered(ms', v) {
      AddedBack(ms, leaf, m, v);
    }
  }

  function Without<T>(xs: seq<T>, i: nat): seq<T>
    requires i < |xs|
  {
    xs[..i] + xs[i + 1..]
  }

  lemma RemovedForward(ms: seq<Mapping>, leaf: Leaf, k: nat, o: nat, v: nat)
    requires Tidy(ms) && Describes(ms, leaf) && k < |ms| && o < |ms| && o != k && v < 0x800_0000 && Covers(ms[o], v)
    ensures Get(Cleared(leaf, ms[k].iova / 4096, ms[k].pages), Path(v)) == Some(Target(ms[o], v))
  {
    ClearedAt(leaf, ms[k].iova / 4096, ms[k].pages, v);
    assert !Covers(ms[k], v);
  }

  lemma RemovedBack(ms: seq<Mapping>, leaf: Leaf, k: nat, v: nat)
    requires Tidy(ms) && Describes(ms, leaf) && k < |ms| && v < 0x800_0000
    requires Path(v) in Cleared(leaf, ms[k].iova / 4096, ms[k].pages)
    ensures Covered(Without(ms, k), v)
  {
    ClearedAt(leaf, ms[k].iova / 4096, ms[k].pages, v);
    var i :| 0 <= i < |ms| && Covers(ms[i], v);
    WithoutHas(ms, k, i);
  }

  lemma WithoutHas<T>(xs: seq<T>, k: nat, i: nat)
    requires k < |xs| && i < |xs| && i != k
    ensures exists o :: 0 <= o < |Without(xs, k)| && Without(xs, k)[o] == xs[i]
  {
    var o := if i < k then i else i - 1;
    assert Without(xs, k)[o] == xs[i];
  }

  lemma TidyRemove(ms: seq<Mapping>, k: nat)
    requires Tidy(ms) && k < |ms|
    ensures Tidy(Without(ms, k))
  {
    var ms' := Without(ms, k);
    forall i | 0 <= i < |ms'| ensures ms'[i] == ms[if i < k then i else i + 1] {}
  }

  lemma DescribesRemove(ms: seq<Mapping>, leaf: Leaf, k: nat)
    requires Tidy(ms) && Describes(ms, leaf) && k < |ms|
    ensures Describes(Without(ms, k), Cleared(leaf, ms[k].iova / 4096, ms[k].pages))
  {
    var ms', leaf' := Without(ms, k), Cleared(leaf, ms[k].iova / 4096, ms[k].pages);
    forall i, v | 0 <= i < |ms'| && 0 <= v < 0x800_0000 && Covers(ms'[i], v)
      ensures Get(leaf', Path(v)) == Some(Target(ms'[i], v))
    {
      var o := if i < k then i else i + 1;
      assert ms'[i] == ms[o];
      RemovedForward(ms, leaf, k, o, v);
    }
    forall v | 0 <= v < 0x800_0000 && Path(v) in leaf' ensures Covered(ms', v) {
      RemovedBack(ms, leaf, k, v);
    }
  }

  // ---- All domains together ----

  datatype Domain = Domain(id: nat, sid: nat, root: nat, mappings: seq<Mapping>)

  /** Each domain's tables are spelled out in pages of its own, and no free page is among them. */
  ghost predicate Apart(spaces: seq<Space>, pages: Memory, free: seq<nat>) {
    && Stock(free, {})
    && (forall i :: 0 <= i < |spaces| ==> Spells(pages, spaces[i]) && Stock(free, spaces[i].tables))
    && (forall i, j :: 0 <= i < j < |spaces| ==> spaces[i].tables !! spaces[j].tables)
  }

  /** Every page the manager answers for. */
  ghost function Owned(spaces: seq<Space>, free: seq<nat>): set<nat> {
    SetOf(free) + set i, p | 0 <= i < |spaces| && p in spaces[i].tables :: p
  }

  lemma ApartUpdate(spaces: seq<Space>, pages: Memory, free: seq<nat>, k: nat, s': Space, pages': Memory,
                    free': seq<nat>)
    requires Apart(spaces, pages, free) && k < |spaces| && Grew(spaces[k], s', pages, pages', free, free')
    ensures Apart(spaces[k := s'], pages', free')
  {
    GrewStock(spaces[k], s', pages, pages', free, free');
    forall i | 0 <= i < |spaces| && i != k
      ensures spaces[i].tables !! s'.tables && Spells(pages', spaces[i]) && Stock(free', spaces[i].tables)
    {
      assert spaces[i].tables !! spaces[k].tables;
      OtherApart(spaces[i], spaces[k], s', pages, pages', free, free');
    }
  }

  lemma OtherApart(o: Space, s: Space, s': Space, pages: Memory, pages': Memory, free: seq<nat>, free': seq<nat>)
    requires Grew(s, s', pages, pages', free, free') && Spells(pages, o) && o.tables !! s.tables
    requires Stock(free, o.tables)
    ensures o.tables !! s'.tables && Spells(pages', o) && Stock(free', o.tables)
  {
    forall p | p in SetOf(free[|free'|..]) ensures p !in o.tables {
      var i :| 0 <= i < |free[|free'|..]| && free[|free'|..][i] == p;
      assert p == free[|free'| + i];
    }
    SpellsFrame(pages, pages', o);
  }

  lemma OwnedUpdate(spaces: seq<Space>, pages: Memory, free: seq<nat>, k: nat, s': Space, pages': Memory,
                    free': seq<nat>)
    requires k < |spaces| && Grew(spaces[k], s', pages, pages', free, free')
    ensures Owned(spaces[k := s'], free') == Owned(spaces, free)
  {
    var spaces' := spaces[k := s'];
    assert free == free' + free[|free'|..];
    forall p | p in Owned(spaces, free) ensures p in Owned(spaces', free') {
      if p !in SetOf(free) {
        var i :| 0 <= i < |spaces| && p in spaces[i].tables;
        assert p in spaces'[i].tables;
      } else if p !in SetOf(free') {
        assert p in spaces'[k].tables;
      }
    }
    forall p | p in Owned(spaces', free') ensures p in Owned(spaces, free) {
      if p !in SetOf(free') {
        var i :| 0 <= i < |spaces'| && p in spaces'[i].tables;
        assert i != k ==> p in spaces[i].tables;
      }
    }
  }

  /** A new domain: a zeroed page and nothing in it. */
  function EmptySpace(root: nat): Space {
    Space(root, map[], map[], map[], {root})
  }

  lemma EmptySpells(pages: Memory, p: nat)
    requires IsPage(p) && p in pages && pages[p] == Zeros()
    ensures Spells(pages, EmptySpace(p))
  {}

  /** Zeroing a free page disturbs nobody. */
  lemma ApartZero(spaces: seq<Space>, pages: Memory, free: seq<nat>, p: nat)
    requires Apart(spaces, pages, free) && p in free
    ensures Apart(spaces, pages[p := Zeros()], free)
  {
    forall i | 0 <= i < |spaces| ensures Spells(pages[p := Zeros()], spaces[i]) {
      SpellsFrame(pages, pages[p := Zeros()], spaces[i]);
    }
  }

  lemma ApartAdd(spaces: seq<Space>, pages: Memory, free: seq<nat>, p: nat)
    requires Apart(spaces, pages, free) && free != [] && p == free[|free| - 1]
    ensures Apart(spaces + [EmptySpace(p)], pages[p := Zeros()], free[..|free| - 1])
    ensures Owned(spaces + [EmptySpace(p)], free[..|free| - 1]) == Owned(spaces, free)
  {
    ApartZero(spaces, pages, free, p);
    EmptySpells(pages[p := Zeros()], p);
    OwnedAdd(spaces, free, p);
  }

  lemma OwnedAdd(spaces: seq<Space>, free: seq<nat>, p: nat)
    requires free != [] && p == free[|free| - 1]
    ensures Owned(spaces + [EmptySpace(p)], free[..|free| - 1]) == Owned(spaces, free)
  {
    var spaces' := spaces + [EmptySpace(p)];
    assert free == free[..|free| - 1] + [p];
    assert p in spaces'[|spaces|].tables;
    forall q | q in Owned(spaces, free) ensures q in Owned(spaces', free[..|free| - 1]) {
      if q !in SetOf(free) {
        var i :| 0 <= i < |spaces| && q in spaces[i].tables;
        assert q in spaces'[i].tables;
      }
    }
    forall q | q in Owned(spaces', free[..|free| - 1]) ensures q in Owned(spaces, free) {
      if q !in SetOf(free) {
        var i :| 0 <= i < |spaces'| && q in spaces'[i].tables;
        assert q in spaces[i].tables;
      }
    }
  }

  lemma ApartRemove(spaces: seq<Space>, pages: Memory, free: seq<nat>, k: nat)
    requires Apart(spaces, pages, free) && k < |spaces|
    ensures Apart(Without(spaces, k), pages, free)
  {
    var spaces' := Without(spaces, k);
    forall i | 0 <= i < |spaces'| ensures Spells(pages, spaces'[i]) && Stock(free, spaces'[i].tables) {
      WithoutAt(spaces, k, i);
    }
    forall i, j | 0 <= i < j < |spaces'| ensures spaces'[i].tables !! spaces'[j].tables {
      WithoutAt(spaces, k, i);
      WithoutAt(spaces, k, j);
    }
  }

  /** Giving back the pages of a domain that is gone. */
  lemma ApartFreed(spaces: seq<Space>, pages: Memory, free: seq<nat>, k: nat, done: seq<nat>)
    requires Apart(spaces, pages, free) && k < |spaces| && Once(done) && SetOf(done) == spaces[k].tables
    ensures Apart(Without(spaces, k), pages, free + done)
    ensures Owned(Without(spaces, k), free + done) == Owned(spaces, free)
  {
    ApartRemove(spaces, pages, free, k);
    forall i | 0 <= i < |done| ensures done[i] in spaces[k].tables && IsPage(done[i]) {
      assert done[i] in SetOf(done);
      TablesArePages(pages, spaces[k], done[i]);
    }
    var spaces' := Without(spaces, k);
    forall i | 0 <= i < |spaces'| ensures Stock(free + done, spaces'[i].tables) {
      var o := if i < k then i else i + 1;
      assert spaces'[i] == spaces[o];
      StockMore(free, done, spaces[o].tables, spaces[k].tables);
    }
    StockMore(free, done, {}, spaces[k].tables);
    OwnedFreed(spaces, free, k, done);
  }

  /** Dropping a domain without freeing its tables loses exactly those pages. */
  lemma OwnedDropped(spaces: seq<Space>, pages: Memory, free: seq<nat>, k: nat)
    requires Apart(spaces, pages, free) && k < |spaces|
    ensures Owned(Without(spaces, k), free) == Owned(spaces, free) - spaces[k].tables
    ensures spaces[k].tables <= Owned(spaces, free)
  {
    var spaces' := Without(spaces, k);
    forall q | q in Owned(spaces, free) && q !in spaces[k].tables ensures q in Owned(spaces', free) {
      if q !in SetOf(free) {
        var i :| 0 <= i < |spaces| && q in spaces[i].tables;
        WithoutHas(spaces, k, i);
      }
    }
    forall q | q in Owned(spaces', free) ensures q in Owned(spaces, free) && q !in spaces[k].tables {
      if q !in SetOf(free) {
        var i :| 0 <= i < |spaces'| && q in spaces'[i].tables;
        WithoutAt(spaces, k, i);
        assert q in spaces[if i < k then i else i + 1].tables;
      } else {
        var i :| 0 <= i < |free| && free[i] == q;
      }
    }
  }

  lemma TablesArePages(pages: Memory, s: Space, p: nat)
    requires Spells(pages, s) && p in s.tables
    ensures IsPage(p)
  {
    assert IsTable(s, p);
  }

  lemma StockMore(free: seq<nat>, done: seq<nat>, inUse: set<nat>, tables: set<nat>)
    requires Stock(free, inUse) && Stock(free, tables) && Once(done) && inUse !! tables
    requires forall i :: 0 <= i < |done| ==> IsPage(done[i]) && done[i] in tables
    ensures Stock(free + done, inUse)
  {}

  lemma OwnedFreed(spaces: seq<Space>, free: seq<nat>, k: nat, done: seq<nat>)
    requires k < |spaces| && SetOf(done) == spaces[k].tables
    ensures Owned(Without(spaces, k), free + done) == Owned(spaces, free)
  {
    var spaces' := Without(spaces, k);
    assert SetOf(free + done) == SetOf(free) + SetOf(done);
    forall q | q in Owned(spaces, free) ensures q in Owned(spaces', free + done) {
      if q !in SetOf(free + done) {
        var i :| 0 <= i < |spaces| && q in spaces[i].tables;
        assert q in spaces'[if i < k then i else i - 1].tables;
      }
    }
    forall q | q in Owned(spaces', free + done) ensures q in Owned(spaces, free) {
      if q !in SetOf(free) && q !in SetOf(done) {
        var i :| 0 <= i < |spaces'| && q in spaces'[i].tables;
        assert q in spaces[if i < k then i else i + 1].tables;
      } else if q in SetOf(done) {
        assert q in spaces[k].tables;
      }
    }
  }

  // ---- The manager ----

  ghost predicate Recorded(domains: seq<Domain>, spaces: seq<Space>) {
    && |spaces| == |domains|
    && forall i :: 0 <= i < |domains| ==> && domains[i].root == spaces[i].root && Tidy(domains[i].mappings)
                                          && Describes(domains[i].mappings, spaces[i].leaf)
  }

  ghost predicate Named(domains: seq<Domain>, nextId: nat) {
    && nextId >= 1 && (forall i :: 0 <= i < |domains| ==> 1 <= domains[i].id < nextId)
    && (forall i, j :: 0 <= i < j < |domains| ==> domains[i].id != domains[j].id && domains[i].sid != domains[j].sid)
  }

  function WithMapping(d: Domain, m: Mapping): Domain {
    d.(mappings := d.mappings + [m])
  }

  /** The lowest device address between 16 MB and 2 GB with room for `pages` pages, or none if there is none. */
  ghost predicate LowestFit(d: Domain, pages: nat, at: Option<nat>) {
    && (at.Some? ==>
          && 0x0100_0000 <= at.value && at.value + pages * 4096 <= 0x8000_0000 && at.value % 4096 == 0
          && IovaFree(d.mappings, pages * 4096, at.value))
    && forall s ::
         0x0100_0000 <= s && s + pages * 4096 <= 0x8000_0000 && s % 4096 == 0 && (at.Some? ==> s < at.value) ==>
           !IovaFree(d.mappings, pages * 4096, s)
  }

  predicate HasId(domains: seq<Domain>, id: nat) {
    exists i :: 0 <= i < |domains| && domains[i].id == id
  }

  predicate HasSid(domains: seq<Domain>, sid: nat) {
    exists i :: 0 <= i < |domains| && domains[i].sid == sid
  }

  predicate HasIova(ms: seq<Mapping>, iova: nat) {
    exists i :: 0 <= i < |ms| && ms[i].iova == iova
  }

  /**
   * Isolation: a device in a domain reaches exactly the pages of that domain's recorded mappings, each byte at the
   * address its record gives and with the rights of ordinary memory, whatever the other domains hold.
   */
  lemma Isolation(domains: seq<Domain>, spaces: seq<Space>, pages: Memory, free: seq<nat>, i: nat, x: nat)
    requires Apart(spaces, pages, free) && Recorded(domains, spaces) && i < |domains| && x < 0x80_0000_0000
    ensures HardwareWalk(pages, domains[i].root, x).Fault? <==> !Covered(domains[i].mappings, x / 4096)
    ensures forall k :: 0 <= k < |domains[i].mappings| && Covers(domains[i].mappings[k], x / 4096) ==>
              HardwareWalk(pages, domains[i].root, x) ==
              Reached(Target(domains[i].mappings[k], x / 4096) + x % 4096, 15, 3, 3)
  {
    HardwareIs(pages, spaces[i], x);
  }

  lemma Replaced(domains: seq<Domain>, spaces: seq<Space>, nextId: nat, k: nat, d': Domain, s': Space)
    requires Recorded(domains, spaces) && Named(domains, nextId) && k < |domains|
    requires d'.id == domains[k].id && d'.sid == domains[k].sid && d'.root == s'.root
    requires Tidy(d'.mappings) && Describes(d'.mappings, s'.leaf)
    ensures Recorded(domains[k := d'], spaces[k := s']) && Named(domains[k := d'], nextId)
  {}

  lemma RecordedAdd(domains: seq<Domain>, spaces: seq<Space>, nextId: nat, sid: nat, root: nat)
    requires Recorded(domains, spaces) && Named(domains, nextId) && !HasSid(domains, sid)
    ensures Recorded(domains + [Domain(nextId, sid, root, [])], spaces + [EmptySpace(root)])
    ensures Named(domains + [Domain(nextId, sid, root, [])], nextId + 1)
  {}

  lemma WithoutAt<T>(xs: seq<T>, k: nat, i: nat)
    requires k < |xs| && i < |xs| - 1
    ensures Without(xs, k)[i] == xs[if i < k then i else i + 1]
  {}

  lemma RecordedRemove(domains: seq<Domain>, spaces: seq<Space>, k: nat)
    requires Recorded(domains, spaces) && k < |domains|
    ensures Recorded(Without(domains, k), Without(spaces, k))
  {
    forall i | 0 <= i < |domains| - 1
      ensures var d, s := Without(domains, k)[i], Without(spaces, k)[i];
              d.root == s.root && Tidy(d.mappings) && Describes(d.mappings, s.leaf)
    {
      WithoutAt(domains, k, i);
      WithoutAt(spaces, k, i);
    }
  }

  lemma NamedRemove(domains: seq<Domain>, nextId: nat, k: nat)
    requires Named(domains, nextId) && k < |domains|
    ensures Named(Without(domains, k), nextId)
  {
    forall i | 0 <= i < |domains| - 1
      ensures Without(domains, k)[i] == domains[if i < k then i else i + 1]
    {}
  }

  /** Tidy mappings, a fitting address: the new range covers unmapped pages only. */
  lemma RoomFor(ms: seq<Mapping>, leaf: Leaf, m: Mapping)
    requires Tidy(ms) && Describes(ms, leaf) && InWindow(m) && Fits(IovaRanges(ms), m.pages * 4096, m.iova)
    ensures Unmapped(leaf, m.iova / 4096, m.pages)
    ensures forall i, v :: 0 <= i < |ms| && Covers(ms[i], v) ==> !Covers(m, v)
  {
    forall i, v | 0 <= i < |ms| && Covers(ms[i], v) ensures !Covers(m, v) {
      if Covers(m, v) { FitsApart(ms, m.iova, m.pages, i, v); }
    }
    forall v | m.iova / 4096 <= v < m.iova / 4096 + m.pages ensures Path(v) !in leaf {
      assert Covers(m, v);
    }
  }

  /** As many pages as it takes, and no more. */
  function Pages(len: nat): (pages: nat)
    ensures len <= pages * 4096 < len + 4096
  {
    (len + 4095) / 4096
  }

  /** The hardware tag of a domain. */
  function Vmid(id: nat): nat
    requires id >= 1
  {
    (id - 1) % 0xfffe + 1
  }

  /**
   * Tags are 16-bit and never zero; two domains share one exactly when their ids are 65534 apart, or a multiple of it.
   */
  lemma VmidShared(i: nat, j: nat)
    requires 1 <= i <= j
    ensures 1 <= Vmid(i) < 0xffff
    ensures Vmid(i) == Vmid(j) <==> (j - i) % 0xfffe == 0
  {
    var a, b := (i - 1) / 0xfffe, (j - 1) / 0xfffe;
    assert j - i == (b - a) * 0xfffe + (Vmid(j) - Vmid(i));
  }

  class Manager {
    const mem: PhysMem
    const streamEntries: nat
    var domains: seq<Domain>
    var nextId: nat
    ghost var spaces: seq<Space>

    ghost predicate Valid()
      reads this, mem
    {
      Apart(spaces, mem.pages, mem.free) && Recorded(domains, spaces) && Named(domains, nextId)
    }

    constructor (mem: PhysMem, streamEntries: nat)
      requires Stock(mem.free, {})
      ensures Valid() && this.mem == mem && this.streamEntries == streamEntries && domains == [] && nextId == 1
      ensures Owned(spaces, mem.free) == SetOf(mem.free)
    {
      this.mem, this.streamEntries, domains, nextId, spaces := mem, streamEntries, [], 1, [];
    }

    method Find(id: nat) returns (r: Option<nat>)
      ensures r.Some? <==> HasId(domains, id)
      ensures r.Some? ==> r.value < |domains| && domains[r.value].id == id
    {
      for i := 0 to |domains|
        invariant forall j :: 0 <= j < i ==> domains[j].id != id
      {
        if domains[i].id == id {
          return Some(i);
        }
      }
      r := None;
    }

    /**
     * Attaches a domain to a requester. Every failure gives the root page back; `completes` says
     * whether the hardware acknowledged the invalidation.
     */
    method CreateDomain(sid: nat, completes: bool) returns (r: Result<nat, IommuError>)
      requires Valid()
      modifies this, mem
      ensures Valid() && Owned(spaces, mem.free) == old(Owned(spaces, mem.free))
      ensures r == Err(Busy) <==> HasSid(old(domains), sid)
      ensures r == Err(NoMemory) <==> !HasSid(old(domains), sid) && old(mem.free) == []
      ensures r == Err(Invalid) <==> !HasSid(old(domains), sid) && old(mem.free) != [] && sid >= streamEntries
      ensures r == Err(Hardware) <==>
                !HasSid(old(domains), sid) && old(mem.free) != [] && sid < streamEntries && !completes
      ensures r.Ok? <==> !HasSid(old(domains), sid) && old(mem.free) != [] && sid < streamEntries && completes
      ensures r.Err? ==> domains == old(domains) && mem.free == old(mem.free)
      ensures nextId == if r == Err(Busy) || r == Err(NoMemory) then old(nextId) else old(nextId) + 1
      ensures r.Ok? ==> r.value == old(nextId) && old(mem.free) != []
      ensures r.Ok? ==> mem.free == old(mem.free)[..|old(mem.free)| - 1]
      ensures r.Ok? ==> domains == old(domains) + [Domain(r.value, sid, old(mem.free)[|old(mem.free)| - 1], [])]
    {
      if HasSid(domains, sid) {
        return Err(Busy);
      }
      var root := mem.AllocZeroed();
      if root.None? {
        return Err(NoMemory);
      }
      r := Attach(sid, root.value, completes, old(mem.pages), old(mem.free));
    }

    method Attach(sid: nat, root: nat, completes: bool, ghost pages: Memory, ghost free: seq<nat>)
      returns (r: Result<nat, IommuError>)
      requires Apart(spaces, pages, free) && Recorded(domains, spaces) && Named(domains, nextId)
      requires !HasSid(domains, sid)
      requires free == mem.free + [root] && mem.pages == pages[root := Zeros()]
      modifies this, mem
      ensures Valid() && Owned(spaces, mem.free) == Owned(old(spaces), free)
      ensures r == if sid >= streamEntries then Err(Invalid) else if !completes then Err(Hardware) else Ok(old(nextId))
      ensures r.Err? ==> domains == old(domains) && mem.free == free
      ensures nextId == old(nextId) + 1
      ensures r.Ok? ==> domains == old(domains) + [Domain(r.value, sid, root, [])] && mem.free == old(mem.free)
    {
      assert mem.free == free[..|free| - 1];
      var id := nextId;
      nextId := nextId + 1;
      if sid >= streamEntries || !completes {
        ApartZero(spaces, pages, free, root);
        mem.FreePage(root);
        return Err(if sid >= streamEntries then Invalid else Hardware);
      }
      ApartAdd(spaces, pages, free, root);
      RecordedAdd(domains, spaces, id, sid, root);
      domains := domains + [Domain(id, sid, root, [])];
      spaces := spaces + [EmptySpace(root)];
      r := Ok(id);
    }

    /** Enters the changed record of domain `k`, whose tables have grown to `s'` since memory was as given. */
    method Update(k: nat, d: Domain, ghost s': Space, ghost pages: Memory, ghost free: seq<nat>)
      requires Apart(spaces, pages, free) && Recorded(domains, spaces) && Named(domains, nextId) && k < |domains|
      requires Grew(spaces[k], s', pages, mem.pages, free, mem.free)
      requires d.id == domains[k].id && d.sid == domains[k].sid && d.root == s'.root
      requires Tidy(d.mappings) && Describes(d.mappings, s'.leaf)
      modifies this
      ensures Valid() && Owned(spaces, mem.free) == Owned(old(spaces), free) && nextId == old(nextId)
      ensures domains == old(domains)[k := d]
    {
      ApartUpdate(spaces, pages, free, k, s', mem.pages, mem.free);
      OwnedUpdate(spaces, pages, free, k, s', mem.pages, mem.free);
      Replaced(domains, spaces, nextId, k, d, s');
      domains := domains[k := d];
      spaces := spaces[k := s'];
    }

    /** Maps a range that fits into domain `k`, and records it. */
    method MapInto(k: nat, iova: nat, pa: nat, pages: nat) returns (r: Result<(), IommuError>)
      requires Valid() && k < |domains| && InWindow(Mapping(iova, pa, pages))
      requires Fits(IovaRanges(domains[k].mappings), pages * 4096, iova)
      modifies this, mem
      ensures Valid() && Owned(spaces, mem.free) == old(Owned(spaces, mem.free)) && nextId == old(nextId)
      ensures r.Ok? || (r == Err(NoMemory) && mem.free == [] && domains == old(domains))
      ensures r.Ok? ==> domains == old(domains)[k := WithMapping(old(domains)[k], Mapping(iova, pa, pages))]
      ensures r == Err(NoMemory) ==> |old(mem.free)| < 2 * pages
    {
      var d := domains[k];
      ghost var m, s := Mapping(iova, pa, pages), spaces[k];
      RoomFor(d.mappings, s.leaf, m);
      ghost var s';
      r, s' := MapRange(mem, d.root, iova, pa, pages, iova / 4096, s);
      if r.Ok? {
        DescribesAdd(d.mappings, s.leaf, m);
        d := WithMapping(d, Mapping(iova, pa, pages));
      }
      Update(k, d, s', old(mem.pages), old(mem.free));
    }

    /**
     * Maps a physically contiguous range at the lowest free device address. The domain's record and
     * its tables change together or, when table memory runs out, not at all.
     */
    method MapContiguous(id: nat, pa: nat, len: nat, completes: bool)
      returns (r: Result<nat, IommuError>, ghost k: nat, ghost iova: nat)
      requires Valid()
      modifies this, mem
      ensures Valid() && Owned(spaces, mem.free) == old(Owned(spaces, mem.free)) && nextId == old(nextId)
      ensures r == Err(Invalid) <==> len == 0 || pa % 4096 != 0
      ensures r == Err(NotFound) <==> !(len == 0 || pa % 4096 != 0) && !HasId(old(domains), id)
      ensures r != Err(Busy)
      ensures r == Err(Invalid) || r == Err(NotFound) || r == Err(NoMemory) ==> domains == old(domains)
      ensures r.Ok? || r == Err(NoMemory) || r == Err(Hardware) ==> k < |old(domains)| && old(domains)[k].id == id
      ensures r == Err(NoMemory) ==>
                LowestFit(domains[k], Pages(len), None) || (mem.free == [] && |old(mem.free)| < 2 * Pages(len))
      ensures r.Ok? || r == Err(Hardware) ==> LowestFit(old(domains)[k], Pages(len), Some(iova))
      ensures r.Ok? || r == Err(Hardware) ==>
                domains == old(domains)[k := WithMapping(old(domains)[k], Mapping(iova, pa, Pages(len)))]
      ensures r.Ok? ==> r.value == iova && completes
      ensures r == Err(Hardware) ==> !completes
    {
      k, iova := 0, 0;
      if len == 0 || pa % 4096 != 0 {
        return Err(Invalid), k, iova;
      }
      var pages := Pages(len);
      var found := Find(id);
      if found.None? {
        return Err(NotFound), k, iova;
      }
      k := found.value;
      var at := ChooseIova(domains[found.value].mappings, pages);
      if at.None? {
        return Err(NoMemory), k, iova;
      }
      iova := at.value;
      var done := MapInto(found.value, at.value, pa, pages);
      if done.Err? {
        return Err(done.error), k, iova;
      }
      r := if completes then Ok(at.value) else Err(Hardware);
    }

    /** Takes a mapping back: its record and its pages, and nothing else of the domain or of the others. */
    method Unmap(id: nat, iova: nat, completes: bool) returns (r: Result<(), IommuError>, ghost k: nat, ghost pos: nat)
      requires Valid()
      modifies this, mem
      ensures Valid() && Owned(spaces, mem.free) == old(Owned(spaces, mem.free)) && mem.free == old(mem.free)
      ensures nextId == old(nextId)
      ensures r == Err(NotFound) ==>
                && domains == old(domains)
                && forall i :: 0 <= i < |domains| && domains[i].id == id ==> !HasIova(domains[i].mappings, iova)
      ensures r == if r == Err(NotFound) then r else if completes then Ok(()) else Err(Hardware)
      ensures r != Err(NotFound) ==>
                && k < |old(domains)| && old(domains)[k].id == id
                && pos < |old(domains)[k].mappings| && old(domains)[k].mappings[pos].iova == iova
      ensures r != Err(NotFound) ==>
                domains == old(domains)[k := old(domains)[k].(mappings := Without(old(domains)[k].mappings, pos))]
    {
      k, pos := 0, 0;
      var found := Find(id);
      if found.None? {
        return Err(NotFound), k, pos;
      }
      var d := domains[found.value];
      var at := Position(d.mappings, iova);
      if at.None? {
        OnlyOne(domains, nextId, found.value);
        return Err(NotFound), k, pos;
      }
      k, pos := found.value, at.value;
      UnmapFrom(found.value, at.value);
      r := if completes then Ok(()) else Err(Hardware);
    }

    method UnmapFrom(k: nat, pos: nat)
      requires Valid() && k < |domains| && pos < |domains[k].mappings|
      modifies this, mem
      ensures Valid() && Owned(spaces, mem.free) == old(Owned(spaces, mem.free)) && mem.free == old(mem.free)
      ensures nextId == old(nextId)
      ensures domains == old(domains)[k := old(domains)[k].(mappings := Without(old(domains)[k].mappings, pos))]
    {
      var d := domains[k];
      var m := d.mappings[pos];
      ghost var s := spaces[k];
      ghost var s' := UnmapRange(mem, d.root, m.iova, m.pages, m.iova / 4096, s);
      TidyRemove(d.mappings, pos);
      DescribesRemove(d.mappings, s.leaf, pos);
      d := d.(mappings := Without(d.mappings, pos));
      Update(k, d, s', old(mem.pages), old(mem.free));
    }

    /**
     * Detaches a domain with no mappings and frees its tables, each page once. If the hardware does not
     * acknowledge, the domain is gone and its table pages are lost: they are in no domain and not free.
     */
    method DestroyDomain(id: nat, completes: bool)
      returns (r: Result<(), IommuError>, ghost k: nat, ghost freed: seq<nat>)
      requires Valid()
      modifies this, mem
      ensures Valid() && nextId == old(nextId)
      ensures r == Err(NotFound) <==> !HasId(old(domains), id)
      ensures r != Err(NotFound) ==> k < |old(domains)| && old(domains)[k].id == id
      ensures r == Err(Busy) <==> HasId(old(domains), id) && old(domains)[k].mappings != []
      ensures r.Ok? || r in {Err(NotFound), Err(Busy), Err(Hardware)}
      ensures r.Ok? ==> completes
      ensures r == Err(Hardware) ==> !completes
      ensures r == Err(NotFound) || r == Err(Busy) ==> domains == old(domains) && mem.free == old(mem.free)
      ensures r.Ok? || r == Err(Hardware) ==> domains == Without(old(domains), k)
      ensures r.Ok? ==> Owned(spaces, mem.free) == old(Owned(spaces, mem.free))
      ensures r.Ok? ==> Once(freed) && mem.free == old(mem.free) + freed && k < |old(spaces)|
      ensures r.Ok? ==> SetOf(freed) == old(spaces)[k].tables
      ensures r == Err(Hardware) ==> mem.free == old(mem.free) && k < |old(spaces)|
      ensures r == Err(Hardware) ==> Owned(spaces, mem.free) == old(Owned(spaces, mem.free)) - old(spaces)[k].tables
    {
      k, freed := 0, [];
      var found := Find(id);
      if found.None? {
        return Err(NotFound), k, freed;
      }
      k := found.value;
      var d := domains[found.value];
      if d.mappings != [] {
        return Err(Busy), k, freed;
      }
      RecordedRemove(domains, spaces, k);
      NamedRemove(domains, nextId, k);
      ApartRemove(spaces, mem.pages, mem.free, k);
      domains := Without(domains, found.value);
      spaces := Without(spaces, k);
      if !completes {
        OwnedDropped(old(spaces), mem.pages, mem.free, k);
        return Err(Hardware), k, freed;
      }
      freed := FreeTables(mem, d.root, old(spaces)[k]);
      ApartFreed(old(spaces), mem.pages, old(mem.free), k, freed);
      r := Ok(());
    }
  }

  lemma OtherSids(domains: seq<Domain>, sid: nat)
    requires forall i :: 0 <= i < |domains| ==> domains[i].sid < sid
    ensures !HasSid(domains, sid)
  {}

  /** The next requester that has no domain gets one, after `wasted` attachments that failed. */
  method AttachNext(m: Manager, wasted: nat)
    requires m.Valid() && m.mem.free != [] && |m.domains| < m.streamEntries
    requires forall i :: 0 <= i < |m.domains| ==> m.domains[i].sid == i
    modifies m, m.mem
    ensures m.Valid() && m.nextId == old(m.nextId) + wasted + 1 && |m.mem.free| == |old(m.mem.free)| - 1
    ensures |m.domains| == |old(m.domains)| + 1 && m.domains[..|old(m.domains)|] == old(m.domains)
    ensures m.domains[|old(m.domains)|].sid == |old(m.domains)|
    ensures m.domains[|old(m.domains)|].id == old(m.nextId) + wasted
  {
    OtherSids(m.domains, m.streamEntries);
    for i := 0 to wasted
      invariant m.Valid() && m.domains == old(m.domains) && m.mem.free == old(m.mem.free)
                && m.nextId == old(m.nextId) + i
    {
      var failed := m.CreateDomain(m.streamEntries, true);
    }
    OtherSids(m.domains, |m.domains|);
    var r := m.CreateDomain(|m.domains|, true);
  }

  /**
   * The ids of failed attachments are not given out again, so two live domains can be 65534 apart and share a tag:
   * the first one, and the one after 65533 attachments to a requester that the stream table has no entry for.
   */
  method SharedTag(m: Manager)
    requires m.Valid() && m.domains == [] && m.nextId == 1 && |m.mem.free| >= 2 && m.streamEntries >= 2
    modifies m, m.mem
    ensures m.Valid() && |m.domains| == 2
    ensures m.domains[0].id == 1 && m.domains[1].id == 65535 && Vmid(m.domains[0].id) == Vmid(m.domains[1].id)
  {
    AttachNext(m, 0);
    ghost var first := m.domains[0];
    AttachNext(m, 65533);
    assert m.domains[..1][0] == first;
  }

  method Position(ms: seq<Mapping>, iova: nat) returns (r: Option<nat>)
    ensures r.Some? <==> HasIova(ms, iova)
    ensures r.Some? ==> r.value < |ms| && ms[r.value].iova == iova && !HasIova(ms[..r.value], iova)
  {
    for i := 0 to |ms|
      invariant forall j :: 0 <= j < i ==> ms[j].iova != iova
    {
      if ms[i].iova == iova {
        return Some(i);
      }
    }
    r := None;
  }

  lemma OnlyOne(domains: seq<Domain>, nextId: nat, k: nat)
    requires Named(domains, nextId) && k < |domains|
    ensures forall i :: 0 <= i < |domains| && domains[i].id == domains[k].id ==> i == k
  {}
}

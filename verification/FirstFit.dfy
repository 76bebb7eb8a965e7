/**
 * First-fit address search: `choose_iova` in `microkernel/src/iommu.rs`, `find_va` in `shm.rs`
 * and `choose_mmio_va` in `syscalls.rs` are one search over different lists and windows.
 */
module FirstFit {
  import opened Common

  const PAGE: nat := 4096

  datatype Range = Range(base: nat, len: nat)

  function AlignUp(x: nat): nat {
    (x + PAGE - 1) / PAGE * PAGE
  }

  predicate Aligned(x: nat) {
    x % PAGE == 0
  }

  lemma AlignUpLeast(x: nat, s: nat)
    ensures Aligned(AlignUp(x)) && x <= AlignUp(x)
    ensures Aligned(s) && x <= s ==> AlignUp(x) <= s
  {}

  /** `[start, start + size)` meets none of the ranges. */
  predicate Fits(ranges: seq<Range>, size: nat, start: nat) {
    forall i :: 0 <= i < |ranges| ==> !(start < ranges[i].base + ranges[i].len && start + size > ranges[i].base)
  }

  /** The lowest page-aligned start in the window that fits, or none if there is none. */
  ghost predicate IsFirstFit(ranges: seq<Range>, size: nat, lo: nat, hi: nat, r: Option<nat>) {
    && (r.Some? ==> lo <= r.value && Aligned(r.value) && r.value + size <= hi && Fits(ranges, size, r.value))
    && forall s :: lo <= s && Aligned(s) && s + size <= hi && (r.Some? ==> s < r.value) ==> !Fits(ranges, size, s)
  }

  /** A start between a candidate and the end of a range that the candidate meets meets it too. */
  lemma StillMeets(ranges: seq<Range>, size: nat, candidate: nat, i: nat, s: nat)
    requires i < |ranges| && candidate < ranges[i].base + ranges[i].len && candidate + size > ranges[i].base
    requires candidate <= s < ranges[i].base + ranges[i].len
    ensures !Fits(ranges, size, s)
  {}

  /** The end of the first range that the candidate meets. */
  method Collision(ranges: seq<Range>, size: nat, candidate: nat) returns (r: Option<nat>, ghost at: nat)
    ensures r.None? <==> Fits(ranges, size, candidate)
    ensures r.Some? ==> at < |ranges| && r.value == ranges[at].base + ranges[at].len
                        && candidate < r.value && candidate + size > ranges[at].base
  {
    at := 0;
    for i := 0 to |ranges|
      invariant forall j :: 0 <= j < i ==>
        !(candidate < ranges[j].base + ranges[j].len && candidate + size > ranges[j].base)
    {
      if candidate < ranges[i].base + ranges[i].len && candidate + size > ranges[i].base {
        return Some(ranges[i].base + ranges[i].len), i;
      }
    }
    r := None;
  }

  method Search(ranges: seq<Range>, size: nat, lo: nat, hi: nat) returns (r: Option<nat>)
    requires Aligned(lo)
    ensures IsFirstFit(ranges, size, lo, hi, r)
  {
    var candidate := lo;
    while candidate + size <= hi
      invariant lo <= candidate && Aligned(candidate)
      invariant forall s :: lo <= s < candidate && Aligned(s) && s + size <= hi ==> !Fits(ranges, size, s)
      decreases hi - candidate
    {
      var collision;
      ghost var at;
      collision, at := Collision(ranges, size, candidate);
      if collision.None? {
        return Some(candidate);
      }
      var next := AlignUp(collision.value);
      forall s | candidate <= s < next && Aligned(s) ensures !Fits(ranges, size, s) {
        AlignUpLeast(collision.value, s);
        StillMeets(ranges, size, candidate, at, s);
      }
      AlignUpLeast(collision.value, next);
      candidate := next;
    }
    r := None;
  }

  // ---- The three searches ----

  const DMA_IOVA_BASE: nat := 0x0100_0000
  const DMA_IOVA_END: nat := 0x8000_0000
  const SHM_BASE: nat := 0x2000_0000
  const SHM_END: nat := 0x3000_0000
  const USER_MMIO_BASE: nat := 0x1800_0000
  const USER_MMIO_END: nat := 0x2000_0000

  datatype Mapping = Mapping(iova: nat, phys: nat, pages: nat)

  datatype ShmMapping = ShmMapping(pid: nat, handle: nat, va: nat, len: nat)

  datatype MmioLease = MmioLease(spaceKey: nat, mapBase: nat, mapLen: nat)

  function IovaRanges(ms: seq<Mapping>): (rs: seq<Range>)
    ensures |rs| == |ms|
  {
    seq(|ms|, i requires 0 <= i < |ms| => Range(ms[i].iova, ms[i].pages * PAGE))
  }

  /** The address ranges from `x` and from `y` have an address in common. */
  predicate Overlap(x: nat, xlen: nat, y: nat, ylen: nat) {
    x < y + ylen && y < x + xlen
  }

  /** No mapping of the domain meets the range. */
  ghost predicate IovaFree(ms: seq<Mapping>, size: nat, s: nat) {
    forall m :: m in ms ==> !Overlap(s, size, m.iova, m.pages * 4096)
  }

  /** No mapping of this process meets the range. */
  ghost predicate ShmFree(ms: seq<ShmMapping>, pid: nat, size: nat, s: nat) {
    forall m :: m in ms && m.pid == pid ==> !Overlap(s, size, m.va, m.len)
  }

  /** No lease of this address space meets the range. */
  ghost predicate MmioFree(ls: seq<MmioLease>, spaceKey: nat, size: nat, s: nat) {
    forall l :: l in ls && l.spaceKey == spaceKey ==> !Overlap(s, size, l.mapBase, l.mapLen)
  }

  lemma IovaFits(ms: seq<Mapping>, size: nat, s: nat)
    ensures Fits(IovaRanges(ms), size, s) <==> IovaFree(ms, size, s)
  {
    var rs := IovaRanges(ms);
    if IovaFree(ms, size, s) {
      forall i | 0 <= i < |rs| ensures !(s < rs[i].base + rs[i].len && s + size > rs[i].base) {
        assert ms[i] in ms;
      }
    }
    if Fits(rs, size, s) {
      forall m | m in ms ensures !Overlap(s, size, m.iova, m.pages * 4096) {
        var i :| 0 <= i < |ms| && ms[i] == m;
        assert !(s < rs[i].base + rs[i].len && s + size > rs[i].base);
      }
    }
  }

  method ChooseIova(mappings: seq<Mapping>, pages: nat) returns (r: Option<nat>)
    ensures IsFirstFit(IovaRanges(mappings), pages * PAGE, DMA_IOVA_BASE, DMA_IOVA_END, r)
    ensures r.Some? ==> 0x0100_0000 <= r.value && r.value + pages * 4096 <= 0x8000_0000
    ensures r.Some? ==> r.value % 4096 == 0 && IovaFree(mappings, pages * 4096, r.value)
    ensures forall s ::
              0x0100_0000 <= s && s + pages * 4096 <= 0x8000_0000 && s % 4096 == 0 && (r.Some? ==> s < r.value) ==>
                !IovaFree(mappings, pages * 4096, s)
  {
    r := Search(IovaRanges(mappings), pages * PAGE, DMA_IOVA_BASE, DMA_IOVA_END);
    forall s: nat ensures Fits(IovaRanges(mappings), pages * 4096, s) <==> IovaFree(mappings, pages * 4096, s) {
      IovaFits(mappings, pages * 4096, s);
    }
  }

  /** The mappings of one process. */
  function ShmRanges(ms: seq<ShmMapping>, pid: nat): seq<Range> {
    if ms == [] then []
    else (if ms[0].pid == pid then [Range(ms[0].va, ms[0].len)] else []) + ShmRanges(ms[1..], pid)
  }

  lemma {:induction false} ShmFits(ms: seq<ShmMapping>, pid: nat, size: nat, s: nat)
    ensures Fits(ShmRanges(ms, pid), size, s) <==> ShmFree(ms, pid, size, s)
  {
    if ms != [] {
      var first, rest := if ms[0].pid == pid then [Range(ms[0].va, ms[0].len)] else [], ShmRanges(ms[1..], pid);
      ShmFits(ms[1..], pid, size, s);
      FitsBoth(first, rest, size, s);
      assert ms == [ms[0]] + ms[1..];
      assert Fits(first, size, s) <==> ms[0].pid == pid ==> !Overlap(s, size, ms[0].va, ms[0].len);
    }
  }

  lemma FitsBoth(a: seq<Range>, b: seq<Range>, size: nat, s: nat)
    ensures Fits(a + b, size, s) <==> Fits(a, size, s) && Fits(b, size, s)
  {
    var c := a + b;
    if Fits(c, size, s) {
      forall i | 0 <= i < |a| ensures !(s < a[i].base + a[i].len && s + size > a[i].base) { assert c[i] == a[i]; }
      forall i | 0 <= i < |b| ensures !(s < b[i].base + b[i].len && s + size > b[i].base) {
        assert c[|a| + i] == b[i];
      }
    }
  }

  method FindVa(maps: seq<ShmMapping>, pid: nat, len: nat) returns (r: Option<nat>)
    ensures r.Some? ==> 0x2000_0000 <= r.value && r.value + len <= 0x3000_0000 && r.value % 4096 == 0
    ensures r.Some? ==> ShmFree(maps, pid, len, r.value)
    ensures forall s ::
              0x2000_0000 <= s && s + len <= 0x3000_0000 && s % 4096 == 0 && (r.Some? ==> s < r.value) ==>
                !ShmFree(maps, pid, len, s)
  {
    r := Search(ShmRanges(maps, pid), len, SHM_BASE, SHM_END);
    forall s: nat ensures Fits(ShmRanges(maps, pid), len, s) <==> ShmFree(maps, pid, len, s) {
      ShmFits(maps, pid, len, s);
    }
  }

  /** The leases of one address space. */
  function LeaseRanges(ls: seq<MmioLease>, spaceKey: nat): seq<Range> {
    if ls == [] then []
    else
      (if ls[0].spaceKey == spaceKey then [Range(ls[0].mapBase, ls[0].mapLen)] else [])
      + LeaseRanges(ls[1..], spaceKey)
  }

  lemma {:induction false} MmioFits(ls: seq<MmioLease>, key: nat, size: nat, s: nat)
    ensures Fits(LeaseRanges(ls, key), size, s) <==> MmioFree(ls, key, size, s)
  {
    if ls != [] {
      var first := if ls[0].spaceKey == key then [Range(ls[0].mapBase, ls[0].mapLen)] else [];
      MmioFits(ls[1..], key, size, s);
      FitsBoth(first, LeaseRanges(ls[1..], key), size, s);
      assert ls == [ls[0]] + ls[1..];
      assert Fits(first, size, s) <==> ls[0].spaceKey == key ==> !Overlap(s, size, ls[0].mapBase, ls[0].mapLen);
    }
  }

  method ChooseMmioVa(leases: seq<MmioLease>, spaceKey: nat, len: nat) returns (r: Option<nat>)
    ensures r.Some? ==> 0x1800_0000 <= r.value && r.value + len <= 0x2000_0000 && r.value % 4096 == 0
    ensures r.Some? ==> MmioFree(leases, spaceKey, len, r.value)
    ensures forall s ::
              0x1800_0000 <= s && s + len <= 0x2000_0000 && s % 4096 == 0 && (r.Some? ==> s < r.value) ==>
                !MmioFree(leases, spaceKey, len, s)
  {
    r := Search(LeaseRanges(leases, spaceKey), len, USER_MMIO_BASE, USER_MMIO_END);
    forall s: nat ensures Fits(LeaseRanges(leases, spaceKey), len, s) <==> MmioFree(leases, spaceKey, len, s) {
      MmioFits(leases, spaceKey, len, s);
    }
  }
}

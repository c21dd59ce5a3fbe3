/**
 The physical memory map of physmem.c: banks from the device tree, ranges the kernel has
 already spent, and the segments kalloc may hand out.

 Addresses and sizes are 64-bit, and the sums that can wrap are written with Wrap.
 A segment [start, end) is kept as the region Region(start, end - start).
 */
module Physmem {
  import opened Wrappers
  import opened Regions

  const PGSIZE: nat := 4096
  const TWO64: nat := 0x1_0000_0000_0000_0000
  const MAX_HWCNT: nat := 16
  const MAX_EXCNT: nat := 16
  const VM_PHYSSEG_MAX: nat := 64

  function Wrap(x: nat): nat { x % TWO64 }

  function RoundDown(x: nat): nat { x - x % PGSIZE }

  /** PGROUNDUP on 64 bits */
  function RoundUp(x: nat): nat { RoundDown(Wrap(x + PGSIZE - 1)) }

  /** Free memory: in a bank and in no exclusion. */
  predicate Free(hw: seq<Region>, ex: seq<Region>, x: nat) {
    Covers(hw, x) && !Covers(ex, x)
  }

  /** segs holds exactly the free memory below p, and stops short of p. */
  ghost predicate Part(segs: seq<Region>, hw: seq<Region>, ex: seq<Region>, p: nat) {
    && Normal(segs) && (segs != [] ==> segs[|segs| - 1].End() < p)
    && forall x: nat :: Covers(segs, x) <==> x < p && Free(hw, ex, x)
  }

  lemma PartSkip(segs: seq<Region>, hw: seq<Region>, ex: seq<Region>, p: nat, q: nat)
    requires Part(segs, hw, ex, p) && p <= q && forall x: nat :: p <= x < q ==> !Free(hw, ex, x)
    ensures Part(segs, hw, ex, q)
  {
  }

  lemma AppendCovers(segs: seq<Region>, r: Region, x: nat)
    ensures Covers(segs + [r], x) <==> Covers(segs, x) || Inside(r, x)
  {
    var t := segs + [r];
    if i :| 0 <= i < |segs| && Inside(segs[i], x) { assert Inside(t[i], x); }
    if Inside(r, x) { assert Inside(t[|segs|], x); }
  }

  /** add_seg on a whole gap between two addresses that are not free. */
  lemma PartAdd(segs: seq<Region>, hw: seq<Region>, ex: seq<Region>, p: nat, q: nat)
    requires Part(segs, hw, ex, p) && p < q && !Free(hw, ex, q) && forall x: nat :: p <= x < q ==> Free(hw, ex, x)
    ensures Part(segs + [Region(p, q - p)], hw, ex, q + 1)
  {
    hide Free, Covers;
    var r := Region(p, q - p);
    forall x: nat ensures Covers(segs + [r], x) <==> x < q + 1 && Free(hw, ex, x) {
      AppendCovers(segs, r, x);
    }
    AppendNormal(segs, r);
  }

  lemma AppendNormal(segs: seq<Region>, r: Region)
    requires Normal(segs) && r.size > 0 && (segs != [] ==> segs[|segs| - 1].End() < r.addr)
    ensures Normal(segs + [r])
  {
    assert Spliced(segs, |segs|, |segs|, r) == segs + [r];
    SplicedNormal(segs, |segs|, |segs|, r);
  }

  /** Between the exclusions before k and the start of exclusion k nothing is excluded. */
  lemma NotExcluded(ex: seq<Region>, k: nat, x: nat)
    requires Normal(ex) && k <= |ex| && (forall j :: 0 <= j < k ==> ex[j].End() <= x) && (k < |ex| ==> x < ex[k].addr)
    ensures !Covers(ex, x)
  {
  }

  lemma Excluded(ex: seq<Region>, k: nat, x: nat)
    requires k < |ex| && ex[k].addr <= x < ex[k].End()
    ensures Covers(ex, x)
  {
    assert Inside(ex[k], x);
  }

  /** The addresses that follow a bank, up to the next bank, are not RAM. */
  lemma BetweenBanks(hw: seq<Region>, k: nat, x: nat)
    requires Normal(hw) && k <= |hw| && (k > 0 ==> hw[k - 1].End() <= x) && (k < |hw| ==> x < hw[k].addr)
    ensures !Covers(hw, x)
  {
    forall j | 0 <= j < |hw| ensures !Inside(hw[j], x) {
      assert j < k ==> hw[j].End() <= hw[k - 1].End();
      assert j > k ==> hw[k].addr <= hw[j].addr;
    }
  }

  /** What is left to do when the walk over the exclusions stops: [start, end) is the rest of bank k. */
  ghost predicate Leaves(segs: seq<Region>, hw: seq<Region>, ex: seq<Region>, k: nat, start: nat, end: nat)
    requires k < |hw|
  {
    && hw[k].addr <= start && end <= hw[k].End()
    && (if start < end
        then Part(segs, hw, ex, start) && (forall x: nat :: start <= x < end ==> Free(hw, ex, x)) && (forall x: nat :: end <= x <= hw[k].End() ==> !Free(hw, ex, x))
        else Part(segs, hw, ex, hw[k].End() + 1))
  }

  lemma LeavesDone(segs: seq<Region>, hw: seq<Region>, ex: seq<Region>, k: nat, start: nat, end: nat)
    requires k < |hw| && Leaves(segs, hw, ex, k, start, end)
    ensures Part(if start < end then segs + [Region(start, end - start)] else segs, hw, ex, hw[k].End() + 1)
  {
    hide Part, Free;
    if start < end {
      PartAdd(segs, hw, ex, start, end);
      PartSkip(segs + [Region(start, end - start)], hw, ex, end + 1, hw[k].End() + 1);
    }
  }

  /** Where the walk over bank k stands: exclusions below e end by start. */
  ghost predicate Walking(segs: seq<Region>, hw: seq<Region>, ex: seq<Region>, k: nat, e: nat, start: nat) {
    && Normal(hw) && Normal(ex) && k < |hw| && e <= |ex|
    && hw[k].addr <= start < hw[k].End() && Part(segs, hw, ex, start)
    && forall j :: 0 <= j < e ==> ex[j].End() <= start
  }

  lemma BankEnd(hw: seq<Region>, k: nat)
    requires Normal(hw) && k < |hw|
    ensures !Covers(hw, hw[k].End()) && forall x: nat :: hw[k].addr <= x < hw[k].End() ==> Covers(hw, x)
  {
    BetweenBanks(hw, k + 1, hw[k].End());
    forall x: nat | hw[k].addr <= x < hw[k].End() ensures Covers(hw, x) { assert Inside(hw[k], x); }
  }

  /** No exclusion reaches the rest of the bank. */
  lemma WalkOut(segs: seq<Region>, hw: seq<Region>, ex: seq<Region>, k: nat, e: nat, start: nat)
    requires Walking(segs, hw, ex, k, e, start) && (e < |ex| ==> ex[e].addr >= hw[k].End())
    ensures Leaves(segs, hw, ex, k, start, hw[k].End())
  {
    hide Part, Covers, Normal;
    BankEnd(hw, k);
    forall x: nat | start <= x < hw[k].End() ensures Free(hw, ex, x) { NotExcluded(ex, e, x); }
  }

  /** Exclusion e clips the tail. */
  lemma WalkTail(segs: seq<Region>, hw: seq<Region>, ex: seq<Region>, k: nat, e: nat, start: nat)
    requires Walking(segs, hw, ex, k, e, start) && e < |ex| && start < ex[e].addr < hw[k].End() <= ex[e].End()
    ensures Leaves(segs, hw, ex, k, start, ex[e].addr)
  {
    hide Part, Covers, Normal;
    BankEnd(hw, k);
    forall x: nat | start <= x < ex[e].addr ensures Free(hw, ex, x) { NotExcluded(ex, e, x); }
    forall x: nat | ex[e].addr <= x <= hw[k].End() ensures !Free(hw, ex, x) {
      if x < hw[k].End() { Excluded(ex, e, x); }
    }
  }

  /** Exclusion e covers the rest of the bank. */
  lemma WalkCover(segs: seq<Region>, hw: seq<Region>, ex: seq<Region>, k: nat, e: nat, start: nat)
    requires Walking(segs, hw, ex, k, e, start) && e < |ex| && ex[e].addr <= start && hw[k].End() <= ex[e].End()
    ensures Leaves(segs, hw, ex, k, ex[e].End(), hw[k].End())
  {
    hide Part, Covers, Normal;
    BankEnd(hw, k);
    forall x: nat | start <= x < hw[k].End() + 1 ensures !Free(hw, ex, x) {
      if x < hw[k].End() { Excluded(ex, e, x); }
    }
    PartSkip(segs, hw, ex, start, hw[k].End() + 1);
  }

  lemma EndsBy(ex: seq<Region>, e: nat, start: nat)
    requires Normal(ex) && e < |ex| && ex[e].End() <= start
    ensures forall j :: 0 <= j < e + 1 ==> ex[j].End() <= start
  {
  }

  /** Exclusion e lies before start, or clips the front. */
  lemma WalkOn(segs: seq<Region>, hw: seq<Region>, ex: seq<Region>, k: nat, e: nat, start: nat)
    requires Walking(segs, hw, ex, k, e, start) && e < |ex| && ex[e].addr <= start && ex[e].End() < hw[k].End()
    ensures Walking(segs, hw, ex, k, e + 1, Max(start, ex[e].End()))
  {
    hide Part, Covers, Normal;
    var q := Max(start, ex[e].End());
    forall x: nat | start <= x < q ensures !Free(hw, ex, x) { Excluded(ex, e, x); }
    PartSkip(segs, hw, ex, start, q);
    EndsBy(ex, e, q);
  }

  /** Exclusion e splits the bank. */
  lemma WalkSplit(segs: seq<Region>, hw: seq<Region>, ex: seq<Region>, k: nat, e: nat, start: nat)
    requires Walking(segs, hw, ex, k, e, start) && e < |ex| && start < ex[e].addr && ex[e].size > 0 && ex[e].End() < hw[k].End()
    ensures Walking(segs + [Region(start, ex[e].addr - start)], hw, ex, k, e + 1, ex[e].End())
  {
    hide Part, Covers, Normal;
    BankEnd(hw, k);
    forall x: nat | start <= x < ex[e].addr ensures Free(hw, ex, x) { NotExcluded(ex, e, x); }
    Excluded(ex, e, ex[e].addr);
    PartAdd(segs, hw, ex, start, ex[e].addr);
    forall x: nat | ex[e].addr + 1 <= x < ex[e].End() ensures !Free(hw, ex, x) { Excluded(ex, e, x); }
    PartSkip(segs + [Region(start, ex[e].addr - start)], hw, ex, ex[e].addr + 1, ex[e].End());
    EndsBy(ex, e, ex[e].End());
  }

  /** At the start of bank k. */
  lemma WalkIn(segs: seq<Region>, hw: seq<Region>, ex: seq<Region>, k: nat)
    requires Normal(hw) && Normal(ex) && k < |hw| && Part(segs, hw, ex, if k == 0 then 0 else hw[k - 1].End() + 1)
    ensures Walking(segs, hw, ex, k, 0, hw[k].addr)
  {
    hide Part, Covers;
    var p := if k == 0 then 0 else hw[k - 1].End() + 1;
    forall x: nat | p <= x < hw[k].addr ensures !Free(hw, ex, x) { BetweenBanks(hw, k, x); }
    PartSkip(segs, hw, ex, p, hw[k].addr);
  }

  /** Nothing lies above the last bank. */
  lemma PartWhole(segs: seq<Region>, hw: seq<Region>, ex: seq<Region>)
    requires Normal(hw) && Part(segs, hw, ex, if hw == [] then 0 else hw[|hw| - 1].End() + 1)
    ensures Normal(segs) && forall x: nat :: Covers(segs, x) <==> Free(hw, ex, x)
  {
    hide Covers;
    forall x: nat ensures Covers(segs, x) <==> Free(hw, ex, x) {
      if hw == [] || x > hw[|hw| - 1].End() { BetweenBanks(hw, |hw|, x); }
    }
  }

  /** Each exclusion splits at most one bank: the splits so far are charged to exclusions below c,
      all of which start below limit. */
  predicate Charged(ex: seq<Region>, c: nat, limit: nat) {
    c <= |ex| && (c > 0 ==> ex[c - 1].addr < limit)
  }

  lemma StartsGrow(ex: seq<Region>, e: nat)
    requires Normal(ex) && e < |ex|
    ensures forall j :: e <= j < |ex| ==> ex[e].addr <= ex[j].addr
  {
  }

  lemma ChargeNext(ex: seq<Region>, c: nat, e: nat, start: nat)
    requires Normal(ex) && e < |ex| && start < ex[e].addr && c <= |ex| && (c <= e || Charged(ex, c, start))
    ensures c <= e && Charged(ex, e + 1, ex[e].End() + 1)
  {
    StartsGrow(ex, e);
  }

  class PhysicalMap {
    const hw: array<Region>
    const ex: array<Region>
    const segs: array<Region>
    var hwcnt: nat
    var excnt: nat
    var nsegs: nat

    constructor ()
      ensures Valid() && Hw() == [] && Ex() == [] && Segs() == []
    {
      hw := new Region[MAX_HWCNT](_ => Region(0, 0));
      ex := new Region[MAX_EXCNT](_ => Region(0, 0));
      segs := new Region[VM_PHYSSEG_MAX](_ => Region(0, 0));
      hwcnt, excnt, nsegs := 0, 0, 0;
    }

    ghost predicate Shape()
      reads this
    {
      && hw != ex && hw != segs && ex != segs
      && hw.Length == MAX_HWCNT && ex.Length == MAX_EXCNT && segs.Length == VM_PHYSSEG_MAX
      && hwcnt <= hw.Length && excnt <= ex.Length && nsegs <= segs.Length
    }

    ghost function Hw(): seq<Region>
      requires Shape()
      reads this, hw
    {
      hw[..hwcnt]
    }

    ghost function Ex(): seq<Region>
      requires Shape()
      reads this, ex
    {
      ex[..excnt]
    }

    ghost function Segs(): seq<Region>
      requires Shape()
      reads this, segs
    {
      segs[..nsegs]
    }

    ghost predicate Valid()
      reads this, hw, ex
    {
      Shape() && Normal(Hw()) && Normal(Ex()) && Paged(Hw()) && Paged(Ex()) && Below(Hw())
    }

    /** physmem_hardware_region; false is the panic. */
    method HardwareRegion(pa: nat, size: nat) returns (ok: bool)
      requires Valid()
      modifies this`hwcnt, hw
      ensures Valid() && Ex() == old(Ex()) && Segs() == old(Segs())
      ensures !ok <==> old(hwcnt) == MAX_HWCNT && BankRange(pa, size).size > 0 && Clear(old(Hw()), BankRange(pa, size))
      ensures ok ==> forall x: nat :: Covers(Hw(), x) <==> Covers(old(Hw()), x) || Inside(BankRange(pa, size), x)
      ensures !ok ==> Hw() == old(Hw())
    {
      hide Covers, Normal, Clear, Paged, Below, Inside;
      var start, end := RoundUp(pa), RoundDown(Wrap(pa + size));
      if start >= end { Nothing(); return true; }
      var n := InsertRegion(hw, hwcnt, Region(start, end - start));
      if n.None? {
        assert hw[..hwcnt] == hw[..][..hwcnt];
        return false;
      }
      BankPaged(pa, size);
      PagedUnion(old(Hw()), hw[..n.value], BankRange(pa, size));
      hwcnt := n.value;
      ok := true;
    }

    /** physmem_exclude_region; false is the panic. */
    method ExcludeRegion(pa: nat, size: nat) returns (ok: bool)
      requires Valid()
      modifies this`excnt, ex
      ensures Valid() && Hw() == old(Hw()) && Segs() == old(Segs())
      ensures !ok <==> old(excnt) == MAX_EXCNT && SpentRange(pa, size).size > 0 && Clear(old(Ex()), SpentRange(pa, size))
      ensures ok ==> forall x: nat :: Covers(Ex(), x) <==> Covers(old(Ex()), x) || Inside(SpentRange(pa, size), x)
      ensures !ok ==> Ex() == old(Ex())
    {
      hide Covers, Normal, Clear, Paged, Below, Inside;
      var start, end := RoundDown(pa), RoundUp(Wrap(pa + size));
      if start >= end { Nothing(); return true; }
      var n := InsertRegion(ex, excnt, Region(start, end - start));
      if n.None? {
        assert ex[..excnt] == ex[..][..excnt];
        return false;
      }
      SpentPaged(pa, size);
      PagedUnion(old(Ex()), ex[..n.value], SpentRange(pa, size));
      excnt := n.value;
      ok := true;
    }

    /** physmem_excluded.  A range whose end wraps is found only inside one exclusion that spans from
        the wrapped end to the start. */
    method IsExcluded(pa: nat, size: nat) returns (r: bool)
      requires Valid() && pa < TWO64 && size < TWO64
      ensures size > 0 && pa + size < TWO64 ==> (r <==> exists x: nat :: pa <= x < pa + size && Covers(Ex(), x))
      ensures pa + size >= TWO64 ==> (r <==> exists k :: 0 <= k < excnt && Ex()[k].addr < pa + size - TWO64 && pa < Ex()[k].End())
    {
      hide Normal, Wrap;
      ghost var s := Ex();
      WrapIs(pa + size);
      var end := Wrap(pa + size);
      for i := 0 to excnt
        invariant forall k :: 0 <= k < i ==> pa >= s[k].End() || end <= s[k].addr
      {
        if pa < ex[i].End() && end > ex[i].addr {
          ghost var x: nat := Max(pa, ex[i].addr);
          NonEmpty(s, i);
          if size > 0 && pa + size < TWO64 { assert Inside(s[i], x) && Covers(s, x); }
          assert s[i] == ex[i];
          return true;
        }
      }
      r := false;
    }

    /** add_seg; the callers never reach its panic. */
    method AddSeg(start: nat, end: nat)
      requires Shape() && (start < end ==> nsegs < VM_PHYSSEG_MAX)
      modifies this`nsegs, segs
      ensures Shape() && Segs() == if start < end then old(Segs()) + [Region(start, end - start)] else old(Segs())
    {
      if start >= end { return; }
      segs[nsegs] := Region(start, end - start);
      nsegs := nsegs + 1;
    }

    /** physmem_avail's walk over the exclusions for bank k; c is the charge. */
    method Carve(k: nat, ghost c: nat) returns (ghost c': nat)
      requires Valid() && k < hwcnt && Walking(Segs(), Hw(), Ex(), k, 0, hw[k].addr)
      requires Charged(Ex(), c, hw[k].addr) && nsegs <= k + c
      modifies this`nsegs, segs
      ensures Valid() && Part(Segs(), Hw(), Ex(), hw[k].End() + 1)
      ensures Charged(Ex(), c', hw[k].End()) && nsegs <= k + 1 + c'
    {
      hide Normal, Part, Free, Covers, Paged, Below;
      ghost var h, x := Hw(), Ex();
      var start: nat := hw[k].addr;
      var end: nat := start + hw[k].size;
      c' := c;
      var e: nat := 0;
      while e < excnt
        invariant e <= excnt && end == hw[k].End() && Shape()
        invariant Walking(Segs(), h, x, k, e, start)
        invariant c' <= |x| && (c' <= e || Charged(x, c', start)) && Charged(x, c', end) && nsegs <= k + c'
      {
        var xstart, xend := ex[e].addr, ex[e].End();
        NonEmpty(x, e);
        if xend <= start {
          WalkOn(Segs(), h, x, k, e, start);
          e := e + 1;
          continue;
        }
        if xstart >= end { break; }
        if xstart <= start {
          if xend >= end {
            WalkCover(Segs(), h, x, k, e, start);
            start := xend;
            break;
          }
          WalkOn(Segs(), h, x, k, e, start);
          start := xend;
          e := e + 1;
          continue;
        }
        if xend >= end {
          WalkTail(Segs(), h, x, k, e, start);
          end := xstart;
          break;
        }
        ChargeNext(x, c', e, start);
        WalkSplit(Segs(), h, x, k, e, start);
        AddSeg(start, xstart);
        c' := e + 1;
        start := xend;
        e := e + 1;
      }
      if end == hw[k].End() && start < end { WalkOut(Segs(), h, x, k, e, start); }
      LeavesDone(Segs(), h, x, k, start, end);
      AddSeg(start, end);
    }

    /** physmem_avail: banks minus exclusions, in normal form, in at most hwcnt + excnt segments. */
    method Avail()
      requires Valid()
      modifies this`nsegs, segs
      ensures Valid() && Published()
      ensures nsegs <= hwcnt + excnt < VM_PHYSSEG_MAX
    {
      hide Normal, Part, Free, Covers, Charged, Paged, Below;
      ghost var h, x := Hw(), Ex();
      nsegs := 0;
      ghost var c: nat := 0;
      NothingYet(h, x);
      for k := 0 to hwcnt
        invariant Shape() && nsegs <= k + c && Charged(x, c, if k == 0 then 0 else h[k - 1].End())
        invariant Part(Segs(), h, x, if k == 0 then 0 else h[k - 1].End() + 1)
      {
        WalkIn(Segs(), h, x, k);
        ChargeOn(h, x, k, c);
        c := Carve(k, c);
      }
      ChargeBound(x, c);
      PartWhole(Segs(), h, x);
    }

    /** The segments are in normal form and cover exactly the banks minus the exclusions. */
    ghost predicate Published()
      requires Shape()
      reads this, hw, ex, segs
    {
      Normal(Segs()) && forall x: nat :: Covers(Segs(), x) <==> Free(Hw(), Ex(), x)
    }

    /** physmem_seg */
    method SegOf(pa: nat) returns (r: Option<nat>)
      requires Valid() && Published()
      ensures r.Some? <==> Free(Hw(), Ex(), pa)
      ensures r.Some? ==> r.value < nsegs && forall i :: 0 <= i < nsegs ==> (Inside(segs[i], pa) <==> i == r.value)
    {
      for i := 0 to nsegs
        invariant forall k :: 0 <= k < i ==> !Inside(Segs()[k], pa)
      {
        if segs[i].addr <= pa < segs[i].End() {
          assert Inside(Segs()[i], pa) && Covers(Segs(), pa);
          OnlyOne(Segs(), i, pa);
          return Some(i);
        }
      }
      r := None;
    }
  }

  lemma NonEmpty(s: seq<Region>, i: nat)
    requires Normal(s) && i < |s|
    ensures s[i].size > 0
  {
  }

  lemma OnlyOne(s: seq<Region>, i: nat, x: nat)
    requires Normal(s) && i < |s| && Inside(s[i], x)
    ensures forall k :: 0 <= k < |s| && k != i ==> !Inside(s[k], x)
  {
  }

  lemma NothingYet(hw: seq<Region>, ex: seq<Region>)
    ensures Part([], hw, ex, 0) && Charged(ex, 0, 0)
  {
  }

  lemma ChargeBound(ex: seq<Region>, c: nat)
    ensures forall limit: nat :: Charged(ex, c, limit) ==> c <= |ex|
  {
  }

  lemma ChargeOn(hw: seq<Region>, ex: seq<Region>, k: nat, c: nat)
    requires Normal(hw) && k < |hw| && Charged(ex, c, if k == 0 then 0 else hw[k - 1].End())
    ensures Charged(ex, c, hw[k].addr)
  {
  }

  /* ---- rounding ---- */

  /** What physmem_hardware_region records; nothing if the size is 0. */
  function BankRange(pa: nat, size: nat): Region {
    var start, end := RoundUp(pa), RoundDown(Wrap(pa + size));
    if start < end then Region(start, end - start) else Region(0, 0)
  }

  /** What physmem_exclude_region records; nothing if the size is 0. */
  function SpentRange(pa: nat, size: nat): Region {
    var start, end := RoundDown(pa), RoundUp(Wrap(pa + size));
    if start < end then Region(start, end - start) else Region(0, 0)
  }

  lemma Nothing()
    ensures forall x: nat :: !Inside(Region(0, 0), x)
  {
  }

  /** Whole pages only. */
  ghost predicate Paged(s: seq<Region>) {
    forall x: nat :: Covers(s, x) <==> Covers(s, RoundDown(x))
  }

  ghost predicate PagedRegion(r: Region) {
    r.addr % PGSIZE == 0 && r.End() % PGSIZE == 0
  }

  /** Below the last page of the 64-bit space. */
  ghost predicate Below(s: seq<Region>) {
    forall x: nat :: Covers(s, x) ==> x < TWO64 - PGSIZE
  }

  lemma PagedUnion(s: seq<Region>, t: seq<Region>, r: Region)
    requires Paged(s) && PagedRegion(r) && forall x: nat :: Covers(t, x) <==> Covers(s, x) || Inside(r, x)
    ensures Paged(t) && (Below(s) && r.End() <= TWO64 - PGSIZE ==> Below(t))
  {
    hide Covers, RoundDown;
    forall x: nat ensures Covers(t, x) <==> Covers(t, RoundDown(x)) {
      DownIs(x);
      DownLe(r.addr, x);
      DownLe(r.End(), x);
    }
  }

  lemma BankPaged(pa: nat, size: nat)
    ensures PagedRegion(BankRange(pa, size)) && BankRange(pa, size).End() <= TWO64 - PGSIZE
  {
    hide RoundDown, Wrap;
    DownIs(Wrap(pa + PGSIZE - 1));
    DownIs(Wrap(pa + size));
    WrapBelow(pa + size);
    TopAligned();
    Step(RoundDown(Wrap(pa + size)), TWO64);
  }

  lemma SpentPaged(pa: nat, size: nat)
    ensures PagedRegion(SpentRange(pa, size))
  {
    hide RoundDown, Wrap;
    DownIs(pa);
    DownIs(Wrap(Wrap(pa + size) + PGSIZE - 1));
  }

  lemma WrapBelow(x: nat)
    ensures Wrap(x) < TWO64
  {
  }

  /** The page of x lies wholly inside the range. */
  predicate WholePage(pa: nat, size: nat, x: nat) {
    pa <= RoundDown(x) && RoundDown(x) + PGSIZE <= pa + size
  }

  ghost predicate BankExact(pa: nat, size: nat) {
    forall x: nat :: Inside(BankRange(pa, size), x) <==> WholePage(pa, size, x)
  }

  /* RoundDown(x) is the greatest page boundary at or below x. */

  lemma DownIs(x: nat)
    ensures RoundDown(x) <= x < RoundDown(x) + PGSIZE && RoundDown(x) % PGSIZE == 0
  {
  }

  lemma DownLe(a: nat, x: nat)
    requires a % PGSIZE == 0
    ensures a <= RoundDown(x) <==> a <= x
  {
    DownIs(x);
    Step(a, RoundDown(x));
    Step(RoundDown(x), a);
  }

  /** Page boundaries are a page apart. */
  lemma Step(a: nat, b: nat)
    requires a % PGSIZE == 0 && b % PGSIZE == 0
    ensures a < b ==> a + PGSIZE <= b
  {
  }

  lemma WrapIs(x: nat)
    requires x < 2 * TWO64
    ensures Wrap(x) == if x < TWO64 then x else x - TWO64
  {
  }

  /** RoundDown(x + PGSIZE - 1) is the least page boundary at or above x. */
  lemma UpLe(a: nat, x: nat)
    requires a % PGSIZE == 0
    ensures RoundDown(x + PGSIZE - 1) <= a <==> x <= a
  {
    DownIs(x + PGSIZE - 1);
    Step(a, RoundDown(x + PGSIZE - 1));
  }

  /** Without wrapping, rounding inward keeps exactly the whole pages. */
  lemma WholePages(pa: nat, end: nat, x: nat)
    ensures RoundDown(pa + PGSIZE - 1) <= x < RoundDown(end) <==> pa <= RoundDown(x) && RoundDown(x) + PGSIZE <= end
  {
    hide RoundDown;
    var lo, hi, p := RoundDown(pa + PGSIZE - 1), RoundDown(end), RoundDown(x);
    DownIs(x);
    DownIs(pa + PGSIZE - 1);
    DownIs(end);
    DownLe(lo, x);
    UpLe(p, pa);
    Step(p, hi);
    NextAligned(p);
    DownLe(p + PGSIZE, end);
  }

  lemma NextAligned(p: nat)
    requires p % PGSIZE == 0
    ensures (p + PGSIZE) % PGSIZE == 0
  {
  }

  lemma DownTop()
    ensures RoundDown(0) == 0 && RoundDown(TWO64) == TWO64 && RoundDown(TWO64 - PGSIZE) == TWO64 - PGSIZE
  {
  }

  /** A bank is recorded as its whole pages, unless a sum wraps. */
  lemma BankExactIff(pa: nat, size: nat)
    requires pa < TWO64 && size < TWO64
    ensures BankExact(pa, size) <==>
            if pa + PGSIZE - 1 < TWO64 then pa + size < TWO64 else TWO64 <= pa + size < TWO64 + PGSIZE
  {
    hide RoundDown, Wrap;
    WrapIs(pa + size);
    WrapIs(pa + PGSIZE - 1);
    DownTop();
    if pa + PGSIZE - 1 < TWO64 {
      if pa + size < TWO64 {
        forall x: nat ensures Inside(BankRange(pa, size), x) <==> WholePage(pa, size, x) { WholePages(pa, pa + size, x); }
      } else {
        DownIs(pa + size - TWO64);
        DownIs(pa + PGSIZE - 1);
        UpLe(RoundDown(pa + PGSIZE - 1), pa);
        assert WholePage(pa, size, TWO64 - PGSIZE) && !Inside(BankRange(pa, size), TWO64 - PGSIZE);
      }
    } else {
      BankWrapped(pa, size);
    }
  }

  lemma BankWrapped(pa: nat, size: nat)
    requires pa < TWO64 <= pa + PGSIZE - 1 && size < TWO64
    ensures BankExact(pa, size) <==> TWO64 <= pa + size < TWO64 + PGSIZE
  {
    hide RoundDown, Wrap;
    WrapIs(pa + size);
    WrapIs(pa + PGSIZE - 1);
    DownTop();
    SmallDown(pa + PGSIZE - 1 - TWO64);
    DownLe(TWO64 - PGSIZE, pa + size);
    if pa + size < TWO64 {
      assert Inside(BankRange(pa, size), 0) && !WholePage(pa, size, 0);
    } else if pa + size >= TWO64 + PGSIZE {
      DownIs(pa + size - TWO64);
      DownIs(TWO64);
      assert WholePage(pa, size, TWO64) && !Inside(BankRange(pa, size), TWO64);
    } else {
      SmallDown(pa + size - TWO64);
      forall x: nat ensures !WholePage(pa, size, x) {
        DownIs(x);
        Step(RoundDown(x), RoundDown(TWO64));
        Step(RoundDown(TWO64), RoundDown(x));
        TopAligned();
      }
    }
  }

  lemma TopAligned()
    ensures TWO64 % PGSIZE == 0
  {
  }

  lemma SmallDown(x: nat)
    requires x < PGSIZE
    ensures RoundDown(x) == 0
  {
  }

  ghost predicate SpentCovered(pa: nat, size: nat) {
    forall x: nat :: pa <= x < pa + size ==> Inside(SpentRange(pa, size), x)
  }

  /** An exclusion covers everything it was asked to withhold, unless rounding up wraps: then it is lost. */
  lemma SpentCoveredIff(pa: nat, size: nat)
    requires pa < TWO64 && size < TWO64
    ensures SpentCovered(pa, size) <==> size == 0 || pa + size + PGSIZE - 1 < TWO64
  {
    if size > 0 {
      if pa + size + PGSIZE - 1 < TWO64 { SpentKept(pa, size); } else { SpentLost(pa, size); }
    }
  }

  lemma SpentKept(pa: nat, size: nat)
    requires 0 < size && pa + size + PGSIZE - 1 < TWO64
    ensures SpentCovered(pa, size)
  {
    hide RoundDown, Wrap;
    WrapIs(pa + size);
    WrapIs(pa + size + PGSIZE - 1);
    DownIs(pa);
    DownIs(pa + size + PGSIZE - 1);
    var end := RoundUp(Wrap(pa + size));
    assert end == RoundDown(pa + size + PGSIZE - 1);
    UpLe(end, pa + size);
    assert SpentRange(pa, size) == Region(RoundDown(pa), end - RoundDown(pa));
  }

  /** A bank that reaches the top of the address space is dropped without a word. */
  lemma BankDropped(pa: nat, size: nat)
    requires pa + PGSIZE - 1 < TWO64 <= pa + size && size < TWO64
    ensures BankRange(pa, size).size == 0
  {
    hide RoundDown, Wrap;
    WrapIs(pa + size);
    WrapIs(pa + PGSIZE - 1);
    DownIs(pa + size - TWO64);
    DownIs(pa + PGSIZE - 1);
    UpLe(RoundDown(pa + PGSIZE - 1), pa);
  }

  /** A bank that starts inside the last page and does not leave it is recorded as everything below that page. */
  lemma BankHuge(pa: nat, size: nat)
    requires pa + size < TWO64 <= pa + PGSIZE - 1
    ensures BankRange(pa, size) == Region(0, TWO64 - PGSIZE)
  {
    hide RoundDown, Wrap;
    WrapIs(pa + size);
    WrapIs(pa + PGSIZE - 1);
    SmallDown(pa + PGSIZE - 1 - TWO64);
    DownTop();
    TopAligned();
    DownIs(pa + size);
    DownLe(TWO64 - PGSIZE, pa + size);
    Step(RoundDown(pa + size), TWO64);
  }

  /** An exclusion that ends inside the last page is lost whole. */
  lemma SpentDropped(pa: nat, size: nat)
    requires pa + size < TWO64 <= pa + size + PGSIZE - 1
    ensures SpentRange(pa, size).size == 0
  {
    hide RoundDown, Wrap;
    WrapIs(pa + size);
    WrapIs(pa + size + PGSIZE - 1);
    SmallDown(pa + size + PGSIZE - 1 - TWO64);
    DownIs(pa);
  }

  /** Inputs at which the code fails: the top 4 GB given as a bank, an empty bank at the last byte,
      and an exclusion of one page and a byte at the top. */
  lemma WrapWitnesses()
    ensures BankRange(TWO64 - 0x1_0000_0000, 0x1_0000_0000).size == 0 && !BankExact(TWO64 - 0x1_0000_0000, 0x1_0000_0000)
    ensures BankRange(TWO64 - 1, 0) == Region(0, TWO64 - PGSIZE) && !BankExact(TWO64 - 1, 0)
    ensures SpentRange(TWO64 - 2 * PGSIZE, PGSIZE + 1).size == 0 && !SpentCovered(TWO64 - 2 * PGSIZE, PGSIZE + 1)
  {
    BankDropped(TWO64 - 0x1_0000_0000, 0x1_0000_0000);
    BankExactIff(TWO64 - 0x1_0000_0000, 0x1_0000_0000);
    BankHuge(TWO64 - 1, 0);
    BankExactIff(TWO64 - 1, 0);
    SpentDropped(TWO64 - 2 * PGSIZE, PGSIZE + 1);
    SpentCoveredIff(TWO64 - 2 * PGSIZE, PGSIZE + 1);
  }

  lemma SpentLost(pa: nat, size: nat)
    requires pa < TWO64 && 0 < size < TWO64 && pa + size + PGSIZE - 1 >= TWO64
    ensures !SpentCovered(pa, size)
  {
    hide RoundDown, Wrap;
    WrapIs(pa + size);
    var y := Wrap(pa + size);
    WrapIs(y + PGSIZE - 1);
    DownIs(pa);
    if pa + size < TWO64 {
      SmallDown(y + PGSIZE - 1 - TWO64);
    } else if y + PGSIZE - 1 < TWO64 {
      DownIs(y + PGSIZE - 1);
    } else {
      SmallDown(y + PGSIZE - 1 - TWO64);
    }
    assert !Inside(SpentRange(pa, size), pa + size - 1);
  }

  /** Recording the same ranges in any order and with any overlap publishes the same segments. */
  lemma PublishedUnique(segs: seq<Region>, segs': seq<Region>, hw: seq<Region>, hw': seq<Region>, ex: seq<Region>, ex': seq<Region>)
    requires Normal(segs) && forall x: nat :: Covers(segs, x) <==> Free(hw, ex, x)
    requires Normal(segs') && forall x: nat :: Covers(segs', x) <==> Free(hw', ex', x)
    requires forall x: nat :: Covers(hw, x) <==> Covers(hw', x)
    requires forall x: nat :: Covers(ex, x) <==> Covers(ex', x)
    ensures segs == segs'
  {
    Canonical(segs, segs');
  }
}

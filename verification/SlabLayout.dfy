/**
 Where the objects of a slab lie: cache_setup, slab_obj and the slot arithmetic of
 slab_free_locked.
 */
module SlabLayout {
  import opened Physmem
  import opened Kalloc

  const HEADER: nat := 64              // sizeof(struct slab)
  const KMEM_MIN_ALIGN: nat := 16
  const SLAB_MAX_OBJS: nat := PGSIZE / KMEM_MIN_ALIGN

  datatype Layout = Layout(objsize: nat, offset: nat, slots: nat)

  /** (x + a - 1) & ~(a - 1) for a power of two a */
  function AlignUp(x: nat, a: nat): nat
    requires a > 0
  {
    (x + a - 1) / a * a
  }

  /** 0, or a power of two up to the page size: the divisors of the page size. */
  predicate AlignOk(align: nat) {
    align == 0 || PGSIZE % align == 0
  }

  function Align(align: nat): nat {
    if align < KMEM_MIN_ALIGN then KMEM_MIN_ALIGN else align
  }

  /** The same on 64 bits, where the sum can wrap. */
  function Round64(x: nat, a: nat): nat
    requires a > 0
  {
    DownTo(Wrap(x + a - 1), a)
  }

  /** y & ~(a - 1) */
  function DownTo(y: nat, a: nat): nat
    requires a > 0
  {
    y / a * a
  }

  const TWO32: nat := 0x1_0000_0000

  /** slots_per_slab, cut to 32 bits: the 64-bit difference wraps when the offset is beyond the page.
      C does not define the division by an object size of 0; the machine's quotient is 0. */
  function SlotsIn(off: nat, size: nat): nat {
    if size == 0 then 0
    else if off <= PGSIZE then (PGSIZE - off) / size % TWO32
    else (TWO64 - (off - PGSIZE) % TWO64) / size % TWO32
  }

  /** cache_setup; obj_offset is kept in 32 bits. */
  function Setup(size: nat, align: nat): Layout {
    var a := Align(align);
    Layout(Round64(size, a), Round64(HEADER, a) % TWO32, SlotsIn(Round64(HEADER, a), Round64(size, a)))
  }

  /** slab_obj, as an address */
  function ObjAddr(l: Layout, page: nat, slot: nat): nat {
    page + l.offset + slot * l.objsize
  }

  /** The slot slab_free_locked computes from an address. */
  function SlotOf(l: Layout, p: nat): int
    requires l.objsize > 0
  {
    var d := p - (RoundDown(p) + l.offset);
    if d >= 0 then d / l.objsize else -((-d) / l.objsize)
  }

  ghost predicate Multiple(x: nat, a: nat) {
    exists k: nat :: x == k * a
  }

  lemma MultipleSum(x: nat, y: nat, a: nat)
    requires Multiple(x, a) && Multiple(y, a)
    ensures Multiple(x + y, a)
  {
    var j: nat :| x == j * a;
    var k: nat :| y == k * a;
    assert x + y == (j + k) * a;
  }

  lemma MultipleTimes(i: nat, x: nat, a: nat)
    requires Multiple(x, a)
    ensures Multiple(i * x, a)
  {
    var j: nat :| x == j * a;
    assert i * x == (i * j) * a;
  }

  lemma OfMod(x: nat, a: nat)
    requires a > 0 && x % a == 0
    ensures Multiple(x, a)
  {
    assert x == (x / a) * a;
  }

  lemma UpBounds(x: nat, a: nat)
    requires a > 0
    ensures x <= AlignUp(x, a) < x + a && Multiple(AlignUp(x, a), a)
  {
    DivMod(x + a - 1, a);
  }

  /** A multiple of a above x is not below x rounded up. */
  lemma UpLeast(x: nat, a: nat, m: nat)
    requires a > 0 && Multiple(m, a) && x <= m
    ensures AlignUp(x, a) <= m
  {
    hide AlignUp;
    UpBounds(x, a);
    var j: nat :| m == j * a;
    var k: nat :| AlignUp(x, a) == k * a;
    Ordered(j, k, a, x);
  }

  lemma Ordered(j: nat, k: nat, a: nat, x: nat)
    requires x <= j * a && k * a < x + a
    ensures k * a <= j * a
  {
    if k > j { Distribute(j, k, a); }
  }

  lemma {:induction false} Distribute(j: nat, k: nat, a: nat)
    requires j < k
    ensures k * a >= j * a + a
  {
    OneMore(k - 1, a);
    if j < k - 1 { Distribute(j, k - 1, a); }
  }

  lemma OneMore(k: nat, a: nat)
    ensures (k + 1) * a == k * a + a
  {
  }

  lemma AlignDivides(align: nat)
    requires AlignOk(align)
    ensures PGSIZE % Align(align) == 0
  {
  }

  /** The header, rounded up, stays within the page. */
  lemma OffsetFits(align: nat)
    requires AlignOk(align)
    ensures HEADER <= AlignUp(HEADER, Align(align)) <= PGSIZE
  {
    var a := Align(align);
    AlignDivides(align);
    UpBounds(HEADER, a);
    OfMod(PGSIZE, a);
    UpLeast(HEADER, a, PGSIZE);
  }

  lemma Fits(room: nat, size: nat, slot: nat)
    requires size > 0 && slot < room / size
    ensures slot * size + size <= room
  {
    Distribute(slot, room / size, size);
    DivMod(room, size);
  }

  lemma SlotsFit(room: nat, size: nat)
    requires size >= KMEM_MIN_ALIGN && room <= PGSIZE
    ensures room / size <= SLAB_MAX_OBJS
  {
    var n := room / size;
    assert n * size <= room;
    assert n * KMEM_MIN_ALIGN <= n * size;
  }

  /** Unless the sum wraps, and then nothing is left. */
  lemma Round64Is(x: nat, a: nat)
    requires x < TWO64 && 0 < a < TWO64
    ensures Round64(x, a) == if x + a - 1 < TWO64 then AlignUp(x, a) else 0
  {
    WrapIs(x + a - 1);
    if x + a - 1 >= TWO64 { SmallDiv(x + a - 1 - TWO64, a); }
  }

  lemma SmallDiv(x: nat, a: nat)
    requires x < a
    ensures x / a == 0
  {
  }

  /** A cache with slots has the object size asked for, rounded up. */
  lemma SlotsMeanSize(size: nat, align: nat)
    requires 0 < size < TWO64 && align < TWO64 && Setup(size, align).slots > 0
    ensures Setup(size, align).objsize == AlignUp(size, Align(align))
  {
    hide Round64, AlignUp;
    Round64Is(size, Align(align));
  }

  /** ... and for alignments up to a page the header fits, so nothing is cut off. */
  lemma OffsetMeans(size: nat, align: nat)
    requires AlignOk(align) && align < TWO64
    ensures Setup(size, align).offset == AlignUp(HEADER, Align(align)) == Round64(HEADER, Align(align)) <= PGSIZE
  {
    hide AlignUp;
    OffsetFits(align);
    AlignSmall(align);
    Round64Is(HEADER, Align(align));
  }

  lemma AlignSmall(align: nat)
    requires AlignOk(align)
    ensures Align(align) <= PGSIZE
  {
    if align > 0 { ModBig(PGSIZE, align); }
  }

  lemma ModBig(x: nat, a: nat)
    requires a > 0
    ensures x < a ==> x % a == x
  {
  }

  /** Every slot of a slab is aligned, behind the header, inside the page, and found again from its address. */
  lemma SlotExact(size: nat, align: nat, page: nat, slot: nat)
    requires 0 < size < TWO64 && AlignOk(align) && page % PGSIZE == 0 && slot < Setup(size, align).slots
    ensures var l := Setup(size, align); var p := ObjAddr(l, page, slot);
            && Multiple(p, Align(align)) && l.objsize >= size && l.slots <= SLAB_MAX_OBJS
            && InPage(l, page, slot) && RoundDown(p) == page && SlotOf(l, p) == slot
  {
    hide RoundDown, Multiple, InPage, SlotOf, ObjAddr, Setup, AlignOk;
    SetupMeans(size, align);
    PageMultiple(page, align);
    SlotPlaced(Setup(size, align), Align(align), page, slot);
  }

  lemma SetupMeans(size: nat, align: nat)
    requires 0 < size < TWO64 && AlignOk(align) && Setup(size, align).slots > 0
    ensures var l, a := Setup(size, align), Align(align);
            && HEADER <= l.offset <= PGSIZE && Multiple(l.offset, a) && Multiple(l.objsize, a) && l.objsize >= size
            && l.objsize > 0 && l.slots == (PGSIZE - l.offset) / l.objsize <= SLAB_MAX_OBJS
  {
    hide Multiple, AlignUp, Round64, SlotsIn, AlignOk;
    var a, l := Align(align), Setup(size, align);
    AlignSmall(align);
    SlotsMeanSize(size, align);
    OffsetMeans(size, align);
    UpBounds(size, a);
    UpBounds(HEADER, a);
    OffsetFits(align);
    MinSize(size, a);
    SlotsInIs(l.offset, l.objsize);
  }

  lemma SlotsInIs(off: nat, size: nat)
    requires off <= PGSIZE && size >= KMEM_MIN_ALIGN
    ensures SlotsIn(off, size) == (PGSIZE - off) / size <= SLAB_MAX_OBJS
  {
    SlotsFit(PGSIZE - off, size);
    SmallMod((PGSIZE - off) / size);
  }

  lemma SlotPlaced(l: Layout, a: nat, page: nat, slot: nat)
    requires l.objsize > 0 && HEADER <= l.offset <= PGSIZE && slot < (PGSIZE - l.offset) / l.objsize && page % PGSIZE == 0
    requires Multiple(l.objsize, a) && Multiple(l.offset, a) && Multiple(page, a)
    ensures var p := ObjAddr(l, page, slot); Multiple(p, a) && InPage(l, page, slot) && RoundDown(p) == page && SlotOf(l, p) == slot
  {
    hide RoundDown, Multiple;
    Fits(PGSIZE - l.offset, l.objsize, slot);
    MultipleTimes(slot, l.objsize, a);
    MultipleSum(page, l.offset, a);
    MultipleSum(page + l.offset, slot * l.objsize, a);
    DownOf(page, ObjAddr(l, page, slot));
    Recover(slot, l.objsize);
  }

  lemma SmallMod(x: nat)
    requires x < TWO32
    ensures x % TWO32 == x
  {
  }

  /** The slot lies behind the header and inside its page. */
  predicate InPage(l: Layout, page: nat, slot: nat) {
    page + HEADER <= ObjAddr(l, page, slot) && ObjAddr(l, page, slot) + l.objsize <= page + PGSIZE
  }

  predicate PowerOfTwo(a: nat) {
    a == 1 || (a > 1 && a % 2 == 0 && PowerOfTwo(a / 2))
  }

  lemma {:induction false} PowersDivide(a: nat, m: nat)
    requires PowerOfTwo(a) && PowerOfTwo(m) && a <= m
    ensures Multiple(m, a)
  {
    if a == 1 {
      assert m == m * 1;
    } else {
      PowersDivide(a / 2, m / 2);
      var k: nat :| m / 2 == k * (a / 2);
      assert m == k * a;
    }
  }

  lemma PagePower()
    ensures PowerOfTwo(PGSIZE)
  {
    assert PowerOfTwo(16);
    assert PowerOfTwo(256);
  }

  lemma PowerOk(align: nat)
    requires PowerOfTwo(align) && align <= PGSIZE
    ensures AlignOk(align)
  {
    PagePower();
    PowersDivide(align, PGSIZE);
    var k: nat :| PGSIZE == k * align;
    Recover(k, align);
    DivMod(PGSIZE, align);
  }

  /** A cache that kmem_cache_create accepts keeps its objects in their pages exactly for alignments up
      to a page. */
  lemma InPageIff(size: nat, align: nat, page: nat)
    requires 0 < size < TWO64 && align < TWO64 && (align == 0 || PowerOfTwo(align))
    requires page % PGSIZE == 0 && Setup(size, align).slots > 0
    ensures (forall slot: nat :: slot < Setup(size, align).slots ==> InPage(Setup(size, align), page, slot)) <==> align <= PGSIZE
  {
    hide Setup, InPage, PowerOfTwo;
    if align <= PGSIZE {
      if align > 0 { PowerOk(align); }
      forall slot: nat | slot < Setup(size, align).slots ensures InPage(Setup(size, align), page, slot) {
        SlotExact(size, align, page, slot);
      }
    } else {
      TooBig(size, align, page);
    }
  }

  lemma TooBig(size: nat, align: nat, page: nat)
    requires 0 < size < TWO64 && PGSIZE < align < TWO64 && Setup(size, align).slots > 0
    ensures !InPage(Setup(size, align), page, 0)
  {
    hide AlignUp, Round64;
    SlotsMeanSize(size, align);
    UpBounds(size, align);
    var k: nat :| AlignUp(size, align) == k * align;
    AtLeastOne(k, align);
  }

  lemma AtLeastOne(k: nat, a: nat)
    requires k * a > 0
    ensures k * a >= a
  {
  }

  /** Such a cache is accepted: objects of 64 bytes aligned to 8192. */
  lemma TooBigAccepted()
    ensures Setup(64, 8192) == Layout(8192, 8192, 0xFFFF_FFFF)
  {
    hide SlotsIn, Wrap;
    WrapIs(64 + 8191);
    assert Round64(64, 8192) == 8192;
    WrappedSlots();
  }

  lemma WrappedSlots()
    ensures SlotsIn(8192, 8192) == 0xFFFF_FFFF
  {
    assert (TWO64 - PGSIZE) / 8192 == 0x7_FFFF_FFFF_FFFF;
  }

  lemma MinSize(size: nat, a: nat)
    requires size > 0 && a >= KMEM_MIN_ALIGN
    ensures AlignUp(size, a) >= KMEM_MIN_ALIGN
  {
    UpBounds(size, a);
    var k: nat :| AlignUp(size, a) == k * a;
    assert k > 0;
    assert k * a >= a;
  }

  lemma Recover(slot: nat, size: nat)
    requires size > 0
    ensures slot * size / size == slot
  {
    var q := slot * size / size;
    DivMod(slot * size, size);
    if q < slot { Distribute(q, slot, size); }
    if slot < q { Distribute(slot, q, size); }
  }

  lemma DivMod(x: nat, a: nat)
    requires a > 0
    ensures x == x / a * a + x % a && 0 <= x % a < a
  {
  }

  lemma PageMultiple(page: nat, align: nat)
    requires page % PGSIZE == 0 && AlignOk(align)
    ensures Multiple(page, Align(align))
  {
    AlignDivides(align);
    OfMod(PGSIZE, Align(align));
    MultipleTimes(page / PGSIZE, PGSIZE, Align(align));
    assert page == page / PGSIZE * PGSIZE;
  }

  /** Different slots do not overlap. */
  lemma SlotsApart(size: nat, align: nat, page: nat, i: nat, j: nat)
    requires size > 0 && AlignOk(align) && i < j
    ensures var l := Setup(size, align); ObjAddr(l, page, i) + l.objsize <= ObjAddr(l, page, j)
  {
    Distribute(i, j, Setup(size, align).objsize);
  }
}

/**
 The page allocator of kalloc.c: a descriptor array carved from the memory it describes,
 sliced across the segments, with a free list threaded through it.

 A descriptor is named by its index in the array.
 */
module Kalloc {
  import opened Wrappers
  import opened Lists
  import opened Regions
  import opened Physmem

  const DESC_BYTES: nat := 16          // sizeof(struct page)

  function Pages(r: Region): nat { r.size / PGSIZE }

  /** Descriptors given to the segments before i: first_page of segment i. */
  function Before(segs: seq<Region>, i: nat): nat
    requires i <= |segs|
  {
    if i == 0 then 0 else Before(segs, i - 1) + Pages(segs[i - 1])
  }

  function Total(segs: seq<Region>): nat { Before(segs, |segs|) }

  /** Descriptor k stands for address pa, which lies in segment i. */
  predicate At(segs: seq<Region>, i: nat, pa: nat, k: nat) {
    i < |segs| && Inside(segs[i], pa) && k == Before(segs, i) + (pa - segs[i].addr) / PGSIZE
  }

  ghost predicate PageOf(segs: seq<Region>, pa: nat, k: nat) {
    exists i: nat :: At(segs, i, pa, k)
  }

  predicate Good(segs: seq<Region>) {
    Normal(segs) && forall i :: 0 <= i < |segs| ==> segs[i].addr % PGSIZE == 0 && segs[i].size % PGSIZE == 0
  }

  /* ---- the slices do not overlap, and the two lookups are inverse ---- */

  lemma {:induction false} BeforeMono(segs: seq<Region>, i: nat, j: nat)
    requires i <= j <= |segs|
    ensures Before(segs, i) <= Before(segs, j)
  {
    if i < j { BeforeMono(segs, i, j - 1); }
  }

  lemma SliceBound(r: Region, pa: nat)
    requires Inside(r, pa) && r.size % PGSIZE == 0
    ensures (pa - r.addr) / PGSIZE < Pages(r)
  {
  }

  /** A descriptor of segment i lies in segment i's slice. */
  lemma InSlice(segs: seq<Region>, i: nat, pa: nat, k: nat)
    requires Good(segs) && At(segs, i, pa, k)
    ensures Before(segs, i) <= k < Before(segs, i + 1) <= Total(segs)
  {
    SliceBound(segs[i], pa);
    BeforeMono(segs, i + 1, |segs|);
  }

  lemma SlicesDisjoint(segs: seq<Region>, i: nat, j: nat, k: nat)
    requires i < |segs| && j < |segs| && Before(segs, i) <= k < Before(segs, i + 1) && Before(segs, j) <= k < Before(segs, j + 1)
    ensures i == j
  {
    if i < j { BeforeMono(segs, i + 1, j); }
    if j < i { BeforeMono(segs, j + 1, i); }
  }

  /** pa_to_page is a function, and page_to_pa inverts it on page addresses. */
  lemma PageOfInverse(segs: seq<Region>, pa: nat, k: nat, pa': nat, k': nat)
    requires Good(segs) && PageOf(segs, pa, k) && PageOf(segs, pa', k')
    ensures pa == pa' ==> k == k'
    ensures k == k' ==> RoundDown(pa) == RoundDown(pa')
  {
    hide Normal, RoundDown;
    var i: nat :| At(segs, i, pa, k);
    var j: nat :| At(segs, j, pa', k');
    if pa == pa' { OnlyOneOf(segs, i, j, pa); }
    InSlice(segs, i, pa, k);
    InSlice(segs, j, pa', k');
    if k == k' {
      SlicesDisjoint(segs, i, j, k);
      SamePage(segs[i], pa, pa');
    }
  }

  lemma OnlyOneOf(segs: seq<Region>, i: nat, j: nat, pa: nat)
    requires Normal(segs) && i < |segs| && j < |segs| && Inside(segs[i], pa) && Inside(segs[j], pa)
    ensures i == j
  {
    OnlyOne(segs, i, pa);
  }

  lemma SamePage(r: Region, pa: nat, pa': nat)
    requires r.addr % PGSIZE == 0 && Inside(r, pa) && Inside(r, pa') && (pa - r.addr) / PGSIZE == (pa' - r.addr) / PGSIZE
    ensures RoundDown(pa) == RoundDown(pa')
  {
    var q := (pa - r.addr) / PGSIZE;
    AlignedSum(r.addr, q);
    DownOf(r.addr + q * PGSIZE, pa);
    DownOf(r.addr + q * PGSIZE, pa');
  }

  lemma AlignedSum(a: nat, q: nat)
    requires a % PGSIZE == 0
    ensures (a + q * PGSIZE) % PGSIZE == 0
  {
  }

  lemma DownOf(a: nat, x: nat)
    requires a % PGSIZE == 0 && a <= x < a + PGSIZE
    ensures RoundDown(x) == a
  {
    DownIs(x);
    DownLe(a, x);
    Step(a, RoundDown(x));
  }

  /* ---- bytes and pages ---- */

  function Bytes(segs: seq<Region>): nat {
    if segs == [] then 0 else segs[0].size + Bytes(segs[1..])
  }

  function Range(a: nat, e: nat): (s: set<nat>)
    requires a <= e
    ensures forall x :: x in s <==> a <= x < e
    ensures |s| == e - a
    decreases e - a
  {
    if a == e then {} else {a} + Range(a + 1, e)
  }

  function Addrs(segs: seq<Region>): (s: set<nat>)
    ensures forall x :: x in s ==> exists i :: 0 <= i < |segs| && Inside(segs[i], x)
  {
    if segs == [] then {}
    else
      var t := Addrs(segs[1..]);
      assert forall i :: 0 <= i < |segs[1..]| ==> segs[1..][i] == segs[i + 1];
      Range(segs[0].addr, segs[0].End()) + t
  }

  lemma {:induction false} AddrsExact(segs: seq<Region>)
    requires Normal(segs)
    ensures forall x: nat :: x in Addrs(segs) <==> Covers(segs, x)
    ensures |Addrs(segs)| == Bytes(segs)
  {
    if segs != [] {
      NormalTail(segs);
      AddrsExact(segs[1..]);
      HeadExact(segs);
      var r, t := Range(segs[0].addr, segs[0].End()), Addrs(segs[1..]);
      assert r !! t;
      assert |r + t| == |r| + |t|;
    }
  }

  /** A list that covers less is shorter in bytes. */
  lemma LessBytes(s: seq<Region>, t: seq<Region>)
    requires Normal(s) && Normal(t) && forall x: nat :: Covers(t, x) ==> Covers(s, x)
    ensures Bytes(t) <= Bytes(s)
  {
    AddrsExact(s);
    AddrsExact(t);
    assert Addrs(t) <= Addrs(s);
    Smaller(Addrs(t), Addrs(s));
  }

  lemma Smaller(a: set<nat>, b: set<nat>)
    requires a <= b
    ensures |a| <= |b|
  {
    assert b == a + (b - a);
  }

  lemma {:induction false} TotalBytes(segs: seq<Region>, i: nat)
    requires Good(segs) && i <= |segs|
    ensures Before(segs, i) * PGSIZE == Bytes(segs[..i])
  {
    if i > 0 {
      TotalBytes(segs, i - 1);
      assert segs[..i] == segs[..i - 1] + [segs[i - 1]];
      BytesAppend(segs[..i - 1], segs[i - 1]);
      Exact(segs[i - 1]);
    }
  }

  lemma Exact(r: Region)
    requires r.size % PGSIZE == 0
    ensures Pages(r) * PGSIZE == r.size
  {
  }

  lemma {:induction false} BytesAppend(s: seq<Region>, r: Region)
    ensures Bytes(s + [r]) == Bytes(s) + r.size
  {
    if s == [] {
      assert (s + [r])[1..] == [];
    } else {
      assert (s + [r])[1..] == s[1..] + [r];
      BytesAppend(s[1..], r);
    }
  }

  /** Whole pages in normal form have page-aligned ends. */
  lemma PagedIsGood(segs: seq<Region>)
    requires Normal(segs) && Paged(segs)
    ensures Good(segs)
  {
    hide Covers, RoundDown;
    forall i | 0 <= i < |segs| ensures segs[i].addr % PGSIZE == 0 && segs[i].size % PGSIZE == 0 {
      EndsUncovered(segs, i);
      StartAligned(segs, segs[i].addr);
      EndAligned(segs, segs[i].End());
      Difference(segs[i].End(), segs[i].addr);
    }
  }

  lemma Difference(a: nat, b: nat)
    requires a >= b && a % PGSIZE == 0 && b % PGSIZE == 0
    ensures (a - b) % PGSIZE == 0
  {
  }

  lemma EndsUncovered(segs: seq<Region>, i: nat)
    requires Normal(segs) && i < |segs|
    ensures Covers(segs, segs[i].addr) && Covers(segs, segs[i].End() - 1) && !Covers(segs, segs[i].End())
    ensures segs[i].addr > 0 ==> !Covers(segs, segs[i].addr - 1)
  {
    assert Inside(segs[i], segs[i].addr) && Inside(segs[i], segs[i].End() - 1);
  }

  lemma PredecessorPage(x: nat)
    requires x % PGSIZE != 0
    ensures x > 0 && RoundDown(x - 1) == RoundDown(x)
  {
  }

  lemma StartAligned(segs: seq<Region>, x: nat)
    requires Paged(segs) && Covers(segs, x) && (x > 0 ==> !Covers(segs, x - 1))
    ensures x % PGSIZE == 0
  {
    hide Covers, RoundDown;
    if x % PGSIZE != 0 { PredecessorPage(x); }
  }

  lemma EndAligned(segs: seq<Region>, x: nat)
    requires Paged(segs) && x > 0 && !Covers(segs, x) && Covers(segs, x - 1)
    ensures x % PGSIZE == 0
  {
    hide Covers, RoundDown;
    if x % PGSIZE != 0 { PredecessorPage(x); }
  }

  /* ---- the array is carved from the memory it describes ---- */

  /** physmem_size */
  method PhysmemSize(m: PhysicalMap) returns (size: nat)
    requires m.Shape()
    ensures size == Bytes(m.Segs())
  {
    size := 0;
    ghost var s := m.Segs();
    for i := 0 to m.nsegs
      invariant size == Bytes(s[..i])
    {
      assert s[..i + 1] == s[..i] + [s[i]];
      BytesAppend(s[..i], s[i]);
      size := size + m.segs[i].size;
    }
    assert s[..m.nsegs] == s;
  }

  lemma SegmentsGood(segs: seq<Region>, hw: seq<Region>, ex: seq<Region>)
    requires Normal(segs) && Paged(hw) && Paged(ex) && Below(hw) && forall x: nat :: Covers(segs, x) <==> Free(hw, ex, x)
    ensures Good(segs) && Below(segs) && Bytes(segs) < TWO64 && Bytes(segs) == Total(segs) * PGSIZE
  {
    hide Covers, RoundDown, Normal;
    forall x: nat ensures Covers(segs, x) <==> Covers(segs, RoundDown(x)) { }
    PagedIsGood(segs);
    AddrsExact(segs);
    Smaller(Addrs(segs), Range(0, TWO64 - PGSIZE));
    TotalBytes(segs, |segs|);
    assert segs[..|segs|] == segs;
  }

  /** The array's bytes: room for one descriptor per page, and no wrapping. */
  lemma ArrayBytes(n: nat)
    requires n * PGSIZE < TWO64
    ensures n * DESC_BYTES <= RoundUp(n * DESC_BYTES) < n * DESC_BYTES + PGSIZE && RoundUp(n * DESC_BYTES) % PGSIZE == 0
    ensures n > 0 ==> RoundUp(n * DESC_BYTES) > 0
  {
    hide RoundDown, Wrap;
    var b := n * DESC_BYTES;
    WrapIs(b + PGSIZE - 1);
    DownIs(b + PGSIZE - 1);
  }

  /** A range that starts in a segment and ends by that segment's end is all free memory. */
  lemma RoomInside(segs: seq<Region>, i: nat, pa: nat, bytes: nat)
    requires i < |segs| && Inside(segs[i], pa) && pa + bytes <= segs[i].End()
    ensures forall x: nat :: pa <= x < pa + bytes ==> Covers(segs, x)
  {
    forall x: nat | pa <= x < pa + bytes ensures Covers(segs, x) { assert Inside(segs[i], x); }
  }

  /** The bytes kinit reserves for descriptors when segs is what it finds. */
  function ArraySize(segs: seq<Region>): nat { RoundUp(Bytes(segs) / PGSIZE * DESC_BYTES) }

  /** kinit up to the second physmem_avail; arrayPa is what boot_alloc gave; None is a panic. */
  method CarveArray(m: PhysicalMap, arrayPa: nat) returns (bytes: Option<nat>)
    requires m.Valid() && arrayPa % PGSIZE == 0
    modifies m`nsegs, m`excnt, m.segs, m.ex
    ensures m.Valid() && m.Hw() == old(m.Hw())
    ensures bytes.Some? ==> m.Published() && Good(m.Segs()) && Total(m.Segs()) * DESC_BYTES <= bytes.value
    ensures bytes.Some? ==> forall x: nat :: arrayPa <= x < arrayPa + bytes.value ==> Free(m.Hw(), old(m.Ex()), x)
    ensures bytes.Some? ==> forall x: nat :: Covers(m.Segs(), x) <==> Free(m.Hw(), old(m.Ex()), x) && !(arrayPa <= x < arrayPa + bytes.value)
    ensures bytes.None? ==> m.Segs() == [] || old(m.excnt) == MAX_EXCNT || exists x: nat :: !Free(m.Hw(), m.Ex(), x) && arrayPa <= x < arrayPa + ArraySize(m.Segs())
  {
    hide Normal, Paged, Below, Covers, Inside, RoundDown, Wrap, Good;
    m.Avail();
    ghost var before := m.Segs();
    ghost var ex0 := m.Ex();
    SegmentsGood(before, m.Hw(), ex0);
    var size := PhysmemSize(m);
    var room := RoundUp(size / PGSIZE * DESC_BYTES);
    ArrayBytes(Total(before));
    SomePages(before);
    var seg := m.SegOf(arrayPa);
    if seg.None? || arrayPa + room > m.segs[seg.value].End() {
      NoRoom(before, arrayPa, room, seg);
      return None;
    }
    RoomInside(before, seg.value, arrayPa, room);
    BelowEnd(before, arrayPa, room);
    var ok := m.ExcludeRegion(arrayPa, room);
    if !ok { return None; }
    SpentIsArray(arrayPa, room);
    m.Avail();
    SegmentsGood(m.Segs(), m.Hw(), m.Ex());
    LessBytes(before, m.Segs());
    bytes := Some(room);
  }

  lemma SomePages(segs: seq<Region>)
    requires Normal(segs) && Bytes(segs) == Total(segs) * PGSIZE
    ensures segs != [] ==> Total(segs) > 0
  {
  }

  lemma BelowEnd(segs: seq<Region>, pa: nat, bytes: nat)
    requires Below(segs) && bytes > 0 && forall x: nat :: pa <= x < pa + bytes ==> Covers(segs, x)
    ensures pa + bytes <= TWO64 - PGSIZE
  {
    assert Covers(segs, pa + bytes - 1);
  }

  /** Excluding whole pages excludes exactly them. */
  lemma SpentIsArray(pa: nat, bytes: nat)
    requires pa % PGSIZE == 0 && bytes % PGSIZE == 0 && pa + bytes <= TWO64 - PGSIZE
    ensures forall x: nat :: Inside(SpentRange(pa, bytes), x) <==> pa <= x < pa + bytes
  {
    hide RoundDown, Wrap;
    WrapIs(pa + bytes);
    WrapIs(pa + bytes + PGSIZE - 1);
    DownOf(pa, pa);
    Sum(pa, bytes);
    DownOf(pa + bytes, pa + bytes + PGSIZE - 1);
  }

  lemma Sum(a: nat, b: nat)
    requires a % PGSIZE == 0 && b % PGSIZE == 0
    ensures (a + b) % PGSIZE == 0
  {
  }

  lemma NoRoom(segs: seq<Region>, pa: nat, bytes: nat, seg: Option<nat>)
    requires Normal(segs) && (segs != [] ==> bytes > 0)
    requires seg.None? ==> !Covers(segs, pa)
    requires seg.Some? ==> seg.value < |segs| && Inside(segs[seg.value], pa) && segs[seg.value].End() < pa + bytes
    ensures segs == [] || exists x: nat :: !Covers(segs, x) && pa <= x < pa + bytes
  {
    if seg.Some? {
      EndsUncovered(segs, seg.value);
      assert !Covers(segs, segs[seg.value].End());
    } else if segs != [] {
      assert !Covers(segs, pa);
    }
  }

  /* ---- the free list ---- */

  datatype Flag = Unused | FreePage | Used | SlabPage

  datatype Page = Page(next: Option<nat>, flags: Flag, refcnt: nat)

  function Head(c: seq<nat>): Option<nat> { if c == [] then None else Some(c[0]) }

  /** c is the free list that starts at its head and follows next. */
  predicate Linked(p: seq<Page>, c: seq<nat>) {
    NoDup(c) && forall j :: 0 <= j < |c| ==> c[j] < |p| && p[c[j]].next == Head(c[j + 1..])
  }

  /** Among the first n descriptors, those on the list are those flagged free, and counts follow flags. */
  predicate Flagged(p: seq<Page>, c: seq<nat>, n: nat) {
    && n <= |p| && (forall j :: 0 <= j < |c| ==> c[j] < n)
    && forall k :: 0 <= k < n ==>
        && p[k].flags != Unused
        && (p[k].flags == FreePage <==> k in c)
        && p[k].refcnt == if p[k].flags == FreePage then 0 else 1
  }

  lemma PushLinked(p: seq<Page>, c: seq<nat>, k: nat)
    requires Linked(p, c) && k < |p| && k !in c
    ensures Linked(p[k := Page(Head(c), FreePage, 0)], [k] + c)
  {
    var p', c' := p[k := Page(Head(c), FreePage, 0)], [k] + c;
    assert c'[1..] == c;
    forall j | 0 <= j < |c'| ensures c'[j] < |p'| && p'[c'[j]].next == Head(c'[j + 1..]) {
      if j > 0 {
        assert c[j - 1] in c;
        assert c'[j + 1..] == c[j..];
      }
    }
    forall i, j | 0 <= i < j < |c'| ensures c'[i] != c'[j] {
      if i == 0 { assert c[j - 1] in c; }
    }
  }

  /** The descriptor of a page given back, or the next one of the array. */
  lemma PushFlagged(p: seq<Page>, c: seq<nat>, k: nat, n: nat)
    requires Flagged(p, c, n) && k !in c && k <= n && k < |p|
    ensures Flagged(p[k := Page(Head(c), FreePage, 0)], [k] + c, if k == n then n + 1 else n)
  {
  }

  lemma PopLinked(p: seq<Page>, c: seq<nat>, q: Page)
    requires Linked(p, c) && c != []
    ensures p[c[0]].next == Head(c[1..]) && Linked(p[c[0] := q], c[1..]) && c[0] !in c[1..]
  {
    var p', c' := p[c[0] := q], c[1..];
    assert c[0] !in c';
    forall j | 0 <= j < |c'| ensures c'[j] < |p'| && p'[c'[j]].next == Head(c'[j + 1..]) {
      assert c'[j] == c[j + 1] && c'[j] in c';
      assert c'[j + 1..] == c[j + 2..];
    }
  }

  lemma PopFlagged(p: seq<Page>, c: seq<nat>, n: nat, next: Option<nat>)
    requires Flagged(p, c, n) && c != [] && c[0] !in c[1..]
    ensures Flagged(p[c[0] := Page(next, Used, 1)], c[1..], n)
  {
    assert forall k :: k in c <==> k == c[0] || k in c[1..];
    assert c[0] in c;
  }

  /** pa is the address of a page in the given state. */
  ghost predicate PageIs(segs: seq<Region>, p: seq<Page>, pa: nat, flags: set<Flag>) {
    pa % PGSIZE == 0 && exists k: nat :: PageOf(segs, pa, k) && k < |p| && p[k].flags in flags
  }

  const InHand: set<Flag> := {Used, SlabPage}

  /** Changing the descriptor of pa changes the state of pa alone. */
  lemma OnePage(segs: seq<Region>, p: seq<Page>, pa: nat, k: nat, q: Page, flags: set<Flag>)
    requires Good(segs) && pa % PGSIZE == 0 && PageOf(segs, pa, k) && k < |p|
    ensures forall x: nat :: x != pa ==> (PageIs(segs, p[k := q], x, flags) <==> PageIs(segs, p, x, flags))
    ensures PageIs(segs, p[k := q], pa, flags) <==> q.flags in flags
    ensures PageIs(segs, p, pa, flags) <==> p[k].flags in flags
  {
    hide Good, PageOf;
    forall x: nat, k': nat | x % PGSIZE == 0 && PageOf(segs, x, k') ensures (k' == k) <==> (x == pa) {
      PageOfInverse(segs, pa, k, x, k');
      DownOf(pa, pa);
      DownOf(x, x);
    }
  }

  class PageAllocator {
    const segs: seq<Region>
    const pages: array<Page>
    var head: Option<nat>
    ghost var chain: seq<nat>

    /** The raw array: n descriptors with whatever was in memory. */
    constructor (segs: seq<Region>, raw: seq<Page>)
      ensures this.segs == segs && pages[..] == raw && head == None && chain == [] && fresh(pages)
    {
      this.segs := segs;
      pages := new Page[|raw|](i requires 0 <= i < |raw| => raw[i]);
      head, chain := None, [];
    }

    ghost predicate Valid()
      reads this, pages
    {
      Good(segs) && head == Head(chain) && Linked(pages[..], chain) && Flagged(pages[..], chain, Total(segs))
    }

    /** pa_to_page, over physmem_seg */
    method PaToPage(pa: nat) returns (k: Option<nat>)
      requires Good(segs)
      ensures k.Some? <==> Covers(segs, pa)
      ensures k.Some? ==> PageOf(segs, pa, k.value) && k.value < Total(segs)
    {
      var first: nat := 0;
      for i := 0 to |segs|
        invariant forall j :: 0 <= j < i ==> !Inside(segs[j], pa)
        invariant first == Before(segs, i)
      {
        if segs[i].addr <= pa < segs[i].End() {
          var r := first + (pa - segs[i].addr) / PGSIZE;
          assert At(segs, i, pa, r);
          InSlice(segs, i, pa, r);
          return Some(r);
        }
        first := first + Pages(segs[i]);
      }
      k := None;
    }

    /** page_to_pa */
    method PageToPa(k: nat) returns (pa: nat)
      requires Good(segs) && k < Total(segs)
      ensures PageOf(segs, pa, k) && pa % PGSIZE == 0 && Covers(segs, pa)
    {
      var first: nat := 0;
      var i := 0;
      while true
        invariant i < |segs| && first == Before(segs, i) <= k
        decreases |segs| - i
      {
        var n := Pages(segs[i]);
        if k < first + n {
          pa := segs[i].addr + (k - first) * PGSIZE;
          SlicePage(segs, i, k);
          return;
        }
        first := first + n;
        i := i + 1;
      }
    }

    /** kinit's last loops: every page of every segment goes on the free list once. */
    method FillFreelist()
      requires Good(segs) && Total(segs) <= pages.Length && head == None && chain == []
      modifies this`head, this`chain, pages
      ensures Valid() && forall k: nat :: k in chain <==> k < Total(segs)
    {
      hide Good, Linked, Flagged, Covers, PageOf;
      NothingLinked(pages[..]);
      for i := 0 to |segs|
        invariant head == Head(chain) && Linked(pages[..], chain) && Flagged(pages[..], chain, Before(segs, i))
        invariant forall k: nat :: k in chain <==> k < Before(segs, i)
      {
        FillSegment(i);
      }
    }

    method FillSegment(i: nat)
      requires Good(segs) && Total(segs) <= pages.Length && i < |segs|
      requires head == Head(chain) && Linked(pages[..], chain) && Flagged(pages[..], chain, Before(segs, i))
      requires forall k: nat :: k in chain <==> k < Before(segs, i)
      modifies this`head, this`chain, pages
      ensures head == Head(chain) && Linked(pages[..], chain) && Flagged(pages[..], chain, Before(segs, i + 1))
      ensures forall k: nat :: k in chain <==> k < Before(segs, i + 1)
    {
      hide Good, Linked, Flagged, Covers, PageOf;
      var pa := segs[i].addr;
      ghost var d: nat := 0;
      Sized(segs, i);
      while pa < segs[i].End()
        invariant pa == segs[i].addr + d * PGSIZE && d <= Pages(segs[i])
        invariant head == Head(chain) && Linked(pages[..], chain) && Flagged(pages[..], chain, Before(segs, i) + d)
        invariant forall k: nat :: k in chain <==> k < Before(segs, i) + d
        decreases segs[i].End() - pa
      {
        NextInSlice(segs, i, d);
        var k := PaToPage(pa);
        PageOfInverse(segs, pa, k.value, pa, Before(segs, i) + d);
        PushFree(k.value, Before(segs, i) + d);
        pa := pa + PGSIZE;
        d := d + 1;
      }
    }

    /** A descriptor becomes free and goes to the front of the list. */
    method PushFree(k: nat, ghost n: nat)
      requires head == Head(chain) && Linked(pages[..], chain) && Flagged(pages[..], chain, n)
      requires k !in chain && k <= n && k < pages.Length
      modifies this`head, this`chain, pages
      ensures head == Head(chain) && chain == [k] + old(chain) && pages[..] == old(pages[..])[k := Page(old(head), FreePage, 0)]
      ensures Linked(pages[..], chain) && Flagged(pages[..], chain, if k == n then n + 1 else n)
    {
      hide Linked, Flagged;
      PushLinked(pages[..], chain, k);
      PushFlagged(pages[..], chain, k, n);
      pages[k] := Page(head, FreePage, 0);
      head := Some(k);
      chain := [k] + chain;
    }

    /** kpage_free; false is a failed KASSERT.  It succeeds exactly on the address of a page in hand. */
    method KpageFree(pa: nat) returns (ok: bool)
      requires Valid()
      modifies this`head, this`chain, pages
      ensures Valid() && (ok <==> PageIs(segs, old(pages[..]), pa, InHand))
      ensures !ok ==> head == old(head) && pages[..] == old(pages[..])
      ensures ok ==> forall x: nat, f :: PageIs(segs, pages[..], x, f) <==>
                       if x == pa then FreePage in f else PageIs(segs, old(pages[..]), x, f)
    {
      hide Good, Linked, Covers, PageOf, PageIs;
      ghost var p := pages[..];
      if pa % PGSIZE != 0 {
        NotAPage(segs, p, pa);
        return false;
      }
      var k := PaToPage(pa);
      if k.None? {
        NotAPage(segs, p, pa);
        return false;
      }
      ghost var q := Page(head, FreePage, 0);
      OnePages(segs, p, pa, k.value, q);
      if (pages[k.value].flags != Used && pages[k.value].flags != SlabPage) || pages[k.value].refcnt != 1 {
        return false;
      }
      PushFree(k.value, Total(segs));
      assert pages[..] == p[k.value := q];
      ok := true;
    }

    /** freelist_pop */
    method FreelistPop() returns (k: Option<nat>)
      requires Valid()
      modifies this`head, this`chain, pages
      ensures Valid() && (k.None? <==> old(chain) == [])
      ensures k.None? ==> head == old(head) && pages[..] == old(pages[..])
      ensures k.Some? ==> k.value < Total(segs) <= |old(pages[..])| && old(pages[..])[k.value].flags == FreePage && chain == old(chain)[1..]
      ensures k.Some? ==> exists q: Page :: q.flags == Used && pages[..] == old(pages[..])[k.value := q]
    {
      hide Good, Linked;
      k := head;
      if k.Some? {
        ghost var p := pages[..];
        ghost var q := Page(pages[chain[0]].next, Used, 1);
        assert chain[0] in chain;
        PopLinked(p, chain, q);
        PopFlagged(p, chain, Total(segs), q.next);
        head := pages[k.value].next;
        chain := chain[1..];
        pages[k.value] := pages[k.value].(flags := Used, refcnt := 1);
        assert pages[..] == p[k.value := q];
      }
    }

    /** kpage_alloc without the retry after a reclaim: some free page of the segments, none only if none is free. */
    method KpageAlloc() returns (pa: Option<nat>)
      requires Valid()
      modifies this`head, this`chain, pages
      ensures Valid() && (pa.None? <==> forall x: nat :: !PageIs(segs, old(pages[..]), x, {FreePage}))
      ensures pa.None? ==> pages[..] == old(pages[..])
      ensures pa.Some? ==> Covers(segs, pa.value) && PageIs(segs, old(pages[..]), pa.value, {FreePage})
      ensures pa.Some? ==> forall x: nat, f :: PageIs(segs, pages[..], x, f) <==>
                             if x == pa.value then Used in f else PageIs(segs, old(pages[..]), x, f)
    {
      hide Good, Linked, Covers, PageOf, PageIs, Flagged;
      ghost var p := pages[..];
      ghost var c := chain;
      var k := FreelistPop();
      if k.None? {
        NoFreePage(segs, p, c);
        return None;
      }
      var a := PageToPa(k.value);
      ghost var q: Page :| q.flags == Used && pages[..] == p[k.value := q];
      OnePages(segs, p, a, k.value, q);
      assert PageIs(segs, p, a, {FreePage});
      pa := Some(a);
    }

    /** kpage_set_slab on a page just allocated. */
    method SetSlab(pa: nat) returns (ok: bool)
      requires Valid() && PageIs(segs, pages[..], pa, InHand)
      modifies pages
      ensures Valid() && ok
      ensures forall x: nat, f :: PageIs(segs, pages[..], x, f) <==>
                if x == pa then SlabPage in f else PageIs(segs, old(pages[..]), x, f)
    {
      hide Good, Covers, PageOf, PageIs;
      ghost var p := pages[..];
      PageCovered(segs, p, pa);
      var k := PaToPage(pa);
      ghost var q := pages[k.value].(flags := SlabPage);
      OnePages(segs, p, pa, k.value, q);
      assert k.value !in chain;
      pages[k.value] := pages[k.value].(flags := SlabPage);
      assert pages[..] == p[k.value := q];
      ok := true;
    }

    /** kpage_is_slab: whether the page that holds va is a slab's. */
    method IsSlab(va: nat) returns (r: bool)
      requires Valid()
      ensures r <==> PageIs(segs, pages[..], RoundDown(va), {SlabPage})
    {
      hide Good, Covers, PageOf, PageIs, RoundDown;
      var pa := RoundDown(va);
      DownIs(va);
      var k := PaToPage(pa);
      if k.None? {
        NotAPage(segs, pages[..], pa);
        return false;
      }
      OnePages(segs, pages[..], pa, k.value, pages[k.value]);
      r := pages[k.value].flags == SlabPage;
    }
  }

  lemma Sized(segs: seq<Region>, i: nat)
    requires Good(segs) && i < |segs|
    ensures segs[i].size == Pages(segs[i]) * PGSIZE && Before(segs, i + 1) == Before(segs, i) + Pages(segs[i])
  {
    Exact(segs[i]);
  }

  lemma NothingLinked(p: seq<Page>)
    ensures Linked(p, []) && Flagged(p, [], 0)
  {
  }

  lemma NotAPage(segs: seq<Region>, p: seq<Page>, pa: nat)
    requires pa % PGSIZE != 0 || !Covers(segs, pa)
    ensures forall f :: !PageIs(segs, p, pa, f)
  {
  }

  lemma PageCovered(segs: seq<Region>, p: seq<Page>, pa: nat)
    requires PageIs(segs, p, pa, InHand)
    ensures Covers(segs, pa) && pa % PGSIZE == 0
  {
  }

  lemma OnePages(segs: seq<Region>, p: seq<Page>, pa: nat, k: nat, q: Page)
    requires Good(segs) && pa % PGSIZE == 0 && PageOf(segs, pa, k) && k < |p|
    ensures forall x: nat, f: set<Flag> :: x != pa ==> (PageIs(segs, p[k := q], x, f) <==> PageIs(segs, p, x, f))
    ensures forall f: set<Flag> :: PageIs(segs, p[k := q], pa, f) <==> q.flags in f
    ensures forall f: set<Flag> :: PageIs(segs, p, pa, f) <==> p[k].flags in f
  {
    hide PageIs, PageOf, Good;
    forall x: nat, f | x != pa ensures PageIs(segs, p[k := q], x, f) <==> PageIs(segs, p, x, f) {
      OnePage(segs, p, pa, k, q, f);
    }
    forall f ensures PageIs(segs, p[k := q], pa, f) <==> q.flags in f { OnePage(segs, p, pa, k, q, f); }
    forall f ensures PageIs(segs, p, pa, f) <==> p[k].flags in f { OnePage(segs, p, pa, k, q, f); }
  }

  lemma NoFreePage(segs: seq<Region>, p: seq<Page>, c: seq<nat>)
    requires Good(segs) && Flagged(p, c, Total(segs)) && c == []
    ensures forall x: nat :: !PageIs(segs, p, x, {FreePage})
  {
    hide Good;
    forall x: nat, k: nat | PageOf(segs, x, k) ensures k < Total(segs) {
      var i: nat :| At(segs, i, x, k);
      InSlice(segs, i, x, k);
    }
  }

  lemma SlicePage(segs: seq<Region>, i: nat, k: nat)
    requires Good(segs) && i < |segs| && Before(segs, i) <= k < Before(segs, i) + Pages(segs[i])
    ensures var pa := segs[i].addr + (k - Before(segs, i)) * PGSIZE; PageOf(segs, pa, k) && pa % PGSIZE == 0 && Covers(segs, pa)
  {
    hide Normal, Before;
    var d := k - Before(segs, i);
    var pa := segs[i].addr + d * PGSIZE;
    AlignedSum(segs[i].addr, d);
    PageOffset(segs[i], d);
    assert At(segs, i, pa, k);
  }

  lemma PageOffset(r: Region, d: nat)
    requires r.size % PGSIZE == 0 && d < Pages(r)
    ensures Inside(r, r.addr + d * PGSIZE) && (d * PGSIZE) / PGSIZE == d
  {
    Exact(r);
  }

  /** The page after the ones already counted. */
  lemma NextInSlice(segs: seq<Region>, i: nat, d: nat)
    requires Good(segs) && i < |segs| && d < Pages(segs[i])
    ensures PageOf(segs, segs[i].addr + d * PGSIZE, Before(segs, i) + d) && Covers(segs, segs[i].addr + d * PGSIZE)
    ensures Before(segs, i) + d < Total(segs)
  {
    hide Normal, Before;
    SlicePage(segs, i, Before(segs, i) + d);
    PageOffset(segs[i], d);
    InSlice(segs, i, segs[i].addr + d * PGSIZE, Before(segs, i) + d);
  }
}

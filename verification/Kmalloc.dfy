/**
 The allocator as its clients see it (kmalloc.c over slab.c over kalloc.c): small requests go
 to a cache, whose slabs are pages of the page allocator, larger ones to a page, and kfree
 finds the layer again from the pointer alone.

 A pointer is a kernel address, KERN_BASE above the physical one.  `owner` is the cache field
 of the slab headers.  Which class serves a size, which caches reclaim cannot lock, and whether
 there is memory for a new magazine are parameters.
 */
module Kmalloc {
  import opened Wrappers
  import opened Regions
  import opened Physmem
  import opened Kalloc
  import opened Slab
  import opened SlabLayout

  const KERN_BASE: nat := 0xFFFF_0000_0000_0000
  const ZERO_SIZE_PTR: nat := 16
  const KMALLOC_MAX_SLAB: nat := 1024
  const KMALLOC_ALIGN: nat := 16

  /** PA_TO_KVA */
  function Va(pa: nat): nat { KERN_BASE + pa }

  function LayoutOf(size: nat): Layout { Setup(size, KMALLOC_ALIGN) }

  /** The pointer to an object of the cache for this size. */
  function Addr(size: nat, o: Obj): nat { Va(ObjAddr(LayoutOf(size), o.slab, o.slot)) }

  /** What kfree does with a pointer. */
  datatype Route = Nothing | ToSlab(cache: nat, obj: Obj) | ToPage(pa: nat)

  /* ---- who owns which page ---- */

  /** The pages flagged as slabs are the pages with an owner, and a cache has a page as its slab exactly
      if it owns it; those in todo are on their way back to the page allocator. */
  ghost predicate OwnerOk(segs: seq<Region>, p: seq<Page>, owner: map<nat, nat>, heads: seq<set<nat>>, todo: set<nat>) {
    && (forall pa :: pa in owner ==> owner[pa] < |heads|)
    && (forall pa: nat :: pa in owner <==> PageIs(segs, p, pa, {SlabPage}))
    && (forall i, pa :: 0 <= i < |heads| ==> (pa in heads[i] <==> pa in owner && owner[pa] == i && pa !in todo))
    && todo <= owner.Keys
  }

  /** The page at pa took the flag, and no other page changed. */
  ghost predicate Flips(segs: seq<Region>, p: seq<Page>, p': seq<Page>, pa: nat, flag: Flag) {
    forall x: nat, f :: PageIs(segs, p', x, f) <==> if x == pa then flag in f else PageIs(segs, p, x, f)
  }

  /** A page has one flag. */
  lemma OneFlag(segs: seq<Region>, p: seq<Page>, pa: nat, f: set<Flag>, g: set<Flag>)
    requires Good(segs) && PageIs(segs, p, pa, f) && PageIs(segs, p, pa, g)
    ensures exists x :: x in f && x in g
  {
    hide Good, PageOf;
    var k: nat :| PageOf(segs, pa, k) && k < |p| && p[k].flags in f;
    var j: nat :| PageOf(segs, pa, j) && j < |p| && p[j].flags in g;
    PageOfInverse(segs, pa, k, pa, j);
  }

  lemma MoreFlags(segs: seq<Region>, p: seq<Page>, pa: nat, f: set<Flag>, g: set<Flag>)
    requires PageIs(segs, p, pa, f) && f <= g
    ensures PageIs(segs, p, pa, g)
  {
  }

  lemma OwnerFree(segs: seq<Region>, p: seq<Page>, p': seq<Page>, owner: map<nat, nat>, heads: seq<set<nat>>, todo: set<nat>, s: nat)
    requires OwnerOk(segs, p, owner, heads, todo) && s in todo && Flips(segs, p, p', s, FreePage)
    ensures OwnerOk(segs, p', owner - {s}, heads, todo - {s})
  {
    hide PageIs;
    assert FreePage !in {SlabPage};
  }

  lemma OwnerAdd(segs: seq<Region>, p: seq<Page>, p': seq<Page>, owner: map<nat, nat>, heads: seq<set<nat>>, pa: nat, c: nat)
    requires OwnerOk(segs, p, owner, heads, {}) && pa !in owner && Flips(segs, p, p', pa, SlabPage) && c < |heads|
    ensures OwnerOk(segs, p', owner[pa := c], heads[c := heads[c] + {pa}], {})
  {
    hide PageIs;
    assert SlabPage in {SlabPage};
  }

  /** A page that is no slab before or after. */
  lemma OwnerKeep(segs: seq<Region>, p: seq<Page>, p': seq<Page>, owner: map<nat, nat>, heads: seq<set<nat>>, pa: nat, flag: Flag)
    requires OwnerOk(segs, p, owner, heads, {}) && pa !in owner && Flips(segs, p, p', pa, flag) && flag != SlabPage
    ensures OwnerOk(segs, p', owner, heads, {})
  {
    hide PageIs;
    assert flag !in {SlabPage};
  }

  lemma OwnerShrink(segs: seq<Region>, p: seq<Page>, owner: map<nat, nat>, heads: seq<set<nat>>, c: nat, freed: set<nat>)
    requires OwnerOk(segs, p, owner, heads, {}) && c < |heads| && freed <= heads[c]
    ensures OwnerOk(segs, p, owner, heads[c := heads[c] - freed], freed)
  {
    hide PageIs;
    assert forall pa :: pa in freed ==> pa in heads[c];
  }

  lemma NotOwned(segs: seq<Region>, p: seq<Page>, owner: map<nat, nat>, heads: seq<set<nat>>, pa: nat, flag: Flag)
    requires Good(segs) && OwnerOk(segs, p, owner, heads, {}) && PageIs(segs, p, pa, {flag}) && flag != SlabPage
    ensures pa !in owner
  {
    hide PageIs, Good;
    if pa in owner { OneFlag(segs, p, pa, {flag}, {SlabPage}); }
  }

  /* ---- what clients hold ---- */

  ghost predicate GivenObject(sizes: seq<nat>, helds: seq<set<Obj>>, x: nat) {
    exists i, o :: 0 <= i < |helds| && i < |sizes| && o in helds[i] && x == Addr(sizes[i], o)
  }

  ghost predicate GivenPage(segs: seq<Region>, p: seq<Page>, x: nat) {
    x >= KERN_BASE && PageIs(segs, p, x - KERN_BASE, {Used})
  }

  ghost predicate GivenIn(sizes: seq<nat>, helds: seq<set<Obj>>, segs: seq<Region>, p: seq<Page>, x: nat) {
    GivenObject(sizes, helds, x) || GivenPage(segs, p, x)
  }

  /** Objects in clients' hands are slots of slabs of their cache. */
  ghost predicate Placed(sizes: seq<nat>, heads: seq<set<nat>>, helds: seq<set<Obj>>) {
    && |sizes| == |heads| == |helds|
    && (forall i :: 0 <= i < |sizes| ==> 0 < sizes[i] < TWO64)
    && (forall i, o :: 0 <= i < |helds| && o in helds[i] ==> o.slab in heads[i] && o.slot < LayoutOf(sizes[i]).slots)
  }

  /** From the address alone: the slab page, the slot, and through the page the cache. */
  lemma ObjectBack(segs: seq<Region>, p: seq<Page>, owner: map<nat, nat>, sizes: seq<nat>, heads: seq<set<nat>>, helds: seq<set<Obj>>, i: nat, o: Obj)
    requires OwnerOk(segs, p, owner, heads, {}) && Placed(sizes, heads, helds) && i < |helds| && o in helds[i]
    ensures var l := LayoutOf(sizes[i]); var a := Addr(sizes[i], o) - KERN_BASE;
            && l.objsize > 0 && a >= 0 && RoundDown(a) == o.slab && SlotOf(l, a) == o.slot && a > o.slab
            && PageIs(segs, p, o.slab, {SlabPage}) && o.slab in owner && owner[o.slab] == i
  {
    hide RoundDown, Setup, SlotOf, PageOf;
    assert o.slab in heads[i];
    assert PageIs(segs, p, o.slab, {SlabPage});
    SlotExact(sizes[i], KMALLOC_ALIGN, o.slab, o.slot);
  }

  /** An object and its cache are determined by the address. */
  lemma AddrUnique(segs: seq<Region>, p: seq<Page>, owner: map<nat, nat>, sizes: seq<nat>, heads: seq<set<nat>>, helds: seq<set<Obj>>,
                   i: nat, o: Obj, j: nat, q: Obj)
    requires OwnerOk(segs, p, owner, heads, {}) && Placed(sizes, heads, helds)
    requires i < |helds| && o in helds[i] && j < |helds| && q in helds[j] && Addr(sizes[i], o) == Addr(sizes[j], q)
    ensures i == j && o == q
  {
    hide OwnerOk, Placed, RoundDown, SlotOf, Setup;
    PlacedSizes(sizes, heads, helds);
    ObjectBack(segs, p, owner, sizes, heads, helds, i, o);
    ObjectBack(segs, p, owner, sizes, heads, helds, j, q);
  }

  lemma PlacedSizes(sizes: seq<nat>, heads: seq<set<nat>>, helds: seq<set<Obj>>)
    requires Placed(sizes, heads, helds)
    ensures |sizes| == |heads| == |helds|
  {
  }

  /** No pointer is both an object and a page. */
  lemma NotBoth(segs: seq<Region>, p: seq<Page>, owner: map<nat, nat>, sizes: seq<nat>, heads: seq<set<nat>>, helds: seq<set<Obj>>, x: nat)
    requires OwnerOk(segs, p, owner, heads, {}) && Placed(sizes, heads, helds) && GivenObject(sizes, helds, x)
    ensures !GivenPage(segs, p, x)
  {
    hide OwnerOk, Placed, RoundDown, SlotOf, Setup, PageOf;
    PlacedSizes(sizes, heads, helds);
    var i, o :| 0 <= i < |helds| && i < |sizes| && o in helds[i] && x == Addr(sizes[i], o);
    ObjectBack(segs, p, owner, sizes, heads, helds, i, o);
    if PageIs(segs, p, x - KERN_BASE, {Used}) { DownOf(x - KERN_BASE, x - KERN_BASE); }
  }

  /** One more object in a client's hands is one more pointer. */
  lemma GiveObject(segs: seq<Region>, p: seq<Page>, owner: map<nat, nat>, sizes: seq<nat>, heads: seq<set<nat>>, helds: seq<set<Obj>>,
                   i: nat, o: Obj)
    requires i < |helds| && o !in helds[i] && |sizes| == |helds|
    requires OwnerOk(segs, p, owner, heads, {}) && Placed(sizes, heads, helds[i := helds[i] + {o}])
    ensures !GivenObject(sizes, helds, Addr(sizes[i], o))
    ensures forall x :: GivenObject(sizes, helds[i := helds[i] + {o}], x) <==> GivenObject(sizes, helds, x) || x == Addr(sizes[i], o)
  {
    hide OwnerOk, Placed, Addr;
    var helds' := helds[i := helds[i] + {o}];
    forall j, q | 0 <= j < |helds| && q in helds[j] && Addr(sizes[j], q) == Addr(sizes[i], o) ensures false {
      AddrUnique(segs, p, owner, sizes, heads, helds', i, o, j, q);
    }
    forall x ensures GivenObject(sizes, helds', x) <==> GivenObject(sizes, helds, x) || x == Addr(sizes[i], o) {
      if j, q :| 0 <= j < |helds| && j < |sizes| && q in helds[j] && x == Addr(sizes[j], q) { assert q in helds'[j]; }
      if x == Addr(sizes[i], o) { assert o in helds'[i]; }
    }
  }

  /** ... and one less is one less. */
  lemma TakeObject(segs: seq<Region>, p: seq<Page>, owner: map<nat, nat>, sizes: seq<nat>, heads: seq<set<nat>>, helds: seq<set<Obj>>,
                   i: nat, o: Obj)
    requires i < |helds| && o in helds[i] && |sizes| == |helds| && OwnerOk(segs, p, owner, heads, {}) && Placed(sizes, heads, helds)
    ensures forall x :: GivenObject(sizes, helds[i := helds[i] - {o}], x) <==> GivenObject(sizes, helds, x) && x != Addr(sizes[i], o)
  {
    hide OwnerOk, Placed, Addr;
    var less := helds[i := helds[i] - {o}];
    forall x ensures GivenObject(sizes, less, x) <==> GivenObject(sizes, helds, x) && x != Addr(sizes[i], o) {
      if j, q :| 0 <= j < |less| && j < |sizes| && q in less[j] && x == Addr(sizes[j], q) {
        assert q in helds[j];
        if x == Addr(sizes[i], o) { AddrUnique(segs, p, owner, sizes, heads, helds, i, o, j, q); }
      }
      if x != Addr(sizes[i], o) {
        if j, q :| 0 <= j < |helds| && j < |sizes| && q in helds[j] && x == Addr(sizes[j], q) { assert q in less[j]; }
      }
    }
  }

  /* ---- the heap ---- */

  /** The slabs of a cache that a reclaim returns: no object in a client's hands or in a CPU's magazine. */
  ghost function Idle(headers: set<nat>, held: set<Obj>, cpus: seq<CpuCache>): set<nat> {
    set s | s in headers && !HasLive(s, held, CpusBag(cpus))
  }

  ghost function IdleIn(c: CacheState): set<nat> { Idle(c.slabs.headers.Keys, c.held, c.cpus) }

  /** The first n caches are as a reclaim leaves them: clients' and CPUs' objects are the same everywhere,
      and nothing changed in the others or in those that are busy. */
  ghost predicate Reclaimed(was: seq<CacheState>, now: seq<CacheState>, busy: set<nat>, n: nat) {
    && |was| == |now|
    && (forall i :: 0 <= i < |was| ==> now[i].held == was[i].held && now[i].cpus == was[i].cpus)
    && (forall i :: 0 <= i < |was| && (i in busy || i >= n) ==> now[i] == was[i])
  }

  lemma ReclaimedAt(was: seq<CacheState>, now: seq<CacheState>, busy: set<nat>, i: nat)
    requires Reclaimed(was, now, busy, i) && i < |was|
    ensures |now| == |was| && now[i] == was[i]
  {
  }

  lemma ReclaimedNext(was: seq<CacheState>, now: seq<CacheState>, c: CacheState, busy: set<nat>, i: nat)
    requires Reclaimed(was, now, busy, i) && i < |was| == |now| && c.held == now[i].held && c.cpus == now[i].cpus
    requires i in busy ==> c == now[i]
    ensures Reclaimed(was, now[i := c], busy, i + 1)
  {
  }

  lemma IdleNext(idles: seq<set<nat>>, busy: set<nat>, i: nat)
    requires i < |idles|
    ensures IdleUpTo(idles, busy, i + 1) == if i in busy then IdleUpTo(idles, busy, i) else IdleUpTo(idles, busy, i) + idles[i]
  {
  }

  lemma SameHelds(was: seq<CacheState>, now: seq<CacheState>, busy: set<nat>, helds: seq<set<Obj>>, helds': seq<set<Obj>>)
    requires Reclaimed(was, now, busy, |was|) && |was| == |now| == |helds| == |helds'|
    requires forall i :: 0 <= i < |was| ==> was[i].held == helds[i] && now[i].held == helds'[i]
    ensures helds == helds'
  {
  }

  lemma AddrHigh(size: nat, o: Obj)
    ensures Addr(size, o) >= KERN_BASE
  {
  }

  lemma PageAligned(segs: seq<Region>, p: seq<Page>, pa: nat)
    requires PageIs(segs, p, pa, {Used})
    ensures RoundDown(pa) == pa
  {
    DownOf(pa, pa);
  }

  lemma ReclaimedAll(states: seq<CacheState>, busy: set<nat>)
    ensures Reclaimed(states, states, busy, |states|)
  {
  }

  /** pa was a free page and is now in a client's hands. */
  ghost predicate TakesPage(segs: seq<Region>, p: seq<Page>, p': seq<Page>, pa: nat) {
    && !PageIs(segs, p, pa, {Used}) && !PageIs(segs, p', pa, {SlabPage})
    && forall x: nat :: PageIs(segs, p', x, {Used}) <==> PageIs(segs, p, x, {Used}) || x == pa
  }

  lemma NotUsedYet(segs: seq<Region>, p: seq<Page>, pa: nat)
    requires Good(segs) && PageIs(segs, p, pa, {FreePage})
    ensures !PageIs(segs, p, pa, {Used})
  {
    hide PageIs, Good;
    if PageIs(segs, p, pa, {Used}) { OneFlag(segs, p, pa, {FreePage}, {Used}); }
  }

  lemma TakesAfter(segs: seq<Region>, p: seq<Page>, p': seq<Page>, p'': seq<Page>, back: set<nat>, pa: nat)
    requires SamePages(segs, p, p', back) && TakesPage(segs, p', p'', pa)
    ensures TakesPage(segs, p, p'', pa)
  {
    hide PageIs;
  }

  lemma ReclaimedNone(states: seq<CacheState>, busy: set<nat>)
    ensures Reclaimed(states, states, busy, 0)
  {
  }

  /** ... and of the first n caches, those not in busy. */
  ghost function IdleUpTo(idles: seq<set<nat>>, busy: set<nat>, n: nat): set<nat>
    requires n <= |idles|
  {
    if n == 0 then {} else IdleUpTo(idles, busy, n - 1) + if n - 1 in busy then {} else idles[n - 1]
  }

  /** A reclaim on behalf of a cache passes that cache by, because its lock is held. */
  ghost function Skipped(busy: set<nat>, size: nat, c: nat): set<nat> {
    if size <= KMALLOC_MAX_SLAB then busy + {c} else busy
  }

  /** A free page, or the page of a slab that a reclaim past the caches in busy would return. */
  ghost predicate AvailableIn(segs: seq<Region>, p: seq<Page>, idles: seq<set<nat>>, busy: set<nat>, pa: nat) {
    PageIs(segs, p, pa, {FreePage}) || pa in IdleUpTo(idles, busy, |idles|)
  }

  lemma SamePagesTrans(segs: seq<Region>, p: seq<Page>, p': seq<Page>, p'': seq<Page>, a: set<nat>, b: set<nat>)
    requires SamePages(segs, p, p', a) && SamePages(segs, p', p'', b)
    ensures SamePages(segs, p, p'', a + b)
  {
    hide PageIs;
  }

  class Heap {
    const mem: PageAllocator
    const caches: seq<Cache>
    const sizes: seq<nat>
    const ncpu: nat
    var owner: map<nat, nat>

    /** No slabs yet: kmalloc_init has made the caches. */
    constructor (mem: PageAllocator, caches: seq<Cache>, sizes: seq<nat>, ncpu: nat)
      requires mem.Valid() && |caches| == |sizes| && (forall i, j :: 0 <= i < j < |caches| ==> caches[i] != caches[j])
      requires forall i :: 0 <= i < |caches| ==>
                 && caches[i].Valid() && caches[i].headers == map[] && |caches[i].cpus| == ncpu
                 && 0 < sizes[i] < TWO64 && caches[i].slots == LayoutOf(sizes[i]).slots
      requires forall pa: nat :: !PageIs(mem.segs, mem.pages[..], pa, {SlabPage})
      ensures Valid() && this.mem == mem && this.caches == caches && this.sizes == sizes && this.ncpu == ncpu
    {
      this.mem, this.caches, this.sizes, this.ncpu := mem, caches, sizes, ncpu;
      owner := map[];
    }

    ghost function Heads(): (h: seq<set<nat>>)
      reads this, caches
      ensures |h| == |caches| && forall i :: 0 <= i < |h| ==> h[i] == caches[i].headers.Keys
    {
      seq(|caches|, i requires 0 <= i < |caches| reads caches => caches[i].headers.Keys)
    }

    ghost function Helds(): (h: seq<set<Obj>>)
      reads this, caches
      ensures |h| == |caches| && forall i :: 0 <= i < |h| ==> h[i] == caches[i].held
    {
      seq(|caches|, i requires 0 <= i < |caches| reads caches => caches[i].held)
    }

    ghost predicate Shape()
      reads this, caches
    {
      && |sizes| == |caches| && (forall i, j :: 0 <= i < j < |caches| ==> caches[i] != caches[j])
      && forall i :: 0 <= i < |caches| ==>
           0 < sizes[i] < TWO64 && caches[i].slots == LayoutOf(sizes[i]).slots && |caches[i].cpus| == ncpu && caches[i].Valid()
    }

    ghost predicate Valid()
      reads this, caches, mem, mem.pages
    {
      Shape() && mem.Valid() && OwnerOk(mem.segs, mem.pages[..], owner, Heads(), {})
    }

    /** The pointers in clients' hands. */
    ghost predicate Given(x: nat)
      reads this, caches, mem, mem.pages
    {
      GivenIn(sizes, Helds(), mem.segs, mem.pages[..], x)
    }

    /** What each cache would return to a reclaim. */
    ghost function Idles(): (h: seq<set<nat>>)
      reads this, caches
      ensures |h| == |caches|
      ensures forall i :: 0 <= i < |h| ==> h[i] == IdleIn(caches[i].State())
    {
      seq(|caches|, i requires 0 <= i < |caches| reads caches => IdleIn(caches[i].State()))
    }

    /** One page of a slab just emptied goes back to the page allocator. */
    method FreeSlabPage(s: nat, ghost todo: set<nat>)
      requires Shape() && mem.Valid() && OwnerOk(mem.segs, mem.pages[..], owner, Heads(), todo) && s in todo
      modifies this`owner, mem, mem.pages
      ensures Shape() && mem.Valid() && OwnerOk(mem.segs, mem.pages[..], owner, Heads(), todo - {s})
      ensures SamePages(mem.segs, old(mem.pages[..]), mem.pages[..], {s})
    {
      hide OwnerOk, PageIs, Good, Linked, Flagged, SlabsOk, Split, MagsOk;
      ghost var p, heads := mem.pages[..], Heads();
      SlabNotUsed(mem.segs, p, owner, heads, todo, s);
      var ok := mem.KpageFree(s);
      assert Flips(mem.segs, p, mem.pages[..], s, FreePage);
      OwnerFree(mem.segs, p, mem.pages[..], owner, heads, todo, s);
      owner := owner - {s};
      assert Heads() == heads;
    }

    /** ... and so do all of them. */
    method FreeSlabPages(pages: set<nat>)
      requires Shape() && mem.Valid() && OwnerOk(mem.segs, mem.pages[..], owner, Heads(), pages)
      modifies this`owner, mem, mem.pages
      ensures Valid() && SamePages(mem.segs, old(mem.pages[..]), mem.pages[..], pages)
    {
      hide OwnerOk, PageIs, Good, Linked, Flagged, SlabsOk, Split, MagsOk;
      var todo := pages;
      while todo != {}
        invariant todo <= pages && mem.Valid() && Shape() && OwnerOk(mem.segs, mem.pages[..], owner, Heads(), todo)
        invariant SamePages(mem.segs, old(mem.pages[..]), mem.pages[..], pages - todo)
        decreases |todo|
      {
        var s :| s in todo;
        FreeSlabPage(s, todo);
        todo := todo - {s};
      }
    }

    /** kmem_reclaim on one cache. */
    method ReclaimCache(i: nat) returns (n: nat)
      requires Valid() && i < |caches|
      modifies caches[i], this`owner, mem, mem.pages
      ensures Valid() && caches[i].held == old(caches[i].held) && caches[i].cpus == old(caches[i].cpus)
      ensures SamePages(mem.segs, old(mem.pages[..]), mem.pages[..], old(Idles())[i])
      ensures n > 0 <==> old(Idles())[i] != {}
    {
      hide OwnerOk, PageIs, Good, Linked, Flagged, SlabsOk, Split, MagsOk, SamePages, HasLive, CpusBag;
      ghost var heads := Heads();
      var freed := caches[i].Reclaim();
      assert freed == old(Idles())[i];
      OwnerShrink(mem.segs, mem.pages[..], owner, heads, i, freed);
      assert Heads() == heads[i := heads[i] - freed];
      n := |freed|;
      FreeSlabPages(freed);
    }

    ghost function States(): (h: seq<CacheState>)
      reads this, caches
      ensures |h| == |caches| && forall i :: 0 <= i < |h| ==> h[i] == caches[i].State()
    {
      seq(|caches|, i requires 0 <= i < |caches| reads caches => caches[i].State())
    }

    /** kmem_reclaim: every cache whose lock can be had. */
    method ReclaimAll(busy: set<nat>) returns (n: nat)
      requires Valid()
      modifies caches, this`owner, mem, mem.pages
      ensures Valid() && Reclaimed(old(States()), States(), busy, |caches|)
      ensures SamePages(mem.segs, old(mem.pages[..]), mem.pages[..], IdleUpTo(old(Idles()), busy, |caches|))
      ensures n > 0 <==> IdleUpTo(old(Idles()), busy, |caches|) != {}
    {
      hide Valid, OwnerOk, PageIs, SamePages, Idle, Reclaimed;
      n := 0;
      ghost var idles, states := Idles(), States();
      SamePagesSelf(mem.segs, mem.pages[..]);
      ReclaimedNone(states, busy);
      for i := 0 to |caches|
        invariant Valid() && Reclaimed(states, States(), busy, i)
        invariant SamePages(mem.segs, old(mem.pages[..]), mem.pages[..], IdleUpTo(idles, busy, i))
        invariant n > 0 <==> IdleUpTo(idles, busy, i) != {}
      {
        var m := ReclaimNext(i, busy, states, idles, old(mem.pages[..]));
        n := n + m;
      }
    }

    /** One turn of its loop. */
    method ReclaimNext(i: nat, busy: set<nat>, ghost states: seq<CacheState>, ghost idles: seq<set<nat>>, ghost p0: seq<Page>) returns (n: nat)
      requires Valid() && i < |caches| && |states| == |idles| == |caches| && Reclaimed(states, States(), busy, i)
      requires idles[i] == IdleIn(states[i]) && SamePages(mem.segs, p0, mem.pages[..], IdleUpTo(idles, busy, i))
      modifies caches[i], this`owner, mem, mem.pages
      ensures Valid() && Reclaimed(states, States(), busy, i + 1)
      ensures SamePages(mem.segs, p0, mem.pages[..], IdleUpTo(idles, busy, i + 1))
      ensures n > 0 <==> i !in busy && idles[i] != {}
    {
      hide Valid, OwnerOk, PageIs, SamePages, Idle, Reclaimed, IdleUpTo, Cache.Valid, PageAllocator.Valid;
      n := 0;
      ghost var p, st := mem.pages[..], States();
      IdleNext(idles, busy, i);
      if i !in busy {
        CachesApart();
        ReclaimedAt(states, st, busy, i);
        assert Idles()[i] == idles[i];
        n := ReclaimCache(i);
        SamePagesTrans(mem.segs, p0, p, mem.pages[..], IdleUpTo(idles, busy, i), idles[i]);
        assert States() == st[i := caches[i].State()];
      } else {
        assert States() == st[i := st[i]];
      }
      ReclaimedNext(states, st, caches[i].State(), busy, i);
    }

    /** freelist_pop and page_to_pa. */
    method TakeFree() returns (pa: Option<nat>)
      requires Valid()
      modifies mem, mem.pages
      ensures Valid() && (pa.None? <==> forall x: nat :: !PageIs(mem.segs, old(mem.pages[..]), x, {FreePage}))
      ensures pa.None? ==> mem.pages[..] == old(mem.pages[..])
      ensures pa.Some? ==> TakesPage(mem.segs, old(mem.pages[..]), mem.pages[..], pa.value) && PageIs(mem.segs, old(mem.pages[..]), pa.value, {FreePage})
    {
      hide OwnerOk, PageIs, Good, Linked, Flagged, SlabsOk, Split, MagsOk, Covers;
      ghost var p, heads := mem.pages[..], Heads();
      pa := mem.KpageAlloc();
      if pa.Some? {
        NotOwned(mem.segs, p, owner, heads, pa.value, FreePage);
        assert Flips(mem.segs, p, mem.pages[..], pa.value, Used);
        OwnerKeep(mem.segs, p, mem.pages[..], owner, heads, pa.value, Used);
        NotUsedYet(mem.segs, p, pa.value);
      }
      assert Heads() == heads;
    }

    /** kpage_alloc: it fails only if no page is free and no cache within reach of a reclaim has a slab
        without an object in a client's hands or in a CPU's magazine. */
    method KpageAlloc(busy: set<nat>) returns (pa: Option<nat>)
      requires Valid()
      modifies caches, this`owner, mem, mem.pages
      ensures Valid() && Reclaimed(old(States()), States(), busy, |caches|)
      ensures pa.None? <==> forall x: nat :: !AvailableIn(mem.segs, old(mem.pages[..]), old(Idles()), busy, x)
      ensures pa.None? ==> forall x: nat :: PageIs(mem.segs, mem.pages[..], x, {Used}) <==> PageIs(mem.segs, old(mem.pages[..]), x, {Used})
      ensures pa.Some? ==> TakesPage(mem.segs, old(mem.pages[..]), mem.pages[..], pa.value)
    {
      hide Valid, OwnerOk, PageIs, IdleUpTo, Idle, Reclaimed;
      ghost var p, states := mem.pages[..], States();
      ReclaimedAll(states, busy);
      pa := TakeFree();
      assert States() == states;
      if pa.None? {
        assert mem.pages[..] == p;
        var n := ReclaimAll(busy);
        ghost var p' := mem.pages[..];
        ghost var back := IdleUpTo(old(Idles()), busy, |caches|);
        if n > 0 {
          ghost var x :| x in back;
          assert AvailableIn(mem.segs, p, old(Idles()), busy, x) && PageIs(mem.segs, p', x, {FreePage});
          ghost var states' := States();
          pa := TakeFree();
          assert States() == states';
          TakesAfter(mem.segs, p, p', mem.pages[..], back, pa.value);
        }
      } else {
        assert AvailableIn(mem.segs, p, old(Idles()), busy, pa.value);
      }
    }

    /** kmem_cache_alloc as far as it goes without a new slab. */
    method FromCache(cpu: nat, c: nat) returns (r: Option<Obj>)
      requires Valid() && c < |caches| && cpu < ncpu
      modifies caches[c]
      ensures Valid() && cpu < |caches[c].cpus|
      ensures r.Some? ==> r.value !in old(Helds())[c] && Helds() == old(Helds())[c := old(Helds())[c] + {r.value}]
      ensures r.None? ==> States() == old(States()) && caches[c].Exhausted(cpu)
    {
      hide OwnerOk, PageAllocator.Valid, Cache.Valid, ExhaustedIn, Grew, LayoutOf;
      ghost var heads, helds, states := Heads(), Helds(), States();
      r := caches[c].KmemAlloc(cpu, None);
      assert Heads() == heads;
      if r.Some? { assert Helds() == helds[c := helds[c] + {r.value}]; } else { assert States() == states; }
    }

    /** slab_grow with the page it got, and the object from the new slab. */
    method Grow(cpu: nat, c: nat, pa: nat) returns (o: Obj)
      requires Valid() && c < |caches| && cpu < ncpu && cpu < |caches[c].cpus| && caches[c].Exhausted(cpu)
      requires PageIs(mem.segs, mem.pages[..], pa, {Used})
      modifies caches[c], this`owner, mem.pages
      ensures Valid() && o !in old(Helds())[c] && Helds() == old(Helds())[c := old(Helds())[c] + {o}]
      ensures forall x: nat :: PageIs(mem.segs, mem.pages[..], x, {Used}) <==> PageIs(mem.segs, old(mem.pages[..]), x, {Used}) && x != pa
    {
      hide OwnerOk, PageIs, PageAllocator.Valid, Cache.Valid, ExhaustedIn, Grew, LayoutOf;
      ghost var p, heads, helds := mem.pages[..], Heads(), Helds();
      MemGood();
      NotOwned(mem.segs, p, owner, heads, pa, Used);
      NotHead(mem.segs, p, owner, heads, c, pa);
      MoreFlags(mem.segs, p, pa, {Used}, InHand);
      var _ := mem.SetSlab(pa);
      assert Flips(mem.segs, p, mem.pages[..], pa, SlabPage);
      OwnerAdd(mem.segs, p, mem.pages[..], owner, heads, pa, c);
      owner := owner[pa := c];
      var r := caches[c].KmemAlloc(cpu, Some(pa));
      o := r.value;
      assert Heads() == heads[c := heads[c] + {pa}];
      assert Helds() == helds[c := helds[c] + {o}];
    }

    /** kmem_cache_alloc.  slab_grow runs with the cache locked, so a reclaim for its page passes it by. */
    method CacheAlloc(cpu: nat, c: nat, busy: set<nat>) returns (r: Option<Obj>)
      requires Valid() && c < |caches| && cpu < ncpu
      modifies caches, this`owner, mem, mem.pages
      ensures Valid()
      ensures r.Some? ==> r.value !in old(Helds())[c] && Helds() == old(Helds())[c := old(Helds())[c] + {r.value}]
      ensures r.None? ==> Helds() == old(Helds()) && forall x: nat :: !AvailableIn(mem.segs, old(mem.pages[..]), old(Idles()), busy + {c}, x)
      ensures forall x: nat :: PageIs(mem.segs, mem.pages[..], x, {Used}) <==> PageIs(mem.segs, old(mem.pages[..]), x, {Used})
    {
      hide Valid, OwnerOk, PageIs, IdleUpTo, Idle, ExhaustedIn;
      ghost var helds, states := Helds(), States();
      r := FromCache(cpu, c);
      if r.None? {
        assert Idles() == old(Idles());
        assert mem.pages[..] == old(mem.pages[..]);
        var pa := KpageAlloc(busy + {c});
        assert Helds() == helds && States()[c] == states[c];
        if pa.Some? {
          var o := Grow(cpu, c, pa.value);
          r := Some(o);
        }
      }
    }

    /** kmalloc.  A small request gets an object of a cache whose objects are large enough, one up to a page
        a page, none above; what is handed out is a pointer nobody had. */
    method Kmalloc(cpu: nat, size: nat, c: nat, busy: set<nat>) returns (ptr: Option<nat>)
      requires Valid() && cpu < ncpu && (0 < size <= KMALLOC_MAX_SLAB ==> c < |caches| && size <= sizes[c])
      modifies caches, this`owner, mem, mem.pages
      ensures Valid()
      ensures size == 0 ==> ptr == Some(ZERO_SIZE_PTR)
      ensures size > PGSIZE ==> ptr == None
      ensures 0 < size <= KMALLOC_MAX_SLAB && ptr.Some? ==> exists o :: o in Helds()[c] && ptr.value == Addr(sizes[c], o)
      ensures KMALLOC_MAX_SLAB < size && ptr.Some? ==> GivenPage(mem.segs, mem.pages[..], ptr.value)
      ensures 0 < size && ptr.Some? ==> !old(Given(ptr.value))
      ensures 0 < size && ptr.Some? ==>
                forall x: nat :: Given(x) <==> GivenIn(sizes, old(Helds()), mem.segs, old(mem.pages[..]), x) || x == ptr.value
      ensures size == 0 || ptr.None? ==> forall x: nat :: Given(x) <==> GivenIn(sizes, old(Helds()), mem.segs, old(mem.pages[..]), x)
      ensures 0 < size <= PGSIZE && ptr.None? ==>
                forall x: nat :: !AvailableIn(mem.segs, old(mem.pages[..]), old(Idles()), Skipped(busy, size, c), x)
    {
      hide Valid, PageIs, OwnerOk, GivenObject, Addr, Reclaimed, AvailableIn;
      ghost var helds, p := Helds(), mem.pages[..];
      CachesApart();
      if size == 0 { return Some(ZERO_SIZE_PTR); }
      if size <= KMALLOC_MAX_SLAB {
        var r := CacheAlloc(cpu, c, busy);
        if r.Some? {
          ptr := Some(Addr(sizes[c], r.value));
          Handed(helds, c, r.value);
          AddrHigh(sizes[c], r.value);
          assert r.value in Helds()[c];
        } else {
          ptr := None;
        }
        return;
      }
      if size <= PGSIZE {
        var pa := KpageAlloc(busy);
        SameHelds(old(States()), States(), busy, helds, Helds());
        if pa.None? { return None; }
        NewPage(helds, p, pa.value);
        return Some(Va(pa.value));
      }
      ptr := None;
    }

    /** The object just taken from cache c is a new pointer. */
    lemma Handed(helds: seq<set<Obj>>, c: nat, o: Obj)
      requires Valid() && c < |caches| == |helds| && o !in helds[c] && Helds() == helds[c := helds[c] + {o}]
      ensures |sizes| == |caches| && !GivenObject(sizes, helds, Addr(sizes[c], o)) && !GivenPage(mem.segs, mem.pages[..], Addr(sizes[c], o))
      ensures forall x: nat :: GivenObject(sizes, Helds(), x) <==> GivenObject(sizes, helds, x) || x == Addr(sizes[c], o)
    {
      hide OwnerOk, Placed, PageIs, PageAllocator.Valid, Addr;
      AllPlaced();
      GiveObject(mem.segs, mem.pages[..], owner, sizes, Heads(), helds, c, o);
      assert o in Helds()[c];
      NotBoth(mem.segs, mem.pages[..], owner, sizes, Heads(), Helds(), Addr(sizes[c], o));
    }

    /** The page just taken is a new pointer. */
    lemma NewPage(helds: seq<set<Obj>>, p: seq<Page>, pa: nat)
      requires Valid() && Helds() == helds && TakesPage(mem.segs, p, mem.pages[..], pa)
      ensures !GivenObject(sizes, helds, Va(pa)) && !GivenPage(mem.segs, p, Va(pa)) && GivenPage(mem.segs, mem.pages[..], Va(pa))
      ensures forall x: nat :: GivenPage(mem.segs, mem.pages[..], x) <==> GivenPage(mem.segs, p, x) || x == Va(pa)
    {
      hide OwnerOk, Placed, PageIs, PageAllocator.Valid, GivenObject;
      AllPlaced();
      if GivenObject(sizes, helds, Va(pa)) { NotBoth(mem.segs, mem.pages[..], owner, sizes, Heads(), helds, Va(pa)); }
    }

    lemma AllPlaced()
      requires Valid()
      ensures Placed(sizes, Heads(), Helds())
    {
      hide OwnerOk, PageAllocator.Valid, LayoutOf, SlabsOk, Split, MagsOk;
      forall i, o | 0 <= i < |caches| && o in Helds()[i] ensures o.slab in Heads()[i] && o.slot < LayoutOf(sizes[i]).slots {
        HeldSlots(caches[i].Layer(), caches[i].held, caches[i].MagBag());
      }
    }

    lemma MemGood()
      requires mem.Valid()
      ensures Good(mem.segs)
    {
    }

    /** kfree: from the pointer alone, back to the layer and the cache it came from. */
    method Kfree(cpu: nat, ptr: nat, spare: bool) returns (route: Route)
      requires Valid() && cpu < ncpu && (ptr > ZERO_SIZE_PTR ==> Given(ptr))
      modifies caches, mem, mem.pages
      ensures Valid()
      ensures ptr <= ZERO_SIZE_PTR ==> route == Nothing
      ensures old(GivenObject(sizes, Helds(), ptr)) ==>
                route.ToSlab? && route.cache < |caches| == |sizes| && route.obj in old(Helds())[route.cache] && ptr == Addr(sizes[route.cache], route.obj)
      ensures old(GivenPage(mem.segs, mem.pages[..], ptr)) ==> route == ToPage(ptr - KERN_BASE)
      ensures forall x: nat :: Given(x) <==> GivenIn(sizes, old(Helds()), mem.segs, old(mem.pages[..]), x) && x != ptr
    {
      hide Valid, PageIs, OwnerOk, GivenObject, Addr, RoundDown, SlotOf, LayoutOf, PageAllocator.Valid;
      CachesApart();
      if ptr <= ZERO_SIZE_PTR {
        LowNotGiven(ptr);
        return Nothing;
      }
      GivenHigh(ptr);
      var pa := ptr - KERN_BASE;
      MemValid();
      var slab := mem.IsSlab(pa);
      if slab {
        ghost var i, o := Locate(ptr);
        var page := RoundDown(pa);
        var c := owner[page];
        var slot := SlotOf(LayoutOf(sizes[c]), pa);
        ReturnObject(cpu, c, Obj(page, slot), spare);
        route := ToSlab(c, Obj(page, slot));
      } else {
        IsPage(ptr);
        ReturnPage(pa);
        route := ToPage(pa);
      }
    }

    method ReturnObject(cpu: nat, c: nat, o: Obj, spare: bool)
      requires Valid() && cpu < ncpu && c < |caches| == |sizes| && o in Helds()[c]
      modifies caches[c]
      ensures Valid()
      ensures forall x: nat :: GivenObject(sizes, Helds(), x) <==> GivenObject(sizes, old(Helds()), x) && x != Addr(sizes[c], o)
      ensures !GivenPage(mem.segs, mem.pages[..], Addr(sizes[c], o)) && GivenObject(sizes, old(Helds()), Addr(sizes[c], o))
    {
      hide OwnerOk, PageIs, PageAllocator.Valid, Cache.Valid, LayoutOf, Addr, Placed;
      ghost var heads, helds := Heads(), Helds();
      AllPlaced();
      TakeObject(mem.segs, mem.pages[..], owner, sizes, heads, helds, c, o);
      assert GivenObject(sizes, helds, Addr(sizes[c], o));
      NotBoth(mem.segs, mem.pages[..], owner, sizes, heads, helds, Addr(sizes[c], o));
      caches[c].KmemFree(cpu, o, spare);
      assert Heads() == heads && Helds() == helds[c := helds[c] - {o}];
    }

    method ReturnPage(pa: nat)
      requires Valid() && PageIs(mem.segs, mem.pages[..], pa, {Used})
      modifies mem, mem.pages
      ensures Valid() && !GivenObject(sizes, Helds(), Va(pa))
      ensures forall x: nat :: GivenPage(mem.segs, mem.pages[..], x) <==> GivenPage(mem.segs, old(mem.pages[..]), x) && x != Va(pa)
    {
      hide OwnerOk, PageIs, Good, Linked, Flagged, Cache.Valid, LayoutOf, GivenObject, Placed;
      ghost var p, heads := mem.pages[..], Heads();
      PageNotObject(pa);
      MemGood();
      NotOwned(mem.segs, p, owner, heads, pa, Used);
      MoreFlags(mem.segs, p, pa, {Used}, InHand);
      var ok := mem.KpageFree(pa);
      assert Flips(mem.segs, p, mem.pages[..], pa, FreePage);
      OwnerKeep(mem.segs, p, mem.pages[..], owner, heads, pa, FreePage);
      assert Heads() == heads;
    }

    lemma PageNotObject(pa: nat)
      requires Valid() && PageIs(mem.segs, mem.pages[..], pa, {Used})
      ensures !GivenObject(sizes, Helds(), Va(pa))
    {
      hide OwnerOk, PageIs, PageAllocator.Valid, GivenObject, Placed;
      AllPlaced();
      if GivenObject(sizes, Helds(), Va(pa)) { NotBoth(mem.segs, mem.pages[..], owner, sizes, Heads(), Helds(), Va(pa)); }
    }

    /** A pointer whose page is a slab is an object, and the address says which. */
    lemma Locate(ptr: nat) returns (i: nat, o: Obj)
      requires Valid() && Given(ptr) && ptr >= KERN_BASE && PageIs(mem.segs, mem.pages[..], RoundDown(ptr - KERN_BASE), {SlabPage})
      ensures GivenObject(sizes, Helds(), ptr) && i < |caches| == |sizes| && o in Helds()[i] && ptr == Addr(sizes[i], o)
      ensures RoundDown(ptr - KERN_BASE) in owner && owner[RoundDown(ptr - KERN_BASE)] == i && RoundDown(ptr - KERN_BASE) == o.slab
      ensures LayoutOf(sizes[i]).objsize > 0 && SlotOf(LayoutOf(sizes[i]), ptr - KERN_BASE) == o.slot
    {
      hide OwnerOk, PageIs, PageAllocator.Valid, Placed, Addr, RoundDown, SlotOf, LayoutOf, Cache.Valid;
      AllPlaced();
      if GivenPage(mem.segs, mem.pages[..], ptr) {
        MemGood();
        PageAligned(mem.segs, mem.pages[..], ptr - KERN_BASE);
        OneFlag(mem.segs, mem.pages[..], ptr - KERN_BASE, {Used}, {SlabPage});
      }
      i, o :| 0 <= i < |Helds()| && i < |sizes| && o in Helds()[i] && ptr == Addr(sizes[i], o);
      ObjectBack(mem.segs, mem.pages[..], owner, sizes, Heads(), Helds(), i, o);
    }

    /** A pointer whose page is no slab is a page. */
    lemma IsPage(ptr: nat)
      requires Valid() && Given(ptr) && ptr >= KERN_BASE && !PageIs(mem.segs, mem.pages[..], RoundDown(ptr - KERN_BASE), {SlabPage})
      ensures GivenPage(mem.segs, mem.pages[..], ptr) && !GivenObject(sizes, Helds(), ptr)
    {
      hide OwnerOk, PageIs, PageAllocator.Valid, Placed, Addr, RoundDown, SlotOf, LayoutOf, Cache.Valid;
      AllPlaced();
      if GivenObject(sizes, Helds(), ptr) {
        var i, o :| 0 <= i < |Helds()| && i < |sizes| && o in Helds()[i] && ptr == Addr(sizes[i], o);
        ObjectBack(mem.segs, mem.pages[..], owner, sizes, Heads(), Helds(), i, o);
      }
    }

    lemma GivenHigh(ptr: nat)
      requires Given(ptr)
      ensures ptr >= KERN_BASE
    {
    }

    lemma LowNotGiven(ptr: nat)
      requires ptr <= ZERO_SIZE_PTR
      ensures !Given(ptr)
    {
    }

    lemma MemValid()
      requires Valid()
      ensures mem.Valid()
    {
    }

    /** What kmalloc gives, kfree takes back, whatever else clients hold. */
    method RoundTrip(cpu: nat, size: nat, c: nat, busy: set<nat>, spare: bool) returns (ptr: Option<nat>)
      requires Valid() && cpu < ncpu && (0 < size <= KMALLOC_MAX_SLAB ==> c < |caches| && size <= sizes[c])
      modifies caches, this`owner, mem, mem.pages
      ensures Valid() && forall x: nat :: Given(x) <==> GivenIn(sizes, old(Helds()), mem.segs, old(mem.pages[..]), x)
    {
      hide Valid, GivenIn, GivenObject, GivenPage;
      LowNotGiven(ZERO_SIZE_PTR);
      ptr := Kmalloc(cpu, size, c, busy);
      ghost var helds, p := Helds(), mem.pages[..];
      assert forall x: nat :: GivenIn(sizes, helds, mem.segs, p, x) <==> Given(x);
      if ptr.Some? {
        var _ := Kfree(cpu, ptr.value, spare);
      }
    }

    lemma CachesApart()
      requires Valid()
      ensures |sizes| == |caches| && forall i, j :: 0 <= i < |caches| && 0 <= j < |caches| && i != j ==> caches[i] != caches[j]
    {
      hide OwnerOk, PageAllocator.Valid, Cache.Valid, LayoutOf;
    }
  }

  /** The free pages are those before and the pages in freed; the pages in use for clients are the same. */
  ghost predicate SamePages(segs: seq<Region>, p: seq<Page>, p': seq<Page>, freed: set<nat>) {
    && (forall x: nat :: PageIs(segs, p', x, {Used}) <==> PageIs(segs, p, x, {Used}))
    && (forall x: nat :: PageIs(segs, p', x, {FreePage}) <==> PageIs(segs, p, x, {FreePage}) || x in freed)
  }

  lemma NotHead(segs: seq<Region>, p: seq<Page>, owner: map<nat, nat>, heads: seq<set<nat>>, c: nat, pa: nat)
    requires OwnerOk(segs, p, owner, heads, {}) && pa !in owner && c < |heads|
    ensures pa !in heads[c]
  {
  }

  lemma SamePagesSelf(segs: seq<Region>, p: seq<Page>)
    ensures SamePages(segs, p, p, {})
  {
  }

  lemma SlabNotUsed(segs: seq<Region>, p: seq<Page>, owner: map<nat, nat>, heads: seq<set<nat>>, todo: set<nat>, s: nat)
    requires Good(segs) && OwnerOk(segs, p, owner, heads, todo) && s in todo
    ensures PageIs(segs, p, s, InHand) && !PageIs(segs, p, s, {Used}) && !PageIs(segs, p, s, {FreePage})
  {
    hide PageIs, Good;
    assert PageIs(segs, p, s, {SlabPage});
    MoreFlags(segs, p, s, {SlabPage}, InHand);
    if PageIs(segs, p, s, {Used}) { OneFlag(segs, p, s, {SlabPage}, {Used}); }
    if PageIs(segs, p, s, {FreePage}) { OneFlag(segs, p, s, {SlabPage}, {FreePage}); }
  }
}

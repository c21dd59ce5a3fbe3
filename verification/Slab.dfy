/**
 One kmem_cache of slab.c: per-CPU magazines over a depot over bitmap slabs, proved to act
 as a plain set of objects that clients hold.

 A magazine is the stack of objects it holds.  Pages for new slabs and memory for new
 magazines come from outside the cache and may be refused.
 */
module Slab {
  import opened Wrappers
  import opened Lists

  /** An object: its slab page and its slot. */
  datatype Obj = Obj(slab: nat, slot: nat)

  type Magazine = seq<Obj>

  /** The in-slab header: bit i of `used` is set while slot i is handed out. */
  datatype Header = Header(used: seq<bool>, inuse: nat)

  datatype CpuCache = CpuCache(loaded: Option<Magazine>, previous: Option<Magazine>)

  const MAG_DEPTH: nat := 15

  datatype CacheState = CacheState(slabs: Slabs, cpus: seq<CpuCache>, fullMags: seq<Magazine>, emptyMags: seq<Magazine>, held: set<Obj>)

  /* ---- counting used slots ---- */

  function Count(used: seq<bool>): nat {
    if used == [] then 0 else Count(used[..|used| - 1]) + if used[|used| - 1] then 1 else 0
  }

  lemma {:induction false} CountUpdate(used: seq<bool>, i: nat, b: bool)
    requires i < |used| && used[i] != b
    ensures Count(used[i := b]) == if b then Count(used) + 1 else Count(used) - 1
  {
    var n := |used| - 1;
    if i == n {
      assert used[i := b][..n] == used[..n];
    } else {
      assert used[i := b][..n] == used[..n][i := b];
      CountUpdate(used[..n], i, b);
    }
  }

  lemma {:induction false} CountBounds(used: seq<bool>)
    ensures Count(used) <= |used|
    ensures Count(used) == |used| <==> forall i :: 0 <= i < |used| ==> used[i]
    ensures Count(used) == 0 <==> forall i :: 0 <= i < |used| ==> !used[i]
  {
    if used != [] {
      var n := |used| - 1;
      CountBounds(used[..n]);
      assert forall i :: 0 <= i < n ==> used[..n][i] == used[i];
    }
  }

  /* ---- which objects the magazines hold ---- */

  function Bag(m: Option<Magazine>): multiset<Obj> {
    if m.Some? then multiset(m.value) else multiset{}
  }

  function PairBag(c: CpuCache): multiset<Obj> {
    Bag(c.loaded) + Bag(c.previous)
  }

  function CpusBag(cpus: seq<CpuCache>): multiset<Obj> {
    if cpus == [] then multiset{} else CpusBag(cpus[..|cpus| - 1]) + PairBag(cpus[|cpus| - 1])
  }

  function MagsBag(mags: seq<Magazine>): multiset<Obj> {
    if mags == [] then multiset{} else multiset(mags[0]) + MagsBag(mags[1..])
  }

  lemma {:induction false} CpusBagUpdate(cpus: seq<CpuCache>, i: nat, c: CpuCache)
    requires i < |cpus|
    ensures CpusBag(cpus[i := c]) + PairBag(cpus[i]) == CpusBag(cpus) + PairBag(c)
  {
    hide PairBag;
    var n := |cpus| - 1;
    if i == n {
      assert cpus[i := c][..n] == cpus[..n];
      Commute(CpusBag(cpus[..n]), PairBag(cpus[n]), PairBag(c));
    } else {
      assert cpus[i := c][..n] == cpus[..n][i := c];
      CpusBagUpdate(cpus[..n], i, c);
      Swap(CpusBag(cpus[..n][i := c]), CpusBag(cpus[..n]), PairBag(cpus[i]), PairBag(c), PairBag(cpus[n]));
    }
  }

  lemma Commute(a: multiset<Obj>, x: multiset<Obj>, y: multiset<Obj>)
    ensures (a + y) + x == (a + x) + y
  {
  }

  lemma Swap(a: multiset<Obj>, b: multiset<Obj>, x: multiset<Obj>, y: multiset<Obj>, z: multiset<Obj>)
    requires a + x == b + y
    ensures (a + z) + x == (b + z) + y
  {
    assert (a + z) + x == (a + x) + z;
    assert (b + z) + y == (b + y) + z;
  }

  lemma MagsBagPush(m: Magazine, mags: seq<Magazine>)
    ensures MagsBag([m] + mags) == multiset(m) + MagsBag(mags)
  {
    assert ([m] + mags)[1..] == mags;
  }

  /* ---- lists of slabs ---- */

  /** The three lists hold every slab once, sorted by how full it is. */
  datatype Slabs = Slabs(slots: nat, headers: map<nat, Header>, partial: seq<nat>, full: seq<nat>, empty: seq<nat>)

  predicate HeaderOk(slots: nat, h: Header) {
    |h.used| == slots && h.inuse == Count(h.used)
  }

  ghost predicate SlabsOk(k: Slabs) {
    && k.slots >= 1
    && (forall s :: s in k.headers ==> HeaderOk(k.slots, k.headers[s]))
    && NoDup(k.partial) && NoDup(k.full) && NoDup(k.empty)
    && (forall s :: s in k.partial <==> s in k.headers && 0 < k.headers[s].inuse < k.slots)
    && (forall s :: s in k.full <==> s in k.headers && k.headers[s].inuse == k.slots)
    && (forall s :: s in k.empty <==> s in k.headers && k.headers[s].inuse == 0)
  }

  predicate IsUsed(k: Slabs, o: Obj) {
    o.slab in k.headers && o.slot < |k.headers[o.slab].used| && k.headers[o.slab].used[o.slot]
  }

  predicate IsSlot(k: Slabs, o: Obj) {
    o.slab in k.headers && o.slot < k.slots
  }

  /** As SlabsOk, but s is on the partial list whatever its count. */
  ghost predicate Almost(k: Slabs, s: nat) {
    && k.slots >= 1 && s in k.headers && s in k.partial && s !in k.full && s !in k.empty
    && (forall t :: t in k.headers ==> HeaderOk(k.slots, k.headers[t]))
    && NoDup(k.partial) && NoDup(k.full) && NoDup(k.empty)
    && (forall t :: t != s ==> (t in k.partial <==> t in k.headers && 0 < k.headers[t].inuse < k.slots))
    && (forall t :: t != s ==> (t in k.full <==> t in k.headers && k.headers[t].inuse == k.slots))
    && (forall t :: t != s ==> (t in k.empty <==> t in k.headers && k.headers[t].inuse == 0))
  }

  lemma StayPartial(k: Slabs, s: nat)
    requires Almost(k, s) && 0 < k.headers[s].inuse < k.slots
    ensures SlabsOk(k)
  {
  }

  lemma MoveToFull(k: Slabs, s: nat)
    requires Almost(k, s) && k.headers[s].inuse == k.slots
    ensures SlabsOk(k.(partial := Without(k.partial, s), full := [s] + k.full))
  {
    WithoutNoDup(k.partial, s);
    PushNoDup(k.full, s);
  }

  lemma MoveToEmpty(k: Slabs, s: nat)
    requires Almost(k, s) && k.headers[s].inuse == 0
    ensures SlabsOk(k.(partial := Without(k.partial, s), empty := [s] + k.empty))
  {
    WithoutNoDup(k.partial, s);
    PushNoDup(k.empty, s);
  }

  /** A full slab that loses an object goes to the partial list first. */
  lemma MoveToPartial(k: Slabs, s: nat)
    requires SlabsOk(k) && s in k.full
    ensures Almost(k.(full := Without(k.full, s), partial := [s] + k.partial), s)
  {
    WithoutNoDup(k.full, s);
    PushNoDup(k.partial, s);
  }

  /** Rewriting s's header keeps Almost. */
  lemma Rewrite(k: Slabs, s: nat, h: Header)
    requires Almost(k, s) && HeaderOk(k.slots, h)
    ensures Almost(k.(headers := k.headers[s := h]), s)
  {
  }

  lemma PartialIsAlmost(k: Slabs, s: nat)
    requires SlabsOk(k) && s in k.partial
    ensures Almost(k, s)
  {
  }

  /** Setting or clearing one bit changes the use of one object. */
  lemma BitUsed(k: Slabs, k': Slabs, s: nat, slot: nat, b: bool)
    requires s in k.headers && slot < |k.headers[s].used|
    requires s in k'.headers && k'.headers == k.headers[s := k'.headers[s]]
    requires k'.headers[s].used == k.headers[s].used[slot := b]
    ensures forall x: Obj :: x != Obj(s, slot) ==> (IsUsed(k', x) <==> IsUsed(k, x))
    ensures IsUsed(k', Obj(s, slot)) <==> b
  {
  }

  /** Objects in use are those of the clients and those in magazines, each once. */
  ghost predicate Split(k: Slabs, held: set<Obj>, bag: multiset<Obj>) {
    forall o: Obj :: bag[o] + (if o in held then 1 else 0) == if IsUsed(k, o) then 1 else 0
  }

  /** A stack that is full, or empty, or absent: what a CPU may keep as its spare. */
  predicate SpareOk(m: Option<Magazine>) {
    m.None? || |m.value| == 0 || |m.value| == MAG_DEPTH
  }

  predicate PairOk(c: CpuCache) {
    (c.loaded.Some? ==> |c.loaded.value| <= MAG_DEPTH) && SpareOk(c.previous)
  }

  /** Every spare is full or empty, and the depot's lists hold only full and only empty magazines. */
  ghost predicate MagsOk(cpus: seq<CpuCache>, fullMags: seq<Magazine>, emptyMags: seq<Magazine>) {
    && (forall i :: 0 <= i < |cpus| ==> PairOk(cpus[i]))
    && (forall i :: 0 <= i < |fullMags| ==> |fullMags[i]| == MAG_DEPTH)
    && (forall i :: 0 <= i < |emptyMags| ==> |emptyMags[i]| == 0)
  }

  lemma MagsKeep(cpus: seq<CpuCache>, fullMags: seq<Magazine>, emptyMags: seq<Magazine>, i: nat, c: CpuCache)
    requires MagsOk(cpus, fullMags, emptyMags) && i < |cpus| && PairOk(c)
    ensures MagsOk(cpus[i := c], fullMags, emptyMags)
    ensures |fullMags| > 0 ==> MagsOk(cpus[i := c], fullMags[1..], emptyMags) && |fullMags[0]| == MAG_DEPTH
    ensures |emptyMags| > 0 ==> MagsOk(cpus[i := c], fullMags, emptyMags[1..])
  {
  }

  lemma MagsPush(cpus: seq<CpuCache>, fullMags: seq<Magazine>, emptyMags: seq<Magazine>, m: Magazine)
    requires MagsOk(cpus, fullMags, emptyMags)
    ensures |m| == MAG_DEPTH ==> MagsOk(cpus, [m] + fullMags, emptyMags)
    ensures |m| == 0 ==> MagsOk(cpus, fullMags, [m] + emptyMags)
  {
  }

  lemma PairAt(cpus: seq<CpuCache>, fullMags: seq<Magazine>, emptyMags: seq<Magazine>, i: nat)
    requires MagsOk(cpus, fullMags, emptyMags) && i < |cpus|
    ensures PairOk(cpus[i])
  {
  }

  class Cache {
    const slots: nat
    var headers: map<nat, Header>
    var partial: seq<nat>
    var full: seq<nat>
    var empty: seq<nat>
    var fullMags: seq<Magazine>
    var emptyMags: seq<Magazine>
    var cpus: seq<CpuCache>
    ghost var held: set<Obj>           // objects in clients' hands

    ghost function Layer(): Slabs
      reads this
    {
      Slabs(slots, headers, partial, full, empty)
    }

    ghost function MagBag(): multiset<Obj>
      reads this
    {
      CpusBag(cpus) + MagsBag(fullMags)
    }

    ghost predicate Valid()
      reads this
    {
      && SlabsOk(Layer())
      && Split(Layer(), held, MagBag())
      && MagsOk(cpus, fullMags, emptyMags)
    }

    /** cache_setup: no slabs, no magazines. */
    constructor (slots: nat, ncpu: nat)
      requires slots >= 1
      ensures Valid() && held == {} && headers == map[] && |cpus| == ncpu && this.slots == slots
    {
      this.slots := slots;
      headers, partial, full, empty := map[], [], [], [];
      fullMags, emptyMags, held := [], [], {};
      cpus := seq(ncpu, _ => CpuCache(None, None));
      new;
      NoCpusBag(cpus);
    }

    /** bit_ffc: the first clear bit of a slab that has one. */
    method FirstClear(s: nat) returns (slot: nat)
      requires s in headers && HeaderOk(slots, headers[s]) && headers[s].inuse < slots
      ensures slot < slots && !headers[s].used[slot]
    {
      slot := 0;
      CountBounds(headers[s].used);
      while headers[s].used[slot]
        invariant slot < slots && forall i :: 0 <= i < slot ==> headers[s].used[i]
        decreases slots - slot
      {
        slot := slot + 1;
      }
    }

    /** The slab slab_alloc_locked takes from: on the partial list when it returns. */
    method PickSlab(page: Option<nat>) returns (ok: bool, s: nat)
      requires SlabsOk(Layer()) && (page.Some? ==> page.value !in headers)
      modifies this`headers, this`partial, this`empty
      ensures !ok ==> page.None? && Layer() == old(Layer()) && forall t :: t in headers ==> headers[t].inuse == slots
      ensures ok ==> Almost(Layer(), s) && headers[s].inuse < slots
      ensures ok ==> if s in old(headers) then headers == old(headers)
                     else page == Some(s) && headers == old(headers)[s := Header(seq(slots, _ => false), 0)]
      ensures ok && s !in old(headers) ==> forall t :: t in old(headers) ==> old(headers)[t].inuse == slots
    {
      if |partial| > 0 {
        s := partial[0];
        assert s in partial;
        PartialIsAlmost(Layer(), s);
        return true, s;
      }
      if |empty| > 0 {
        s := empty[0];
        assert s in empty;
        WithoutNoDup(empty, s);
        empty := Without(empty, s);
      } else if page.Some? {
        NoneFree(Layer());
        s := page.value;
        CountBounds(seq(slots, _ => false));
        headers := headers[s := Header(seq(slots, _ => false), 0)];
      } else {
        NoneFree(Layer());
        return false, 0;
      }
      PushNoDup(partial, s);
      partial := [s] + partial;
      ok := true;
    }

    /** slab_alloc_locked: some slot that was free, unless every slot is used and no page comes. */
    method SlabAlloc(page: Option<nat>) returns (r: Option<Obj>)
      requires SlabsOk(Layer()) && (page.Some? ==> page.value !in headers)
      modifies this`headers, this`partial, this`full, this`empty
      ensures SlabsOk(Layer()) && Grew(old(Layer()), Layer(), page)
      ensures r.Some? ==> !IsUsed(old(Layer()), r.value) && UsedWith(old(Layer()), Layer(), r.value)
      ensures r.None? ==> page.None? && Layer() == old(Layer()) && forall o :: IsSlot(Layer(), o) ==> IsUsed(Layer(), o)
    {
      hide SlabsOk, IsUsed, Almost, IsSlot;
      var ok, s := PickSlab(page);
      if !ok {
        AllFull(Layer());
        return None;
      }
      ghost var k := Layer();
      PickedSame(old(Layer()), k, s);
      AlmostHeader(k, s);
      if s !in old(headers) { AllFull(old(Layer())); }
      var slot := TakeSlot(s);
      r := Some(Obj(s, slot));
    }

    /** The slot taken from slab s, and the full list if it was the last. */
    method TakeSlot(s: nat) returns (slot: nat)
      requires Almost(Layer(), s) && s in headers && headers[s].inuse < slots
      modifies this`headers, this`partial, this`full
      ensures SlabsOk(Layer()) && headers.Keys == old(headers).Keys
      ensures !IsUsed(old(Layer()), Obj(s, slot)) && UsedWith(old(Layer()), Layer(), Obj(s, slot))
    {
      hide SlabsOk, Almost, NoDup, IsUsed;
      ghost var k := Layer();
      AlmostHeader(k, s);
      slot := FirstClear(s);
      var h := headers[s];
      CountUpdate(h.used, slot, true);
      CountBounds(h.used);
      var h' := Header(h.used[slot := true], h.inuse + 1);
      Rewrite(Layer(), s, h');
      headers := headers[s := h'];
      ghost var k' := Layer();
      BitUsed(k, k', s, slot, true);
      NotUsed(k, s, slot);
      if h'.inuse == slots {
        MoveToFull(k', s);
        partial := Without(partial, s);
        full := [s] + full;
      } else {
        StayPartial(k', s);
      }
      SameHeaders(k', Layer());
    }

    /** slab_free_locked; false is a failed KASSERT: the page is not a slab of this cache, the slot is not
        one of its slots, or its bit is clear. */
    method SlabFree(o: Obj) returns (ok: bool)
      requires SlabsOk(Layer())
      modifies this`headers, this`partial, this`full, this`empty
      ensures SlabsOk(Layer()) && headers.Keys == old(headers).Keys && (ok <==> IsUsed(old(Layer()), o))
      ensures ok ==> !IsUsed(Layer(), o) && UsedWith(Layer(), old(Layer()), o)
      ensures !ok ==> Layer() == old(Layer())
    {
      hide SlabsOk, UsedWith;
      var s := o.slab;
      if s !in headers { return false; }
      SlabHeader(Layer(), s);
      if o.slot >= slots || !headers[s].used[o.slot] { return false; }
      ReturnSlot(o);
      ok := true;
    }

    method ReturnSlot(o: Obj)
      requires SlabsOk(Layer()) && IsUsed(Layer(), o)
      modifies this`headers, this`partial, this`full, this`empty
      ensures SlabsOk(Layer()) && headers.Keys == old(headers).Keys
      ensures !IsUsed(Layer(), o) && UsedWith(Layer(), old(Layer()), o)
    {
      hide NoDup;
      var s := o.slab;
      var h := headers[s];
      CountUpdate(h.used, o.slot, false);
      CountBounds(h.used);
      var wasFull := h.inuse == slots;
      assert wasFull ==> s in full;
      assert !wasFull ==> s in partial;
      if wasFull {
        MoveToPartial(Layer(), s);
        full := Without(full, s);
        partial := [s] + partial;
      } else {
        PartialIsAlmost(Layer(), s);
      }
      Settle(s, Header(h.used[o.slot := false], h.inuse - 1));
      BitUsed(old(Layer()), Layer(), s, o.slot, false);
    }

    /** The rest of slab_free_locked: the new header, and the empty list if it says so. */
    method Settle(s: nat, h: Header)
      requires Almost(Layer(), s) && HeaderOk(slots, h) && h.inuse < slots
      modifies this`headers, this`partial, this`empty
      ensures SlabsOk(Layer()) && headers == old(headers)[s := h]
    {
      hide SlabsOk, NoDup;
      Rewrite(Layer(), s, h);
      headers := headers[s := h];
      if h.inuse == 0 {
        MoveToEmpty(Layer(), s);
        partial := Without(partial, s);
        empty := [s] + empty;
      } else {
        StayPartial(Layer(), s);
      }
    }

    /** The working magazine gives its last object. */
    method PopLoaded(cpu: nat) returns (o: Obj)
      requires Valid() && cpu < |cpus| && cpus[cpu].loaded.Some? && |cpus[cpu].loaded.value| > 0
      modifies this`cpus, this`held
      ensures Valid() && |cpus| == |old(cpus)| && cpus == old(cpus)[cpu := cpus[cpu]]
      ensures Top(old(cpus[cpu]), o) && cpus[cpu] == Popped(old(cpus[cpu]))
      ensures o !in old(held) && held == old(held) + {o}
    {
      hide SlabsOk, Split, MagsOk, CpusBag, MagsBag;
      var c := cpus[cpu];
      var m := c.loaded.value;
      var n := |m| - 1;
      o := m[n];
      var c' := CpuCache(Some(m[..n]), c.previous);
      PopBag(cpus, cpu, fullMags);
      SplitPop(Layer(), held, CpusBag(cpus[cpu := c']) + MagsBag(fullMags), o);
      PairAt(cpus, fullMags, emptyMags, cpu);
      MagsKeep(cpus, fullMags, emptyMags, cpu, c');
      cpus := cpus[cpu := c'];
      held := held + {o};
    }

    /** The spare and the working magazine change places. */
    method SwapPair(cpu: nat)
      requires Valid() && cpu < |cpus| && SpareOk(cpus[cpu].loaded)
      modifies this`cpus
      ensures Valid() && cpus == old(cpus)[cpu := CpuCache(old(cpus[cpu].previous), old(cpus[cpu].loaded))]
    {
      hide SlabsOk, Split, MagsOk, CpusBag, MagsBag;
      var c' := CpuCache(cpus[cpu].previous, cpus[cpu].loaded);
      SwapBag(cpus, cpu);
      PairAt(cpus, fullMags, emptyMags, cpu);
      MagsKeep(cpus, fullMags, emptyMags, cpu, c');
      cpus := cpus[cpu := c'];
    }

    /** A full magazine of the depot becomes the working one; the spare goes to the empty list. */
    method TakeFull(cpu: nat)
      requires Valid() && cpu < |cpus| && |fullMags| > 0 && AllocRank(cpus[cpu]) == 2
      modifies this`cpus, this`fullMags, this`emptyMags
      ensures Valid() && |cpus| == |old(cpus)| && cpus == old(cpus)[cpu := cpus[cpu]] && AllocRank(cpus[cpu]) == 0
    {
      hide SlabsOk, Split, MagsOk, CpusBag, MagsBag;
      var c := cpus[cpu];
      var c' := CpuCache(Some(fullMags[0]), c.loaded);
      PairAt(cpus, fullMags, emptyMags, cpu);
      assert Bag(c.previous) == multiset{};
      RefillBag(cpus, cpu, fullMags);
      MagsKeep(cpus, fullMags, emptyMags, cpu, c);
      assert cpus[cpu := c] == cpus;
      MagsKeep(cpus, fullMags, emptyMags, cpu, c');
      fullMags := fullMags[1..];
      cpus := cpus[cpu := c'];
      if c.previous.Some? {
        MagsPush(cpus, fullMags, emptyMags, c.previous.value);
        emptyMags := [c.previous.value] + emptyMags;
      }
    }

    /** One turn of kmem_cache_alloc's loop, atomic towards the other CPUs. */
    method AllocTurn(cpu: nat, page: Option<nat>) returns (done: bool, r: Option<Obj>)
      requires Valid() && cpu < |cpus| && (page.Some? ==> page.value !in headers)
      modifies this
      ensures Valid() && |cpus| == |old(cpus)| && cpus == old(cpus)[cpu := cpus[cpu]] && Grew(old(Layer()), Layer(), page)
      ensures !done ==> held == old(held) && headers == old(headers) && AllocRank(cpus[cpu]) < AllocRank(old(cpus[cpu]))
      ensures done && r.Some? ==> r.value !in old(held) && held == old(held) + {r.value}
      ensures done && r.None? ==> page.None? && held == old(held) && Exhausted(cpu) && State() == old(State())
      ensures !done ==> AllocRank(cpus[cpu]) == 0
      ensures AllocRank(old(cpus[cpu])) == 0 ==> done && r.Some? && Top(old(cpus[cpu]), r.value) && cpus[cpu] == Popped(old(cpus[cpu]))
      ensures AllocRank(old(cpus[cpu])) == 0 ==> fullMags == old(fullMags) && emptyMags == old(emptyMags)
      ensures HasReady(old(cpus[cpu]), old(fullMags)) ==> Layer() == old(Layer()) && (done ==> r.Some?)
      ensures !HasReady(old(cpus[cpu]), old(fullMags)) ==> done && cpus == old(cpus) && fullMags == old(fullMags) && emptyMags == old(emptyMags)
      ensures old(Exhausted(cpu)) && page.Some? ==> done && r.Some? && headers.Keys == old(headers).Keys + {page.value}
    {
      hide SlabsOk, Split, IsUsed, MagsOk, CpusBag, MagsBag, IsSlot, UsedWith, Grew, PairBag;
      GrewSelf(Layer(), page);
      EmptyPair(cpus[cpu]);
      var c := cpus[cpu];
      PairAt(cpus, fullMags, emptyMags, cpu);
      if c.loaded.Some? && |c.loaded.value| > 0 {
        var o := PopLoaded(cpu);
        return true, Some(o);
      }
      if c.previous.Some? && |c.previous.value| == MAG_DEPTH {
        SwapPair(cpu);
        return false, None;
      }
      if |fullMags| > 0 {
        TakeFull(cpu);
        return false, None;
      }
      r := SlabAlloc(page);
      GrewMeans(old(Layer()), Layer(), page);
      if r.Some? {
        MustGrow(old(Layer()), Layer(), page, r.value);
        SplitAlloc(old(Layer()), Layer(), held, MagBag(), r.value);
        held := held + {r.value};
      } else {
        assert cpus[cpu] == c;
      }
      done := true;
    }

    /** The whole state of the cache. */
    ghost function State(): CacheState
      reads this
    {
      CacheState(Layer(), cpus, fullMags, emptyMags, held)
    }

    ghost predicate Exhausted(cpu: nat)
      requires cpu < |cpus|
      reads this
    {
      ExhaustedIn(State(), cpu)
    }

    /** kmem_cache_alloc */
    method KmemAlloc(cpu: nat, page: Option<nat>) returns (r: Option<Obj>)
      requires Valid() && cpu < |cpus| && (page.Some? ==> page.value !in headers)
      modifies this
      ensures Valid() && |cpus| == |old(cpus)| && cpus == old(cpus)[cpu := cpus[cpu]] && Grew(old(Layer()), Layer(), page)
      ensures r.Some? ==> r.value !in old(held) && held == old(held) + {r.value}
      ensures r.None? ==> page.None? && held == old(held) && Exhausted(cpu) && State() == old(State())
      ensures old(Exhausted(cpu)) && page.Some? ==> r.Some? && headers.Keys == old(headers).Keys + {page.value}
      ensures page.None? ==> headers.Keys == old(headers).Keys
      ensures AllocRank(old(cpus[cpu])) == 0 ==> r.Some? && Top(old(cpus[cpu]), r.value) && cpus[cpu] == Popped(old(cpus[cpu]))
      ensures AllocRank(old(cpus[cpu])) == 0 ==> fullMags == old(fullMags) && emptyMags == old(emptyMags)
      ensures HasReady(old(cpus[cpu]), old(fullMags)) ==> r.Some? && Layer() == old(Layer())
      ensures !HasReady(old(cpus[cpu]), old(fullMags)) ==> cpus == old(cpus) && fullMags == old(fullMags) && emptyMags == old(emptyMags)
    {
      hide Valid, Exhausted, Top, Popped, HasReady;
      ReadyPair(cpus[cpu], fullMags);
      var done;
      done, r := AllocTurn(cpu, page);
      while !done
        invariant Valid() && |cpus| == |old(cpus)| && cpus == old(cpus)[cpu := cpus[cpu]]
        invariant Grew(old(Layer()), Layer(), page) && (!done ==> headers == old(headers) && held == old(held))
        invariant done && r.Some? ==> r.value !in old(held) && held == old(held) + {r.value}
        invariant done && r.None? ==> page.None? && held == old(held) && Exhausted(cpu) && State() == old(State())
        invariant !done ==> AllocRank(cpus[cpu]) == 0 && AllocRank(old(cpus[cpu])) != 0
        invariant AllocRank(old(cpus[cpu])) == 0 ==> r.Some? && Top(old(cpus[cpu]), r.value) && cpus[cpu] == Popped(old(cpus[cpu]))
        invariant AllocRank(old(cpus[cpu])) == 0 ==> fullMags == old(fullMags) && emptyMags == old(emptyMags)
        invariant HasReady(old(cpus[cpu]), old(fullMags)) ==> Layer() == old(Layer()) && (done ==> r.Some?)
        invariant !HasReady(old(cpus[cpu]), old(fullMags)) ==> done && cpus == old(cpus) && fullMags == old(fullMags) && emptyMags == old(emptyMags)
        invariant old(Exhausted(cpu)) && page.Some? ==> done && r.Some? && headers.Keys == old(headers).Keys + {page.value}
        decreases !done, AllocRank(cpus[cpu])
      {
        ghost var k := Layer();
        SameHeaders(old(Layer()), k);
        ReadyPair(cpus[cpu], fullMags);
        done, r := AllocTurn(cpu, page);
        GrewFrom(old(Layer()), k, Layer(), page);
      }
    }

    /** The freed object goes on the working magazine. */
    method PushLoaded(cpu: nat, o: Obj)
      requires Valid() && cpu < |cpus| && o in held && cpus[cpu].loaded.Some? && |cpus[cpu].loaded.value| < MAG_DEPTH
      modifies this`cpus, this`held
      ensures Valid() && |cpus| == |old(cpus)| && cpus == old(cpus)[cpu := cpus[cpu]] && held == old(held) - {o} && Top(cpus[cpu], o)
    {
      hide SlabsOk, Split, MagsOk, CpusBag, MagsBag;
      var c := cpus[cpu];
      var c' := CpuCache(Some(c.loaded.value + [o]), c.previous);
      PushBag(cpus, cpu, fullMags, o);
      SplitPush(Layer(), held, MagBag(), o);
      PairAt(cpus, fullMags, emptyMags, cpu);
      MagsKeep(cpus, fullMags, emptyMags, cpu, c');
      cpus := cpus[cpu := c'];
      held := held - {o};
    }

    /** An empty magazine becomes the working one; the spare goes to the full list. */
    method TakeEmpty(cpu: nat)
      requires Valid() && cpu < |cpus| && FreeRank(cpus[cpu]) == 2
      modifies this`cpus, this`fullMags, this`emptyMags
      ensures Valid() && |cpus| == |old(cpus)| && cpus == old(cpus)[cpu := cpus[cpu]] && FreeRank(cpus[cpu]) == 0
    {
      hide SlabsOk, Split, MagsOk, CpusBag, MagsBag;
      var c := cpus[cpu];
      var c' := CpuCache(Some([]), c.loaded);
      PairAt(cpus, fullMags, emptyMags, cpu);
      MagsKeep(cpus, fullMags, emptyMags, cpu, c');
      RetireBag(cpus, cpu, fullMags);
      if |emptyMags| > 0 { emptyMags := emptyMags[1..]; }
      cpus := cpus[cpu := c'];
      if c.previous.Some? {
        MagsPush(cpus, fullMags, emptyMags, c.previous.value);
        fullMags := [c.previous.value] + fullMags;
      }
    }

    /** One turn of kmem_cache_free's loop; spare says whether a new magazine can be had. */
    method FreeTurn(cpu: nat, o: Obj, spare: bool) returns (done: bool)
      requires Valid() && cpu < |cpus| && o in held
      modifies this
      ensures Valid() && |cpus| == |old(cpus)| && cpus == old(cpus)[cpu := cpus[cpu]] && headers.Keys == old(headers).Keys
      ensures !done ==> held == old(held) && FreeRank(cpus[cpu]) < FreeRank(old(cpus[cpu]))
      ensures done ==> held == old(held) - {o}
      ensures !done ==> FreeRank(cpus[cpu]) == 0
      ensures HasRoom(old(cpus[cpu]), old(emptyMags), spare) ==> Layer() == old(Layer()) && (done ==> Top(cpus[cpu], o))
      ensures !HasRoom(old(cpus[cpu]), old(emptyMags), spare) ==> done && cpus == old(cpus) && fullMags == old(fullMags) && emptyMags == old(emptyMags)
    {
      hide SlabsOk, Split, IsUsed, MagsOk, CpusBag, MagsBag, UsedWith;
      var c := cpus[cpu];
      PairAt(cpus, fullMags, emptyMags, cpu);
      if c.loaded.Some? && |c.loaded.value| < MAG_DEPTH {
        PushLoaded(cpu, o);
        return true;
      }
      if c.previous.Some? && |c.previous.value| == 0 {
        SwapPair(cpu);
        return false;
      }
      if |emptyMags| == 0 && !spare {
        HeldUsed(Layer(), held, MagBag(), o);
        var ok := SlabFree(o);
        SplitFree(old(Layer()), Layer(), held, MagBag(), o);
        held := held - {o};
        return true;
      }
      TakeEmpty(cpu);
      done := false;
    }

    /** kmem_cache_free */
    method KmemFree(cpu: nat, o: Obj, spare: bool)
      requires Valid() && cpu < |cpus| && o in held
      modifies this
      ensures Valid() && |cpus| == |old(cpus)| && cpus == old(cpus)[cpu := cpus[cpu]] && headers.Keys == old(headers).Keys
      ensures held == old(held) - {o}
      ensures HasRoom(old(cpus[cpu]), old(emptyMags), spare) ==> Layer() == old(Layer()) && Top(cpus[cpu], o)
      ensures !HasRoom(old(cpus[cpu]), old(emptyMags), spare) ==> cpus == old(cpus) && fullMags == old(fullMags) && emptyMags == old(emptyMags)
    {
      hide Valid, Top;
      var done := FreeTurn(cpu, o, spare);
      while !done
        invariant Valid() && |cpus| == |old(cpus)| && cpus == old(cpus)[cpu := cpus[cpu]]
        invariant headers.Keys == old(headers).Keys
        invariant held == if done then old(held) - {o} else old(held)
        invariant !done ==> FreeRank(cpus[cpu]) == 0
        invariant HasRoom(old(cpus[cpu]), old(emptyMags), spare) ==> Layer() == old(Layer()) && (done ==> Top(cpus[cpu], o))
        invariant !HasRoom(old(cpus[cpu]), old(emptyMags), spare) ==> done && cpus == old(cpus) && fullMags == old(fullMags) && emptyMags == old(emptyMags)
        decreases !done, FreeRank(cpus[cpu])
      {
        done := FreeTurn(cpu, o, spare);
      }
    }

    /** An object just freed into a magazine is the next one this CPU gets, and the slabs see neither. */
    method FreeThenAlloc(cpu: nat, o: Obj, spare: bool, page: Option<nat>) returns (r: Option<Obj>)
      requires Valid() && cpu < |cpus| && o in held && (page.Some? ==> page.value !in headers)
      modifies this
      ensures Valid() && (HasRoom(old(cpus[cpu]), old(emptyMags), spare) ==> r == Some(o) && held == old(held) && Layer() == old(Layer()))
    {
      hide Valid, Exhausted, HasReady, HasRoom;
      KmemFree(cpu, o, spare);
      ReadyPair(cpus[cpu], fullMags);
      r := KmemAlloc(cpu, page);
    }

    /** drain_magazine: every object of m, on top of the objects in bag, goes back to its slab. */
    method DrainMagazine(m: Magazine, ghost bag: multiset<Obj>)
      requires SlabsOk(Layer()) && Split(Layer(), held, bag + multiset(m))
      modifies this`headers, this`partial, this`full, this`empty
      ensures SlabsOk(Layer()) && Split(Layer(), held, bag) && headers.Keys == old(headers).Keys
    {
      hide SlabsOk, Split, IsUsed;
      assert m[0..] == m;
      for i := 0 to |m|
        invariant SlabsOk(Layer()) && Split(Layer(), held, bag + multiset(m[i..]))
        invariant headers.Keys == old(headers).Keys
      {
        ghost var k := Layer();
        assert m[i..] == [m[i]] + m[i + 1..];
        assert bag + multiset(m[i..]) == bag + multiset(m[i + 1..]) + multiset{m[i]};
        InBagUsed(Layer(), held, bag + multiset(m[i + 1..]), m[i]);
        var ok := SlabFree(m[i]);
        SplitDrain(k, Layer(), held, bag + multiset(m[i + 1..]), m[i]);
      }
      assert m[|m|..] == [];
      assert bag + multiset(m[|m|..]) == bag;
    }

    /** Both depot lists are drained; bag is what the CPUs' pairs hold. */
    method DrainDepot(ghost bag: multiset<Obj>)
      requires SlabsOk(Layer()) && Split(Layer(), held, bag + MagsBag(fullMags))
      modifies this`headers, this`partial, this`full, this`empty, this`fullMags, this`emptyMags
      ensures SlabsOk(Layer()) && Split(Layer(), held, bag) && headers.Keys == old(headers).Keys
      ensures fullMags == [] && emptyMags == []
    {
      hide SlabsOk, Split;
      while |fullMags| > 0
        invariant SlabsOk(Layer()) && Split(Layer(), held, bag + MagsBag(fullMags)) && headers.Keys == old(headers).Keys
        decreases |fullMags|
      {
        var m := fullMags[0];
        ghost var rest := bag + MagsBag(fullMags[1..]);
        assert bag + MagsBag(fullMags) == rest + multiset(m);
        fullMags := fullMags[1..];
        DrainMagazine(m, rest);
      }
      assert bag + MagsBag(fullMags) == bag;
      emptyMags := [];
    }

    /** Every slab on the empty list goes back to the page allocator. */
    method FreeEmpty() returns (freed: set<nat>)
      requires SlabsOk(Layer())
      modifies this`headers, this`empty
      ensures SlabsOk(Layer()) && empty == [] && headers == old(headers) - freed && freed <= old(headers).Keys
      ensures forall s :: s in old(headers) ==> (s in freed <==> old(headers)[s].inuse == 0)
    {
      freed := {};
      while |empty| > 0
        invariant SlabsOk(Layer()) && headers == old(headers) - freed && freed <= old(headers).Keys
        invariant forall s :: s in freed ==> s in old(headers) && old(headers)[s].inuse == 0
        decreases |empty|
      {
        var s := empty[0];
        assert s in empty;
        DropEmpty(Layer());
        headers := headers - {s};
        empty := empty[1..];
        freed := freed + {s};
      }
      NoneEmpty(Layer());
    }

    /** kmem_reclaim on this cache: what stays is exactly the slabs with an object in use by a client or a CPU. */
    method Reclaim() returns (freed: set<nat>)
      requires Valid()
      modifies this`headers, this`partial, this`full, this`empty, this`fullMags, this`emptyMags
      ensures Valid() && fullMags == [] && emptyMags == [] && empty == []
      ensures freed <= old(headers).Keys && headers.Keys == old(headers).Keys - freed
      ensures forall s :: s in old(headers) ==> (s !in freed <==> HasLive(s, held, CpusBag(cpus)))
    {
      hide SlabsOk, Split, HasLive, CpusBag;
      ghost var bag := CpusBag(cpus);
      DrainDepot(bag);
      ghost var k := Layer();
      LiveIffUsed(k, held, bag);
      freed := FreeEmpty();
      SplitShrink(k, Layer(), held, bag, freed);
      assert MagBag() == bag;
    }

    /** kmem_cache_destroy: no KASSERT fails exactly when no client holds an object; then every page goes back. */
    method Destroy() returns (ok: bool, freed: set<nat>)
      requires Valid()
      modifies this`headers, this`partial, this`full, this`empty, this`fullMags, this`emptyMags, this`cpus
      ensures ok <==> held == {}
      ensures ok ==> freed == old(headers).Keys && headers == map[]
    {
      hide SlabsOk, Split, HasLive, CpusBag, MagsBag, MagsOk;
      DrainCpus(MagsBag(fullMags));
      assert multiset{} + MagsBag(fullMags) == MagsBag(fullMags);
      DrainDepot(multiset{});
      LiveIffUsed(Layer(), held, multiset{});
      NobodyHolds(Layer(), held);
      if partial != [] || full != [] { return false, {}; }
      ok := true;
      freed := FreeEmpty();
    }

    method DrainCpus(ghost depot: multiset<Obj>)
      requires SlabsOk(Layer()) && Split(Layer(), held, CpusBag(cpus) + depot)
      modifies this`headers, this`partial, this`full, this`empty, this`cpus
      ensures SlabsOk(Layer()) && Split(Layer(), held, depot) && headers.Keys == old(headers).Keys
    {
      hide SlabsOk, Split, CpusBag;
      var n := |cpus|;
      for i := 0 to n
        invariant |cpus| == n && SlabsOk(Layer()) && Split(Layer(), held, CpusBag(cpus) + depot)
        invariant headers.Keys == old(headers).Keys
        invariant forall j :: 0 <= j < i ==> cpus[j] == CpuCache(None, None)
      {
        DrainPair(i, depot);
      }
      NoCpusBag(cpus);
      assert CpusBag(cpus) + depot == depot;
    }

    method DrainPair(i: nat, ghost depot: multiset<Obj>)
      requires i < |cpus| && SlabsOk(Layer()) && Split(Layer(), held, CpusBag(cpus) + depot)
      modifies this`headers, this`partial, this`full, this`empty, this`cpus
      ensures SlabsOk(Layer()) && Split(Layer(), held, CpusBag(cpus) + depot) && headers.Keys == old(headers).Keys
      ensures cpus == old(cpus)[i := CpuCache(None, None)]
    {
      hide SlabsOk, Split, CpusBag;
      var c := cpus[i];
      if c.loaded.Some? {
        var c' := CpuCache(None, c.previous);
        PairLoses(cpus, i, c', multiset(c.loaded.value), depot);
        DrainMagazine(c.loaded.value, CpusBag(cpus[i := c']) + depot);
        cpus := cpus[i := c'];
      }
      if c.previous.Some? {
        var c' := CpuCache(None, None);
        PairLoses(cpus, i, c', multiset(c.previous.value), depot);
        DrainMagazine(c.previous.value, CpusBag(cpus[i := c']) + depot);
        cpus := cpus[i := c'];
      }
    }
  }

  /* ---- how the bags and the split move ---- */

  function AllocRank(c: CpuCache): nat {
    if c.loaded.Some? && |c.loaded.value| > 0 then 0
    else if c.previous.Some? && |c.previous.value| == MAG_DEPTH then 1 else 2
  }

  function FreeRank(c: CpuCache): nat {
    if c.loaded.Some? && |c.loaded.value| < MAG_DEPTH then 0
    else if c.previous.Some? && |c.previous.value| == 0 then 1 else 2
  }

  /** A magazine of this CPU or of the depot can serve an allocation. */
  predicate HasReady(c: CpuCache, fullMags: seq<Magazine>) {
    || (c.loaded.Some? && |c.loaded.value| > 0) || (c.previous.Some? && |c.previous.value| == 15) || fullMags != []
  }

  /** A magazine can take a freed object: one of the pair, an empty one of the depot, or a new one. */
  predicate HasRoom(c: CpuCache, emptyMags: seq<Magazine>, spare: bool) {
    || (c.loaded.Some? && |c.loaded.value| < 15) || (c.previous.Some? && |c.previous.value| == 0) || emptyMags != [] || spare
  }

  /** o is the object last put on the working magazine. */
  predicate Top(c: CpuCache, o: Obj) {
    c.loaded.Some? && |c.loaded.value| > 0 && c.loaded.value[|c.loaded.value| - 1] == o
  }

  function Popped(c: CpuCache): CpuCache {
    if c.loaded.Some? && |c.loaded.value| > 0 then CpuCache(Some(c.loaded.value[..|c.loaded.value| - 1]), c.previous) else c
  }

  lemma ReadyPair(c: CpuCache, fullMags: seq<Magazine>)
    ensures AllocRank(c) == 0 ==> HasReady(c, fullMags)
    ensures forall o :: Top(c, o) ==> AllocRank(c) == 0
  {
  }

  lemma Cancel(a: multiset<Obj>, b: multiset<Obj>, x: multiset<Obj>, y: multiset<Obj>, d: multiset<Obj>, z: multiset<Obj>)
    requires b + x == a + y && x == y + d
    ensures a + z == (b + z) + d
  {
    forall o ensures a[o] == b[o] + d[o] {
      assert (b + x)[o] == (a + y)[o];
    }
  }

  /** The pair of one CPU gives up the objects in d. */
  lemma PairLoses(cpus: seq<CpuCache>, i: nat, c: CpuCache, d: multiset<Obj>, z: multiset<Obj>)
    requires i < |cpus| && PairBag(cpus[i]) == PairBag(c) + d
    ensures CpusBag(cpus) + z == (CpusBag(cpus[i := c]) + z) + d
  {
    hide PairBag, CpusBag;
    CpusBagUpdate(cpus, i, c);
    Cancel(CpusBag(cpus), CpusBag(cpus[i := c]), PairBag(cpus[i]), PairBag(c), d, z);
  }

  /** The pair of one CPU gains the objects in d. */
  lemma PairGains(cpus: seq<CpuCache>, i: nat, c: CpuCache, d: multiset<Obj>, z: multiset<Obj>)
    requires i < |cpus| && PairBag(c) == PairBag(cpus[i]) + d
    ensures CpusBag(cpus[i := c]) + z == (CpusBag(cpus) + z) + d
  {
    hide PairBag, CpusBag;
    var cpus' := cpus[i := c];
    assert cpus'[i := cpus[i]] == cpus;
    PairLoses(cpus', i, cpus[i], d, z);
  }

  lemma PopBag(cpus: seq<CpuCache>, i: nat, mags: seq<Magazine>)
    requires i < |cpus| && cpus[i].loaded.Some? && |cpus[i].loaded.value| > 0
    ensures var m := cpus[i].loaded.value; var n := |m| - 1; var c' := CpuCache(Some(m[..n]), cpus[i].previous);
            CpusBag(cpus) + MagsBag(mags) == CpusBag(cpus[i := c']) + MagsBag(mags) + multiset{m[n]}
  {
    var m := cpus[i].loaded.value;
    var n := |m| - 1;
    assert m == m[..n] + [m[n]];
    PairLoses(cpus, i, CpuCache(Some(m[..n]), cpus[i].previous), multiset{m[n]}, MagsBag(mags));
  }

  lemma PushBag(cpus: seq<CpuCache>, i: nat, mags: seq<Magazine>, o: Obj)
    requires i < |cpus| && cpus[i].loaded.Some?
    ensures var c' := CpuCache(Some(cpus[i].loaded.value + [o]), cpus[i].previous);
            CpusBag(cpus[i := c']) + MagsBag(mags) == CpusBag(cpus) + MagsBag(mags) + multiset{o}
  {
    PairGains(cpus, i, CpuCache(Some(cpus[i].loaded.value + [o]), cpus[i].previous), multiset{o}, MagsBag(mags));
  }

  lemma SwapBag(cpus: seq<CpuCache>, i: nat)
    requires i < |cpus|
    ensures CpusBag(cpus[i := CpuCache(cpus[i].previous, cpus[i].loaded)]) == CpusBag(cpus)
  {
    var c' := CpuCache(cpus[i].previous, cpus[i].loaded);
    PairLoses(cpus, i, c', multiset{}, multiset{});
    assert CpusBag(cpus) == CpusBag(cpus) + multiset{};
    assert CpusBag(cpus[i := c']) == (CpusBag(cpus[i := c']) + multiset{}) + multiset{};
  }

  lemma RefillBag(cpus: seq<CpuCache>, i: nat, mags: seq<Magazine>)
    requires i < |cpus| && mags != [] && Bag(cpus[i].previous) == multiset{}
    ensures CpusBag(cpus[i := CpuCache(Some(mags[0]), cpus[i].loaded)]) + MagsBag(mags[1..]) == CpusBag(cpus) + MagsBag(mags)
  {
    var c' := CpuCache(Some(mags[0]), cpus[i].loaded);
    assert PairBag(c') == PairBag(cpus[i]) + multiset(mags[0]);
    PairGains(cpus, i, c', multiset(mags[0]), MagsBag(mags[1..]));
    assert MagsBag(mags) == multiset(mags[0]) + MagsBag(mags[1..]);
  }

  /** The pair's spare, if there is one, goes to the full list of the depot. */
  lemma RetireBag(cpus: seq<CpuCache>, i: nat, mags: seq<Magazine>)
    requires i < |cpus|
    ensures var c' := CpuCache(Some([]), cpus[i].loaded);
            var mags' := if cpus[i].previous.Some? then [cpus[i].previous.value] + mags else mags;
            CpusBag(cpus[i := c']) + MagsBag(mags') == CpusBag(cpus) + MagsBag(mags)
  {
    var c' := CpuCache(Some([]), cpus[i].loaded);
    var spare := Bag(cpus[i].previous);
    assert PairBag(cpus[i]) == PairBag(c') + spare;
    PairLoses(cpus, i, c', spare, MagsBag(mags));
    if cpus[i].previous.Some? { MagsBagPush(cpus[i].previous.value, mags); }
  }

  lemma {:induction false} NoCpusBag(cpus: seq<CpuCache>)
    requires forall i :: 0 <= i < |cpus| ==> cpus[i] == CpuCache(None, None)
    ensures CpusBag(cpus) == multiset{}
  {
    if cpus != [] { NoCpusBag(cpus[..|cpus| - 1]); }
  }

  lemma SplitPop(k: Slabs, held: set<Obj>, bag: multiset<Obj>, o: Obj)
    requires Split(k, held, bag + multiset{o})
    ensures o !in held && Split(k, held + {o}, bag)
  {
    assert (bag + multiset{o})[o] == bag[o] + 1;
  }

  lemma SplitPush(k: Slabs, held: set<Obj>, bag: multiset<Obj>, o: Obj)
    requires Split(k, held, bag) && o in held
    ensures Split(k, held - {o}, bag + multiset{o})
  {
  }

  lemma SplitAlloc(k: Slabs, k': Slabs, held: set<Obj>, bag: multiset<Obj>, o: Obj)
    requires Split(k, held, bag) && !IsUsed(k, o) && UsedWith(k, k', o)
    ensures o !in held && Split(k', held + {o}, bag)
  {
    assert bag[o] + (if o in held then 1 else 0) == 0;
  }

  lemma SplitFree(k: Slabs, k': Slabs, held: set<Obj>, bag: multiset<Obj>, o: Obj)
    requires Split(k, held, bag) && o in held && !IsUsed(k', o) && UsedWith(k', k, o)
    ensures Split(k', held - {o}, bag)
  {
  }

  lemma SplitDrain(k: Slabs, k': Slabs, held: set<Obj>, bag: multiset<Obj>, o: Obj)
    requires Split(k, held, bag + multiset{o}) && !IsUsed(k', o) && UsedWith(k', k, o)
    ensures Split(k', held, bag)
  {
    assert (bag + multiset{o})[o] == bag[o] + 1;
  }

  lemma HeldUsed(k: Slabs, held: set<Obj>, bag: multiset<Obj>, o: Obj)
    requires Split(k, held, bag) && o in held
    ensures IsUsed(k, o)
  {
  }

  lemma InBagUsed(k: Slabs, held: set<Obj>, bag: multiset<Obj>, o: Obj)
    requires Split(k, held, bag + multiset{o})
    ensures IsUsed(k, o)
  {
    assert (bag + multiset{o})[o] > 0;
  }

  /** What clients hold are slots of slabs of the cache. */
  lemma HeldSlots(k: Slabs, held: set<Obj>, bag: multiset<Obj>)
    requires SlabsOk(k) && Split(k, held, bag)
    ensures forall o :: o in held ==> IsSlot(k, o)
  {
    forall o | o in held ensures IsSlot(k, o) {
      HeldUsed(k, held, bag, o);
      SlabHeader(k, o.slab);
    }
  }

  /** Slab s has an object that a client holds or that is in bag. */
  ghost predicate HasLive(s: nat, held: set<Obj>, bag: multiset<Obj>) {
    exists slot: nat :: Obj(s, slot) in held || Obj(s, slot) in bag
  }

  lemma LiveIffUsed(k: Slabs, held: set<Obj>, bag: multiset<Obj>)
    requires SlabsOk(k) && Split(k, held, bag)
    ensures forall s :: s in k.headers ==> (HasLive(s, held, bag) <==> k.headers[s].inuse != 0)
  {
    forall s | s in k.headers ensures HasLive(s, held, bag) <==> k.headers[s].inuse != 0 {
      var used := k.headers[s].used;
      CountBounds(used);
      if slot: nat :| slot < |used| && used[slot] {
        assert IsUsed(k, Obj(s, slot));
      }
    }
  }

  lemma SomeMember(xs: seq<nat>)
    ensures xs != [] ==> exists x :: x in xs
  {
    if xs != [] { assert xs[0] in xs; }
  }

  lemma NobodyHolds(k: Slabs, held: set<Obj>)
    requires SlabsOk(k) && Split(k, held, multiset{})
    requires forall s :: s in k.headers ==> (HasLive(s, held, multiset{}) <==> k.headers[s].inuse != 0)
    ensures held == {} <==> k.partial == [] && k.full == []
    ensures held == {} ==> forall s :: s in k.headers ==> k.headers[s].inuse == 0
  {
    if o :| o in held {
      assert IsUsed(k, o) && HasLive(o.slab, held, multiset{});
      assert o.slab in k.partial || o.slab in k.full by { CountBounds(k.headers[o.slab].used); }
    }
    SomeMember(k.partial);
    SomeMember(k.full);
  }

  lemma DropEmpty(k: Slabs)
    requires SlabsOk(k) && |k.empty| > 0
    ensures k.empty[0] in k.headers && k.headers[k.empty[0]].inuse == 0
    ensures SlabsOk(k.(headers := k.headers - {k.empty[0]}, empty := k.empty[1..]))
  {
    var s := k.empty[0];
    assert s in k.empty;
    assert forall t :: t in k.empty <==> t == s || t in k.empty[1..];
    assert s !in k.empty[1..];
  }

  lemma NoneEmpty(k: Slabs)
    requires SlabsOk(k) && k.empty == []
    ensures forall s :: s in k.headers ==> k.headers[s].inuse != 0
  {
    forall s | s in k.headers ensures k.headers[s].inuse != 0 { assert s !in k.empty; }
  }

  /** Slabs without a used slot can go. */
  lemma SplitShrink(k: Slabs, k': Slabs, held: set<Obj>, bag: multiset<Obj>, freed: set<nat>)
    requires SlabsOk(k) && Split(k, held, bag) && k'.headers == k.headers - freed
    requires forall s :: s in freed && s in k.headers ==> k.headers[s].inuse == 0
    ensures Split(k', held, bag)
  {
    forall o: Obj ensures IsUsed(k', o) <==> IsUsed(k, o) {
      if o.slab in freed && o.slab in k.headers { CountBounds(k.headers[o.slab].used); }
    }
  }

  lemma SlabHeader(k: Slabs, s: nat)
    requires SlabsOk(k) && s in k.headers
    ensures HeaderOk(k.slots, k.headers[s])
  {
  }

  lemma AlmostHeader(k: Slabs, s: nat)
    requires Almost(k, s)
    ensures s in k.headers && HeaderOk(k.slots, k.headers[s])
  {
  }

  lemma NotUsed(k: Slabs, s: nat, slot: nat)
    requires s in k.headers && slot < |k.headers[s].used| && !k.headers[s].used[slot]
    ensures !IsUsed(k, Obj(s, slot))
  {
  }

  lemma SameHeaders(k: Slabs, k': Slabs)
    requires k.headers == k'.headers
    ensures forall x: Obj :: IsUsed(k, x) <==> IsUsed(k', x)
  {
  }

  /** A page just turned into a slab has no used slot. */
  lemma PickedSame(k: Slabs, k': Slabs, s: nat)
    requires if s in k.headers then k'.headers == k.headers
             else k'.headers == k.headers[s := Header(seq(k.slots, _ => false), 0)]
    ensures forall x: Obj :: IsUsed(k, x) <==> IsUsed(k', x)
  {
  }

  /** A page becomes a slab only when every slot was used. */
  ghost predicate Grew(k: Slabs, k': Slabs, page: Option<nat>) {
    k'.headers.Keys == k.headers.Keys
    || (page.Some? && k'.headers.Keys == k.headers.Keys + {page.value} && forall o :: IsSlot(k, o) ==> IsUsed(k, o))
  }

  lemma GrewSelf(k: Slabs, page: Option<nat>)
    ensures Grew(k, k, page)
  {
  }

  lemma GrewMeans(k: Slabs, k': Slabs, page: Option<nat>)
    requires Grew(k, k', page)
    ensures k'.headers.Keys == k.headers.Keys || (page.Some? && k'.headers.Keys == k.headers.Keys + {page.value})
  {
  }

  /** With every slot used, an object can only come from the new page. */
  lemma MustGrow(k: Slabs, k': Slabs, page: Option<nat>, o: Obj)
    requires Grew(k, k', page) && SlabsOk(k') && k'.slots == k.slots && !IsUsed(k, o) && UsedWith(k, k', o)
    ensures (forall x :: IsSlot(k, x) ==> IsUsed(k, x)) ==> page.Some? && k'.headers.Keys == k.headers.Keys + {page.value}
  {
    assert IsUsed(k', o);
    assert HeaderOk(k'.slots, k'.headers[o.slab]);
    if k'.headers.Keys == k.headers.Keys { assert IsSlot(k, o); }
  }

  /** Nothing is left for this CPU: every slot is used and neither its pair nor the depot holds one. */
  ghost predicate ExhaustedIn(c: CacheState, cpu: nat)
    requires cpu < |c.cpus|
  {
    (forall o :: IsSlot(c.slabs, o) ==> IsUsed(c.slabs, o)) && PairBag(c.cpus[cpu]) == multiset{} && c.fullMags == []
  }

  lemma EmptyPair(c: CpuCache)
    ensures PairBag(c) == multiset{} <==> (c.loaded.Some? ==> |c.loaded.value| == 0) && (c.previous.Some? ==> |c.previous.value| == 0)
  {
    if c.loaded.Some? { BagEmpty(c.loaded.value, Bag(c.previous)); }
    if c.previous.Some? { BagEmpty(c.previous.value, Bag(c.loaded)); }
  }

  lemma BagEmpty(m: Magazine, b: multiset<Obj>)
    ensures multiset(m) + b == multiset{} || b + multiset(m) == multiset{} ==> |m| == 0
  {
    if |m| > 0 { assert m[0] in multiset(m) + b && m[0] in b + multiset(m); }
  }

  lemma GrewFrom(k: Slabs, k1: Slabs, k2: Slabs, page: Option<nat>)
    requires k.headers == k1.headers && k.slots == k1.slots && Grew(k1, k2, page)
    ensures Grew(k, k2, page)
  {
    assert forall o: Obj :: IsSlot(k, o) ==> IsSlot(k1, o);
    assert forall o: Obj :: IsUsed(k1, o) ==> IsUsed(k, o);
  }

  lemma NoneFree(k: Slabs)
    requires SlabsOk(k) && k.partial == [] && k.empty == []
    ensures forall t :: t in k.headers ==> k.headers[t].inuse == k.slots
  {
    forall t | t in k.headers ensures k.headers[t].inuse == k.slots {
      CountBounds(k.headers[t].used);
      assert t !in k.partial && t !in k.empty;
    }
  }

  lemma AllFull(k: Slabs)
    requires SlabsOk(k) && forall t :: t in k.headers ==> k.headers[t].inuse == k.slots
    ensures forall o :: IsSlot(k, o) ==> IsUsed(k, o)
  {
    forall o | IsSlot(k, o) ensures IsUsed(k, o) { CountBounds(k.headers[o.slab].used); }
  }

  /** now uses exactly what was uses, and o. */
  ghost predicate UsedWith(was: Slabs, now: Slabs, o: Obj) {
    forall x: Obj :: IsUsed(now, x) <==> x == o || IsUsed(was, x)
  }
}

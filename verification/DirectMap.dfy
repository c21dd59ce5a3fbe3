/**
 The kernel's direct map of RAM (dmap_* in pmap.c): banks tiled with 4 KB pages, 2 MB
 blocks and 1 GB blocks, largest first.

 Addresses are page numbers.  Tables are pages named by number in `tables`, the L1 table
 is ROOT, and a table page comes from a bump allocator.  The ghost field `owner` says which
 slot a table hangs from.
 */
module DirectMap {
  import opened Wrappers
  import opened Regions

  const ENTRIES: nat := 512
  const BIG: nat := 262144             // pages in 1 GB
  const KSTACK_WINDOW_L1: nat := 511
  const ROOT: nat := 0

  datatype Entry = Empty | Block(pa: nat) | Table(id: nat) | Leaf(pa: nat)

  datatype Place = L2(i: nat) | L3(i: nat, j: nat)

  type Tables = map<nat, seq<Entry>>

  function Num(i: nat, j: nat, k: nat): nat { i * BIG + j * ENTRIES + k }

  /** L1X, L2X, L3X */
  function Ix1(p: nat): nat { p / BIG }
  function Ix2(p: nat): nat { p / ENTRIES % ENTRIES }
  function Ix3(p: nat): nat { p % ENTRIES }

  /** Slots of the L1 table that hold RAM. */
  predicate RamSlot(i: nat) { 0 < i < KSTACK_WINDOW_L1 }

  /* ---- what the hardware finds ---- */

  function Entry1(t: Tables, i: nat): Entry {
    if ROOT in t && i < |t[ROOT]| then t[ROOT][i] else Empty
  }

  function At(t: Tables, id: nat, j: nat): Entry {
    if id in t && j < |t[id]| then t[id][j] else Empty
  }

  /** The walk: the page number that address p translates to. */
  function Translate(t: Tables, p: nat): Option<nat> {
    match Entry1(t, Ix1(p))
    case Block(b) => Some(b + p % BIG)
    case Table(l2) => (
      match At(t, l2, Ix2(p))
      case Block(b) => Some(b + Ix3(p))
      case Table(l3) => (match At(t, l3, Ix3(p)) case Leaf(b) => Some(b) case _ => None)
      case _ => None)
    case _ => None
  }

  /* ---- the invariant ---- */

  /** An entry of the L1 table: a block sits at its own address. */
  predicate Ok1(t: Tables, owner: map<nat, Place>, i: nat) {
    match Entry1(t, i)
    case Empty => true
    case Block(b) => b == Num(i, 0, 0)
    case Table(id) => id in owner && owner[id] == L2(i)
    case Leaf(_) => false
  }

  predicate Ok2(owner: map<nat, Place>, e: Entry, i: nat, j: nat) {
    match e
    case Empty => true
    case Block(b) => b == Num(i, j, 0)
    case Table(id) => id in owner && owner[id] == L3(i, j)
    case Leaf(_) => false
  }

  predicate Ok3(e: Entry, i: nat, j: nat, k: nat) {
    e == Empty || e == Leaf(Num(i, j, k))
  }

  /** A table hangs from the one slot its owner names, and its entries are right for that slot. */
  predicate OkTable(t: Tables, owner: map<nat, Place>, id: nat)
    requires id in t && id in owner
  {
    match owner[id]
    case L2(i) => RamSlot(i) && Entry1(t, i) == Table(id) && forall j :: 0 <= j < |t[id]| ==> Ok2(owner, t[id][j], i, j)
    case L3(i, j) =>
      && RamSlot(i) && j < ENTRIES && Entry1(t, i).Table? && At(t, Entry1(t, i).id, j) == Table(id)
      && forall k :: 0 <= k < |t[id]| ==> Ok3(t[id][k], i, j, k)
  }

  ghost predicate Wf(t: Tables, owner: map<nat, Place>, next: nat) {
    && ROOT in t && |t[ROOT]| == ENTRIES && ROOT < next && ROOT !in owner
    && (forall id :: id in owner ==> id in t && |t[id]| == ENTRIES && id < next)
    && (forall i :: RamSlot(i) ==> Ok1(t, owner, i))
    && (forall id :: id in owner ==> id in t && OkTable(t, owner, id))
  }

  predicate Used(s: seq<Entry>) {
    exists j :: 0 <= j < |s| && s[j] != Empty
  }

  /** No table is left without an entry, other than hole. */
  ghost predicate Tidy(t: Tables, owner: map<nat, Place>, hole: Option<nat>) {
    forall id :: id in owner && id in t && hole != Some(id) ==> Used(t[id])
  }

  predicate Mapped(t: Tables, i: nat, j: nat, k: nat) {
    match Entry1(t, i)
    case Block(_) => true
    case Table(l2) => (
      match At(t, l2, j)
      case Block(_) => true
      case Table(l3) => At(t, l3, k).Leaf?
      case _ => false)
    case _ => false
  }

  predicate MappedPage(t: Tables, p: nat) { Mapped(t, Ix1(p), Ix2(p), Ix3(p)) }

  /* ---- page numbers and indices ---- */

  lemma Indices(p: nat)
    ensures Ix2(p) < ENTRIES && Ix3(p) < ENTRIES && p == Num(Ix1(p), Ix2(p), Ix3(p))
    ensures p % BIG == Ix2(p) * ENTRIES + Ix3(p)
  {
  }

  lemma IndicesOf(i: nat, j: nat, k: nat)
    requires j < ENTRIES && k < ENTRIES
    ensures Ix1(Num(i, j, k)) == i && Ix2(Num(i, j, k)) == j && Ix3(Num(i, j, k)) == k
  {
  }

  /** What the tables map they map to itself. */
  lemma Identity(t: Tables, owner: map<nat, Place>, next: nat, p: nat)
    requires Wf(t, owner, next) && RamSlot(Ix1(p))
    ensures Translate(t, p) == if MappedPage(t, p) then Some(p) else None
  {
    Indices(p);
    var i, j, k := Ix1(p), Ix2(p), Ix3(p);
    assert Ok1(t, owner, i);
    if Entry1(t, i).Table? {
      var l2 := Entry1(t, i).id;
      assert OkTable(t, owner, l2) && Ok2(owner, t[l2][j], i, j);
      if t[l2][j].Table? {
        var l3 := t[l2][j].id;
        assert OkTable(t, owner, l3) && Ok3(t[l3][k], i, j, k);
      }
    }
  }

  /* ---- one entry at a time ---- */

  function Zeros(): seq<Entry> { seq(ENTRIES, _ => Empty) }

  /** Mapped for all indices. */
  ghost predicate SameMapped(t: Tables, t': Tables) {
    forall i: nat, j: nat, k: nat :: RamSlot(i) && j < ENTRIES && k < ENTRIES ==> (Mapped(t', i, j, k) <==> Mapped(t, i, j, k))
  }

  function LinkL2(t: Tables, next: nat, i: nat): Tables
    requires ROOT in t && i < |t[ROOT]|
  {
    t[next := Zeros()][ROOT := t[ROOT][i := Table(next)]]
  }

  function Put(t: Tables, id: nat, j: nat, e: Entry): Tables
    requires id in t && j < |t[id]|
  {
    t[id := t[id][j := e]]
  }

  function LinkL3(t: Tables, next: nat, l2: nat, j: nat): Tables
    requires l2 in t && j < |t[l2]| && next != l2
  {
    Put(t[next := Zeros()], l2, j, Table(next))
  }

  lemma LinkL2Wf(t: Tables, owner: map<nat, Place>, next: nat, i: nat)
    requires Wf(t, owner, next) && RamSlot(i) && Entry1(t, i) == Empty
    ensures Wf(LinkL2(t, next, i), owner[next := L2(i)], next + 1)
  {
    var t', o' := LinkL2(t, next, i), owner[next := L2(i)];
    assert forall i' :: i' != i ==> Entry1(t', i') == Entry1(t, i');
    forall id | id in o' ensures OkTable(t', o', id) {
      if id != next { assert OkTable(t, owner, id) && t'[id] == t[id]; }
    }
  }

  lemma LinkL2Same(t: Tables, owner: map<nat, Place>, next: nat, i: nat)
    requires Wf(t, owner, next) && RamSlot(i) && Entry1(t, i) == Empty
    ensures SameMapped(t, LinkL2(t, next, i))
    ensures Tidy(t, owner, None) ==> Tidy(LinkL2(t, next, i), owner[next := L2(i)], Some(next))
  {
    var t' := LinkL2(t, next, i);
    forall i': nat, j: nat, k: nat | RamSlot(i') && j < ENTRIES && k < ENTRIES ensures Mapped(t', i', j, k) <==> Mapped(t, i', j, k) {
      OwnEntries(t, owner, next, i', j);
    }
  }

  /** The tables a walk meets below RAM slot i are owned, so they are not fresh ones. */
  lemma OwnEntries(t: Tables, owner: map<nat, Place>, next: nat, i: nat, j: nat)
    requires Wf(t, owner, next) && RamSlot(i) && j < ENTRIES
    ensures Entry1(t, i).Table? ==> Entry1(t, i).id in owner && owner[Entry1(t, i).id] == L2(i) && Entry1(t, i).id < next
    ensures Entry1(t, i).Table? ==> Ok2(owner, At(t, Entry1(t, i).id, j), i, j)
    ensures Entry1(t, i).Table? && At(t, Entry1(t, i).id, j).Table? ==> At(t, Entry1(t, i).id, j).id < next
  {
    assert Ok1(t, owner, i);
    if Entry1(t, i).Table? {
      var l2 := Entry1(t, i).id;
      assert OkTable(t, owner, l2) && Ok2(owner, t[l2][j], i, j);
    }
  }

  lemma LinkL3Wf(t: Tables, owner: map<nat, Place>, next: nat, l2: nat, i: nat, j: nat)
    requires Wf(t, owner, next) && l2 in owner && owner[l2] == L2(i) && j < ENTRIES && At(t, l2, j) == Empty
    ensures l2 != next && l2 in t && Wf(LinkL3(t, next, l2, j), owner[next := L3(i, j)], next + 1)
  {
    var t', o' := LinkL3(t, next, l2, j), owner[next := L3(i, j)];
    assert OkTable(t, owner, l2);
    assert forall i' :: Entry1(t', i') == Entry1(t, i');
    forall i' | RamSlot(i') ensures Ok1(t', o', i') { assert Ok1(t, owner, i'); }
    forall id | id in o' ensures OkTable(t', o', id) {
      if id != next {
        assert OkTable(t, owner, id);
        if owner[id].L3? { OwnEntries(t, owner, next, owner[id].i, owner[id].j); }
      }
    }
  }

  lemma LinkL3Same(t: Tables, owner: map<nat, Place>, next: nat, l2: nat, i: nat, j: nat, hole: Option<nat>)
    requires Wf(t, owner, next) && l2 in owner && owner[l2] == L2(i) && j < ENTRIES && At(t, l2, j) == Empty
    requires Tidy(t, owner, hole) && (hole.None? || hole == Some(l2))
    ensures l2 != next && l2 in t && SameMapped(t, LinkL3(t, next, l2, j))
    ensures Tidy(LinkL3(t, next, l2, j), owner[next := L3(i, j)], Some(next))
  {
    var t', o' := LinkL3(t, next, l2, j), owner[next := L3(i, j)];
    forall i': nat, j': nat, k: nat | RamSlot(i') && j' < ENTRIES && k < ENTRIES ensures Mapped(t', i', j', k) <==> Mapped(t, i', j', k) {
      OwnEntries(t, owner, next, i', j');
      assert Entry1(t', i') == Entry1(t, i');
    }
    forall id | id in o' && id in t' && id != next ensures Used(t'[id]) {
      if id == l2 { assert t'[id][j] != Empty; }
    }
  }

  lemma PutLeafWf(t: Tables, owner: map<nat, Place>, next: nat, l3: nat, i: nat, j: nat, k: nat)
    requires Wf(t, owner, next) && l3 in owner && owner[l3] == L3(i, j) && k < ENTRIES
    ensures l3 in t && k < |t[l3]| && Wf(Put(t, l3, k, Leaf(Num(i, j, k))), owner, next)
  {
    var t' := Put(t, l3, k, Leaf(Num(i, j, k)));
    assert OkTable(t, owner, l3);
    assert forall i' :: Entry1(t', i') == Entry1(t, i');
    forall i' | RamSlot(i') ensures Ok1(t', owner, i') { assert Ok1(t, owner, i'); }
    forall id | id in owner ensures OkTable(t', owner, id) {
      assert OkTable(t, owner, id);
      if owner[id].L3? { OwnEntries(t, owner, next, owner[id].i, owner[id].j); }
    }
  }

  lemma PutLeafMaps(t: Tables, owner: map<nat, Place>, next: nat, l3: nat, i: nat, j: nat, k: nat, hole: Option<nat>)
    requires Wf(t, owner, next) && l3 in owner && owner[l3] == L3(i, j) && k < ENTRIES
    requires Tidy(t, owner, hole) && (hole.None? || hole == Some(l3))
    ensures l3 in t && k < |t[l3]| && Tidy(Put(t, l3, k, Leaf(Num(i, j, k))), owner, None)
    ensures forall i': nat, j': nat, k': nat :: RamSlot(i') && j' < ENTRIES && k' < ENTRIES ==>
              (Mapped(Put(t, l3, k, Leaf(Num(i, j, k))), i', j', k') <==> Mapped(t, i', j', k') || (i' == i && j' == j && k' == k))
  {
    var t' := Put(t, l3, k, Leaf(Num(i, j, k)));
    assert OkTable(t, owner, l3);
    forall i': nat, j': nat, k': nat | RamSlot(i') && j' < ENTRIES && k' < ENTRIES
      ensures Mapped(t', i', j', k') <==> Mapped(t, i', j', k') || (i' == i && j' == j && k' == k)
    {
      OwnEntries(t, owner, next, i', j');
      assert Entry1(t', i') == Entry1(t, i');
    }
    forall id | id in owner && id in t' ensures Used(t'[id]) {
      if id == l3 { assert t'[id][k] != Empty; }
    }
  }

  lemma PutBlockWf(t: Tables, owner: map<nat, Place>, next: nat, l2: nat, i: nat, j: nat)
    requires Wf(t, owner, next) && l2 in owner && owner[l2] == L2(i) && j < ENTRIES && At(t, l2, j) == Empty
    ensures l2 in t && Wf(Put(t, l2, j, Block(Num(i, j, 0))), owner, next)
  {
    var t' := Put(t, l2, j, Block(Num(i, j, 0)));
    assert OkTable(t, owner, l2);
    assert forall i' :: Entry1(t', i') == Entry1(t, i');
    forall i' | RamSlot(i') ensures Ok1(t', owner, i') { assert Ok1(t, owner, i'); }
    forall id | id in owner ensures OkTable(t', owner, id) {
      assert OkTable(t, owner, id);
      if owner[id].L3? { OwnEntries(t, owner, next, owner[id].i, owner[id].j); }
    }
  }

  lemma PutBlockMaps(t: Tables, owner: map<nat, Place>, next: nat, l2: nat, i: nat, j: nat, hole: Option<nat>)
    requires Wf(t, owner, next) && l2 in owner && owner[l2] == L2(i) && j < ENTRIES && At(t, l2, j) == Empty
    requires Tidy(t, owner, hole) && (hole.None? || hole == Some(l2))
    ensures l2 in t && Tidy(Put(t, l2, j, Block(Num(i, j, 0))), owner, None)
    ensures forall i': nat, j': nat, k': nat :: RamSlot(i') && j' < ENTRIES && k' < ENTRIES ==>
              (Mapped(Put(t, l2, j, Block(Num(i, j, 0))), i', j', k') <==> Mapped(t, i', j', k') || (i' == i && j' == j))
  {
    var t' := Put(t, l2, j, Block(Num(i, j, 0)));
    assert OkTable(t, owner, l2);
    forall i': nat, j': nat, k': nat | RamSlot(i') && j' < ENTRIES && k' < ENTRIES
      ensures Mapped(t', i', j', k') <==> Mapped(t, i', j', k') || (i' == i && j' == j)
    {
      OwnEntries(t, owner, next, i', j');
      assert Entry1(t', i') == Entry1(t, i');
    }
    forall id | id in owner && id in t' ensures Used(t'[id]) {
      if id == l2 { assert t'[id][j] != Empty; }
    }
  }

  lemma PutBigWf(t: Tables, owner: map<nat, Place>, next: nat, i: nat)
    requires Wf(t, owner, next) && RamSlot(i) && Entry1(t, i) == Empty
    ensures Wf(Put(t, ROOT, i, Block(Num(i, 0, 0))), owner, next)
  {
    var t' := Put(t, ROOT, i, Block(Num(i, 0, 0)));
    assert forall i' :: i' != i ==> Entry1(t', i') == Entry1(t, i');
    forall id | id in owner ensures OkTable(t', owner, id) { assert OkTable(t, owner, id) && t'[id] == t[id]; }
  }

  lemma PutBigMaps(t: Tables, owner: map<nat, Place>, next: nat, i: nat)
    requires Wf(t, owner, next) && RamSlot(i) && Entry1(t, i) == Empty && Tidy(t, owner, None)
    ensures Tidy(Put(t, ROOT, i, Block(Num(i, 0, 0))), owner, None)
    ensures forall i': nat, j': nat, k': nat :: RamSlot(i') && j' < ENTRIES && k' < ENTRIES ==>
              (Mapped(Put(t, ROOT, i, Block(Num(i, 0, 0))), i', j', k') <==> Mapped(t, i', j', k') || i' == i)
  {
    var t' := Put(t, ROOT, i, Block(Num(i, 0, 0)));
    forall i': nat, j': nat, k': nat | RamSlot(i') && j' < ENTRIES && k' < ENTRIES
      ensures Mapped(t', i', j', k') <==> Mapped(t, i', j', k') || i' == i
    {
      OwnEntries(t, owner, next, i', j');
    }
  }

  /* ---- an unmapped stretch has no entry at its level ---- */

  /** With tables tidy but for an L2 table, an L2 slot none of whose pages is mapped is empty. */
  lemma Vacant2(t: Tables, owner: map<nat, Place>, next: nat, l2: nat, i: nat, j: nat, hole: Option<nat>)
    requires Wf(t, owner, next) && l2 in owner && owner[l2] == L2(i) && j < ENTRIES
    requires Tidy(t, owner, hole) && (hole.None? || hole == Some(l2))
    requires forall k: nat :: k < ENTRIES ==> !Mapped(t, i, j, k)
    ensures At(t, l2, j) == Empty
  {
    assert OkTable(t, owner, l2);
    OwnEntries(t, owner, next, i, j);
    assert !Mapped(t, i, j, 0);
    if At(t, l2, j).Table? { UsedLeaf(t, owner, next, At(t, l2, j).id, i, j); }
  }

  lemma UsedLeaf(t: Tables, owner: map<nat, Place>, next: nat, l3: nat, i: nat, j: nat)
    requires Wf(t, owner, next) && l3 in owner && owner[l3] == L3(i, j) && l3 in t && Used(t[l3])
    ensures exists k: nat :: k < ENTRIES && Mapped(t, i, j, k)
  {
    assert OkTable(t, owner, l3);
    var k :| 0 <= k < |t[l3]| && t[l3][k] != Empty;
    assert Ok3(t[l3][k], i, j, k);
    assert Mapped(t, i, j, k);
  }

  lemma Vacant1(t: Tables, owner: map<nat, Place>, next: nat, i: nat)
    requires Wf(t, owner, next) && RamSlot(i) && Tidy(t, owner, None)
    requires forall j: nat, k: nat :: j < ENTRIES && k < ENTRIES ==> !Mapped(t, i, j, k)
    ensures Entry1(t, i) == Empty
  {
    assert Ok1(t, owner, i) && !Mapped(t, i, 0, 0);
    if Entry1(t, i).Table? {
      var l2 := Entry1(t, i).id;
      assert OkTable(t, owner, l2);
      var j :| 0 <= j < |t[l2]| && t[l2][j] != Empty;
      Vacant2(t, owner, next, l2, i, j, None);
    }
  }

  lemma NotBlock(t: Tables, owner: map<nat, Place>, next: nat, i: nat, j: nat, k: nat)
    requires Wf(t, owner, next) && RamSlot(i) && j < ENTRIES && !Mapped(t, i, j, k)
    ensures Entry1(t, i).Empty? || Entry1(t, i).Table?
    ensures Entry1(t, i).Table? ==> At(t, Entry1(t, i).id, j).Empty? || At(t, Entry1(t, i).id, j).Table?
  {
    assert Ok1(t, owner, i);
    OwnEntries(t, owner, next, i, j);
  }

  /* ---- from indices to page numbers ---- */

  /** Exactly [lo, hi) was added to what RAM slots map. */
  ghost predicate Grows(t: Tables, t': Tables, lo: nat, hi: nat) {
    forall q: nat :: RamSlot(Ix1(q)) ==> (MappedPage(t', q) <==> MappedPage(t, q) || lo <= q < hi)
  }

  /** No entry in use was overwritten. */
  ghost predicate Keeps(t: Tables, t': Tables, owner: map<nat, Place>) {
    forall id, j: nat :: (id == ROOT || id in owner) && At(t, id, j) != Empty ==> At(t', id, j) == At(t, id, j)
  }

  lemma GrowsTrans(t: Tables, t': Tables, t'': Tables, lo: nat, mid: nat, hi: nat)
    requires Grows(t, t', lo, mid) && Grows(t', t'', mid, hi) && lo <= mid <= hi
    ensures Grows(t, t'', lo, hi)
  {
    hide MappedPage, RamSlot;
  }

  lemma KeepsTrans(t: Tables, t': Tables, t'': Tables, owner: map<nat, Place>, owner': map<nat, Place>)
    requires Keeps(t, t', owner) && Keeps(t', t'', owner') && owner.Keys <= owner'.Keys
    ensures Keeps(t, t'', owner)
  {
    hide At;
  }

  lemma SameGrows(t: Tables, t': Tables)
    requires SameMapped(t, t')
    ensures forall p: nat :: Grows(t, t', p, p)
  {
    hide Mapped, RamSlot;
    forall q: nat | RamSlot(Ix1(q)) ensures MappedPage(t', q) <==> MappedPage(t, q) { Indices(q); }
  }

  lemma LeafRange(p: nat, q: nat)
    ensures q == p <==> Ix1(q) == Ix1(p) && Ix2(q) == Ix2(p) && Ix3(q) == Ix3(p)
  {
    Indices(p);
    Indices(q);
  }

  lemma BlockRange(p: nat, q: nat)
    requires p % ENTRIES == 0
    ensures p <= q < p + ENTRIES <==> Ix1(q) == Ix1(p) && Ix2(q) == Ix2(p)
  {
    hide Ix1, Ix2;
    Indices(p);
    Indices(q);
    Pieces(Ix1(p), Ix2(p), Ix1(q), Ix2(q), Ix3(q));
  }

  lemma Pieces(i: nat, j: nat, i': nat, j': nat, k': nat)
    requires j < ENTRIES && j' < ENTRIES && k' < ENTRIES
    ensures Num(i, j, 0) <= Num(i', j', k') < Num(i, j, 0) + ENTRIES <==> i' == i && j' == j
  {
  }

  lemma BigRange(p: nat, q: nat)
    requires p % BIG == 0
    ensures p <= q < p + BIG <==> Ix1(q) == Ix1(p)
  {
  }

  class KernelMap {
    var tables: Tables
    var next: nat                      // boot_freemem
    ghost var owner: map<nat, Place>

    ghost predicate Valid()
      reads this
    {
      Wf(tables, owner, next) && Tidy(tables, owner, None)
    }

    /** kvminit's fixed entries: a device table in slot 0, the kernel-stack table in the last slot. */
    constructor (device: nat, kstack: nat)
      ensures Valid() && forall p: nat :: RamSlot(Ix1(p)) ==> !MappedPage(tables, p)
    {
      tables := map[ROOT := Zeros()[0 := Table(device)][KSTACK_WINDOW_L1 := Table(kstack)]];
      next := 1;
      owner := map[];
      new;
      assert forall i :: RamSlot(i) ==> Entry1(tables, i) == Empty;
    }

    /** dmap_l2; the slots whose panic it guards are excluded by the caller. */
    method DmapL2(p: nat) returns (l2: nat, ghost hole: Option<nat>)
      requires Valid() && RamSlot(Ix1(p)) && !Entry1(tables, Ix1(p)).Block?
      modifies this
      ensures Wf(tables, owner, next) && Tidy(tables, owner, hole) && (hole.None? || hole == Some(l2))
      ensures l2 in owner && owner[l2] == L2(Ix1(p)) && SameMapped(old(tables), tables)
      ensures Keeps(old(tables), tables, old(owner)) && old(owner).Keys <= owner.Keys
    {
      hide Wf, Tidy, SameMapped, Keeps;
      var i := Ix1(p);
      hole := None;
      SlotKnown(tables, owner, next, i);
      SameSelf(tables, owner);
      if tables[ROOT][i] == Empty {
        LinkL2Wf(tables, owner, next, i);
        LinkL2Same(tables, owner, next, i);
        LinkL2Keeps(tables, owner, next, i);
        tables := LinkL2(tables, next, i);
        owner := owner[next := L2(i)];
        hole := Some(next);
        next := next + 1;
        SlotKnown(tables, owner, next, i);
      }
      l2 := tables[ROOT][i].id;
    }

    /** dmap_page */
    method DmapPage(p: nat)
      requires Valid() && RamSlot(Ix1(p)) && !MappedPage(tables, p)
      modifies this
      ensures Valid() && Grows(old(tables), tables, p, p + 1)
      ensures Keeps(old(tables), tables, old(owner)) && old(owner).Keys <= owner.Keys
    {
      hide Wf, Tidy, SameMapped, Keeps, Mapped, Grows, Ix1, Ix2, Ix3;
      var i, j, k := Ix1(p), Ix2(p), Ix3(p);
      Indices(p);
      NotBlock(tables, owner, next, i, j, k);
      var l2; ghost var hole;
      l2, hole := DmapL2(p);
      ghost var t1, o1 := tables, owner;
      StillUnmapped(old(tables), t1, i, j, k);
      TableKnown(tables, owner, next, l2, i, j);
      NotBlock(tables, owner, next, i, j, k);
      if tables[l2][j] == Empty {
        LinkL3Wf(tables, owner, next, l2, i, j);
        LinkL3Same(tables, owner, next, l2, i, j, hole);
        LinkL3Keeps(tables, owner, next, l2, i, j);
        tables := LinkL3(tables, next, l2, j);
        owner := owner[next := L3(i, j)];
        hole := Some(next);
        next := next + 1;
        TableKnown(tables, owner, next, l2, i, j);
      } else {
        SameSelf(tables, owner);
        HoleFilled(tables, owner, l2, j, hole);
        hole := None;
      }
      ghost var t2, o2 := tables, owner;
      StillUnmapped(t1, t2, i, j, k);
      var l3 := tables[l2][j].id;
      LeafKnown(tables, owner, next, l2, l3, i, j, k);
      PutLeafWf(tables, owner, next, l3, i, j, k);
      PutLeafMaps(tables, owner, next, l3, i, j, k, hole);
      PutKeeps(tables, owner, l3, k, Leaf(p));
      tables := Put(tables, l3, k, Leaf(p));
      LeafGrows(old(tables), t1, t2, tables, p);
      KeepsTrans(t1, t2, tables, o1, o2);
      KeepsTrans(old(tables), t1, tables, old(owner), o1);
    }

    /** dmap_block_2m */
    method DmapBlock2m(p: nat)
      requires Valid() && RamSlot(Ix1(p)) && p % ENTRIES == 0 && forall q: nat :: p <= q < p + ENTRIES ==> !MappedPage(tables, q)
      modifies this
      ensures Valid() && Grows(old(tables), tables, p, p + ENTRIES) && BlockAt(tables, p)
      ensures Keeps(old(tables), tables, old(owner)) && old(owner).Keys <= owner.Keys
    {
      hide Wf, Tidy, SameMapped, Keeps, Mapped, Grows, Ix1, Ix2, Ix3;
      var i, j := Ix1(p), Ix2(p);
      Indices(p);
      UnmappedSlot2(tables, p);
      NotBlock(tables, owner, next, i, j, 0);
      var l2; ghost var hole;
      l2, hole := DmapL2(p);
      ghost var t1, o1 := tables, owner;
      forall k: nat | k < ENTRIES ensures !Mapped(t1, i, j, k) { StillUnmapped(old(tables), t1, i, j, k); }
      TableKnown(tables, owner, next, l2, i, j);
      Vacant2(tables, owner, next, l2, i, j, hole);
      PutBlockWf(tables, owner, next, l2, i, j);
      PutBlockMaps(tables, owner, next, l2, i, j, hole);
      PutKeeps(tables, owner, l2, j, Block(p));
      tables := Put(tables, l2, j, Block(p));
      TableKnown(tables, owner, next, l2, i, j);
      BlockGrows(old(tables), t1, tables, p);
      KeepsTrans(old(tables), t1, tables, old(owner), o1);
    }

    /** dmap_block_1g */
    method DmapBlock1g(p: nat)
      requires Valid() && RamSlot(Ix1(p)) && p % BIG == 0 && forall q: nat :: p <= q < p + BIG ==> !MappedPage(tables, q)
      modifies this
      ensures Valid() && Grows(old(tables), tables, p, p + BIG) && BigAt(tables, p)
      ensures Keeps(old(tables), tables, old(owner)) && owner == old(owner)
    {
      hide Wf, Tidy, SameMapped, Keeps, Mapped, Grows, Ix1, Ix2, Ix3;
      var i := Ix1(p);
      Indices(p);
      UnmappedSlot1(tables, p);
      Vacant1(tables, owner, next, i);
      SlotKnown(tables, owner, next, i);
      PutBigWf(tables, owner, next, i);
      PutBigMaps(tables, owner, next, i);
      BigNum(p);
      PutKeeps(tables, owner, ROOT, i, Block(p));
      tables := Put(tables, ROOT, i, Block(p));
      BigGrows(old(tables), tables, p);
    }

    /** Progress of dmap_bank: [start, p) is mapped, with the largest blocks, and the rest of the bank is not. */
    ghost predicate Reached(t: Tables, o: map<nat, Place>, start: nat, p: nat, end: nat)
      reads this
    {
      && Valid() && start <= p <= end && Grows(t, tables, start, p) && Tiled(tables, start, p, end)
      && Keeps(t, tables, o) && o.Keys <= owner.Keys
    }

    /** The loops over pages: up to the first 2 MB boundary, or the rest of the bank when less than 2 MB is left. */
    method PagesTo(ghost t: Tables, ghost o: map<nat, Place>, ghost start: nat, p: nat, end: nat, toBlock: bool) returns (p': nat)
      requires Reached(t, o, start, p, end) && Bankable(t, start, end)
      requires if toBlock then p == start else p == end || (Ix3(p) == 0 && p + ENTRIES > end)
      modifies this
      ensures Reached(t, o, start, p', end) && (p' == end || (toBlock && p' % ENTRIES == 0))
      ensures toBlock ==> forall q: nat :: start <= q < p' ==> Ix3(q) != 0
    {
      hide Valid, Grows, Keeps, MappedPage, RamSlot, Tiled;
      p' := p;
      while p' < end && !(toBlock && p' % ENTRIES == 0)
        invariant Reached(t, o, start, p', end) && p <= p'
        invariant toBlock ==> forall q: nat :: start <= q < p' ==> Ix3(q) != 0
        decreases end - p'
      {
        RestUnmapped(t, tables, start, p', end);
        ghost var t1, o1, n1 := tables, owner, next;
        ValidWf();
        if toBlock { NoBlockEnds(start, p'); } else { NoBlockLeft(p, p', end); }
        DmapPage(p');
        TiledKept(t1, tables, o1, n1, start, p', end);
        TiledPage(tables, start, p', end);
        GrowsTrans(t, t1, tables, start, p', p' + 1);
        KeepsTrans(t, t1, tables, o, o1);
        p' := p' + 1;
      }
    }

    /** The loops over 2 MB blocks: up to the first 1 GB boundary, or until less than 2 MB is left. */
    method BlocksTo(ghost t: Tables, ghost o: map<nat, Place>, ghost start: nat, p: nat, end: nat, toBig: bool) returns (p': nat)
      requires Reached(t, o, start, p, end) && Bankable(t, start, end) && (p == end || p % ENTRIES == 0)
      requires if toBig then forall q: nat :: start <= q < p ==> Off1(q) != 0 else p + ENTRIES > end || (Off1(p) == 0 && p + BIG > end)
      modifies this
      ensures Reached(t, o, start, p', end) && (p' == end || p' % ENTRIES == 0) && (p' + ENTRIES > end || (toBig && p' % BIG == 0))
    {
      hide Valid, Grows, Keeps, MappedPage, RamSlot, Tiled;
      p' := p;
      while p' + ENTRIES <= end && !(toBig && p' % BIG == 0)
        invariant Reached(t, o, start, p', end) && (p' == end || p' % ENTRIES == 0) && p <= p'
        invariant toBig ==> forall q: nat :: start <= q < p' ==> Off1(q) != 0
        decreases end - p'
      {
        RestUnmapped(t, tables, start, p', end);
        ghost var t1, o1, n1 := tables, owner, next;
        ValidWf();
        if toBig { NoBigEnds(start, p'); } else { NoBigLeft(p, p', end); }
        DmapBlock2m(p');
        BlockStep(p');
        TiledKept(t1, tables, o1, n1, start, p', end);
        TiledBlock(tables, start, p', end);
        GrowsTrans(t, t1, tables, start, p', p' + ENTRIES);
        KeepsTrans(t, t1, tables, o, o1);
        p' := p' + ENTRIES;
      }
    }

    /** The loop over 1 GB blocks. */
    method BigsTo(ghost t: Tables, ghost o: map<nat, Place>, ghost start: nat, p: nat, end: nat) returns (p': nat)
      requires Reached(t, o, start, p, end) && Bankable(t, start, end) && (p == end || p % ENTRIES == 0) && (p + ENTRIES > end || p % BIG == 0)
      modifies this
      ensures Reached(t, o, start, p', end) && (p' == end || p' % ENTRIES == 0)
      ensures p' + ENTRIES > end || (Off1(p') == 0 && p' + BIG > end)
    {
      hide Valid, Grows, Keeps, MappedPage, RamSlot, Tiled;
      p' := p;
      while p' + BIG <= end
        invariant Reached(t, o, start, p', end) && (p' == end || p' % ENTRIES == 0) && (p' + ENTRIES > end || p' % BIG == 0)
        decreases end - p'
      {
        RestUnmapped(t, tables, start, p', end);
        ghost var t1, o1, n1 := tables, owner, next;
        ValidWf();
        DmapBlock1g(p');
        BigStep(p');
        TiledKept(t1, tables, o1, n1, start, p', end);
        TiledBig(tables, start, p', end);
        GrowsTrans(t, t1, tables, start, p', p' + BIG);
        KeepsTrans(t, t1, tables, o, o1);
        p' := p' + BIG;
      }
    }

    lemma ValidWf()
      requires Valid()
      ensures Wf(tables, owner, next)
    {
    }

    /** dmap_bank; false is a panic. */
    method DmapBank(start: nat, end: nat) returns (ok: bool)
      requires Valid() && start <= end && forall q: nat :: start <= q < end && RamSlot(Ix1(q)) ==> !MappedPage(tables, q)
      modifies this
      ensures Valid() && (ok <==> BIG <= start && end <= KSTACK_WINDOW_L1 * BIG)
      ensures Grows(old(tables), tables, start, if ok then end else start)
      ensures ok ==> Tiled(tables, start, end, end)
      ensures Keeps(old(tables), tables, old(owner)) && old(owner).Keys <= owner.Keys
    {
      hide Valid, Grows, Keeps, MappedPage, RamSlot, SameMapped, Tiled;
      SameSelf(tables, owner);
      SameGrows(tables, tables);
      if start < BIG { return false; }
      if end > KSTACK_WINDOW_L1 * BIG { return false; }
      ghost var t, o := tables, owner;
      InRam(t, start, end);
      TiledNone(t, start, end);
      var p := PagesTo(t, o, start, start, end, true);
      NoBigYet(start, p);
      p := BlocksTo(t, o, start, p, end, true);
      p := BigsTo(t, o, start, p, end);
      p := BlocksTo(t, o, start, p, end, false);
      p := PagesTo(t, o, start, p, end, false);
      ok := true;
    }

    /** kvminit's loop over the banks: every page of every bank translates to itself, and nothing else does. */
    method DmapBanks(banks: seq<Region>) returns (ok: bool)
      requires Valid() && Disjoint(banks) && forall p: nat :: RamSlot(Ix1(p)) ==> !MappedPage(tables, p)
      modifies this
      ensures Valid() && (ok <==> forall b :: 0 <= b < |banks| ==> BIG <= banks[b].addr && banks[b].End() <= KSTACK_WINDOW_L1 * BIG)
      ensures ok ==> forall p: nat :: RamSlot(Ix1(p)) ==> Translate(tables, p) == if Covers(banks, p) then Some(p) else None
      ensures ok ==> forall b :: 0 <= b < |banks| ==> Tiled(tables, banks[b].addr, banks[b].End(), banks[b].End())
    {
      hide Valid, Grows, Keeps, MappedPage, RamSlot, Disjoint, Covers, Translate, Tiled, Wf;
      NoBanks(banks);
      for b := 0 to |banks|
        invariant Valid() && MapsExactly(tables, banks[..b])
        invariant forall c :: 0 <= c < b ==> BIG <= banks[c].addr && banks[c].End() <= KSTACK_WINDOW_L1 * BIG
        invariant forall c :: 0 <= c < b ==> Tiled(tables, banks[c].addr, banks[c].End(), banks[c].End())
      {
        ghost var t, o, n := tables, owner, next;
        ValidWf();
        NextBank(banks, b, t);
        var r := DmapBank(banks[b].addr, banks[b].End());
        if !r { return false; }
        forall c | 0 <= c < b ensures Tiled(tables, banks[c].addr, banks[c].End(), banks[c].End()) {
          SlotsOf(banks[c].addr, banks[c].End());
          TiledKept(t, tables, o, n, banks[c].addr, banks[c].End(), banks[c].End());
        }
        AddBank(banks, b, t, tables);
      }
      assert banks[..|banks|] == banks;
      ok := true;
      Translates(banks);
    }

    lemma Translates(banks: seq<Region>)
      requires Valid() && MapsExactly(tables, banks)
      ensures forall p: nat :: RamSlot(Ix1(p)) ==> Translate(tables, p) == if Covers(banks, p) then Some(p) else None
    {
      forall p: nat | RamSlot(Ix1(p)) ensures Translate(tables, p) == if Covers(banks, p) then Some(p) else None {
        Identity(tables, owner, next, p);
      }
    }
  }

  /* ---- the largest blocks ---- */

  function Off1(p: nat): nat { p % BIG }

  /** The 2 MB from page a on are one block. */
  predicate BlockAt(t: Tables, a: nat) {
    Entry1(t, Ix1(a)).Table? && At(t, Entry1(t, Ix1(a)).id, Ix2(a)).Block?
  }

  /** The 1 GB from page a on are one block. */
  predicate BigAt(t: Tables, a: nat) {
    Entry1(t, Ix1(a)).Block?
  }

  /** The aligned 1 GB around a lies inside the bank. */
  predicate InWhole(a: nat, start: nat, end: nat) {
    start <= a - Off1(a) && a - Off1(a) + BIG <= end
  }

  /** Up to p, every aligned 1 GB of the bank is one block, and outside those every aligned 2 MB of it is. */
  ghost predicate Tiled(t: Tables, start: nat, p: nat, end: nat) {
    && (forall a: nat :: Off1(a) == 0 && start <= a && a + BIG <= p ==> BigAt(t, a))
    && (forall a: nat :: Ix3(a) == 0 && start <= a && a + ENTRIES <= p && !InWhole(a, start, end) ==> BlockAt(t, a))
  }

  ghost predicate InSlots(start: nat, end: nat) {
    forall q: nat :: start <= q < end ==> RamSlot(Ix1(q))
  }

  lemma TiledNone(t: Tables, start: nat, end: nat)
    ensures Tiled(t, start, start, end)
  {
  }

  lemma TiledKept(t: Tables, t': Tables, owner: map<nat, Place>, next: nat, start: nat, p: nat, end: nat)
    requires Wf(t, owner, next) && Keeps(t, t', owner) && Tiled(t, start, p, end) && InSlots(start, end) && p <= end
    ensures Tiled(t', start, p, end)
  {
    hide Wf, Keeps, Ix1, Ix2, MappedPage;
    forall a: nat | Off1(a) == 0 && start <= a && a + BIG <= p ensures BigAt(t', a) {
      KeptEntry(t, t', owner, next, a);
    }
    forall a: nat | Ix3(a) == 0 && start <= a && a + ENTRIES <= p && !InWhole(a, start, end) ensures BlockAt(t', a) {
      KeptEntry(t, t', owner, next, a);
    }
  }

  lemma KeptEntry(t: Tables, t': Tables, owner: map<nat, Place>, next: nat, a: nat)
    requires Wf(t, owner, next) && Keeps(t, t', owner) && RamSlot(Ix1(a))
    ensures BigAt(t, a) ==> BigAt(t', a)
    ensures BlockAt(t, a) ==> BlockAt(t', a)
  {
    var i := Ix1(a);
    assert Ok1(t, owner, i);
    assert At(t, ROOT, i) == Entry1(t, i) && At(t', ROOT, i) == Entry1(t', i);
  }

  lemma TiledPage(t: Tables, start: nat, p: nat, end: nat)
    requires Tiled(t, start, p, end) && (Ix3(p + 1) != 0 || p + 1 < start + ENTRIES)
    ensures Tiled(t, start, p + 1, end)
  {
    hide BlockAt, BigAt, InWhole;
    forall a: nat | Ix3(a) == 0 && start <= a && a + ENTRIES <= p + 1 ensures a + ENTRIES <= p { AddBlock(a); }
    forall a: nat | Off1(a) == 0 && start <= a && a + BIG <= p + 1 ensures a + BIG <= p { AddBig(a); }
  }

  lemma AddBlock(a: nat)
    ensures Ix3(a + ENTRIES) == Ix3(a)
  {
  }

  lemma AddBig(a: nat)
    ensures Off1(a) == 0 ==> Ix3(a) == 0 && Ix3(a + BIG) == 0 && Off1(a + BIG) == 0
  {
    BigIsBlocks(a);
    BigIsBlocks(a + BIG);
  }

  lemma BigIsBlocks(a: nat)
    ensures Off1(a) == 0 ==> Ix3(a) == 0
  {
    Indices(a);
  }

  /** Multiples of 2 MB are 2 MB apart. */
  lemma Apart(a: nat, b: nat)
    requires Ix3(a) == 0 && Ix3(b) == 0 && a < b
    ensures a + ENTRIES <= b
  {
  }

  lemma BigApart(a: nat, b: nat)
    requires Off1(a) == 0 && Off1(b) == 0 && a < b
    ensures a + BIG <= b
  {
  }

  lemma TiledBlock(t: Tables, start: nat, p: nat, end: nat)
    requires Tiled(t, start, p, end) && Ix3(p) == 0 && BlockAt(t, p) && (Off1(p + ENTRIES) != 0 || p + ENTRIES < start + BIG)
    ensures Tiled(t, start, p + ENTRIES, end)
  {
    hide BlockAt, BigAt, InWhole, Ix3, Off1;
    forall a: nat | Ix3(a) == 0 && start <= a && a + ENTRIES <= p + ENTRIES ensures a + ENTRIES <= p || a == p {
      if a < p { Apart(a, p); }
    }
    forall a: nat | Off1(a) == 0 && start <= a && a + BIG <= p + ENTRIES ensures a + BIG <= p {
      AddBig(a);
      AddBlock(p);
      if p < a + BIG { Apart(p, a + BIG); }
    }
  }

  lemma TiledBig(t: Tables, start: nat, p: nat, end: nat)
    requires Tiled(t, start, p, end) && Off1(p) == 0 && BigAt(t, p) && start <= p && p + BIG <= end
    ensures Tiled(t, start, p + BIG, end)
  {
    hide BlockAt, BigAt, Ix3, Off1;
    AddBig(p);
    forall a: nat | Off1(a) == 0 && start <= a && a + BIG <= p + BIG ensures a + BIG <= p || a == p {
      if a < p { BigApart(a, p); }
    }
    forall a: nat | Ix3(a) == 0 && start <= a && a + ENTRIES <= p + BIG ensures a + ENTRIES <= p || InWhole(a, start, end) {
      if a < p { Apart(a, p); } else { WithinBig(p, a); }
    }
  }

  lemma WithinBig(p: nat, a: nat)
    requires Off1(p) == 0 && p <= a < p + BIG
    ensures a - Off1(a) == p
  {
  }

  /** No block can end in the pages before the first boundary ... */
  lemma NoBlockEnds(start: nat, p: nat)
    requires forall q: nat :: start <= q < p ==> Ix3(q) != 0
    requires start <= p && Ix3(p) != 0
    ensures Ix3(p + 1) != 0 || p + 1 < start + ENTRIES
  {
    hide Ix3;
    if p + 1 >= start + ENTRIES {
      var q := p + 1 - ENTRIES;
      assert Ix3(q) != 0;
      AddBlock(q);
    }
  }

  /** ... nor in less than 2 MB after one. */
  lemma NoBlockLeft(p0: nat, p: nat, end: nat)
    requires Ix3(p0) == 0 && p0 + ENTRIES > end && p0 <= p < end
    ensures Ix3(p + 1) != 0
  {
    hide Ix3;
    if Ix3(p + 1) == 0 { Apart(p0, p + 1); }
  }

  lemma NoBigEnds(start: nat, p: nat)
    requires forall q: nat :: start <= q < p ==> Off1(q) != 0
    requires start <= p && Ix3(p) == 0 && Off1(p) != 0
    ensures Off1(p + ENTRIES) != 0 || p + ENTRIES < start + BIG
    ensures forall q: nat :: start <= q < p + ENTRIES ==> Off1(q) != 0
  {
    hide Off1, Ix3;
    if p + ENTRIES >= start + BIG {
      var q := p + ENTRIES - BIG;
      assert Off1(q) != 0;
      SubBig(q);
    }
    forall q: nat | p < q < p + ENTRIES ensures Off1(q) != 0 {
      BigIsBlocks(q);
      if Ix3(q) == 0 { Apart(p, q); }
    }
  }

  lemma SubBig(q: nat)
    ensures Off1(q + BIG) == Off1(q)
  {
  }

  lemma NoBigLeft(p0: nat, p: nat, end: nat)
    requires p0 <= p && p + ENTRIES <= end && (p0 + ENTRIES > end || (Off1(p0) == 0 && p0 + BIG > end))
    ensures Off1(p + ENTRIES) != 0
  {
    hide Off1;
    if Off1(p + ENTRIES) == 0 { BigApart(p0, p + ENTRIES); }
  }

  lemma NoBigYet(start: nat, p: nat)
    requires forall q: nat :: start <= q < p ==> Ix3(q) != 0
    ensures forall q: nat :: start <= q < p ==> Off1(q) != 0
  {
    hide Off1, Ix3;
    forall q: nat | start <= q < p ensures Off1(q) != 0 { BigIsBlocks(q); }
  }

  /** A bank whose pages lie in RAM slots and are not mapped in t. */
  ghost predicate Bankable(t: Tables, start: nat, end: nat) {
    InSlots(start, end) && forall q: nat :: start <= q < end ==> !MappedPage(t, q)
  }

  lemma BlockStep(p: nat)
    requires p % ENTRIES == 0
    ensures (p + ENTRIES) % ENTRIES == 0
  {
  }

  lemma BigStep(p: nat)
    requires p % BIG == 0 && p % ENTRIES == 0
    ensures (p + BIG) % BIG == 0 && (p + BIG) % ENTRIES == 0
  {
  }

  lemma SlotsOf(start: nat, end: nat)
    requires BIG <= start && end <= KSTACK_WINDOW_L1 * BIG
    ensures InSlots(start, end)
  {
  }

  lemma InRam(t: Tables, start: nat, end: nat)
    requires BIG <= start && end <= KSTACK_WINDOW_L1 * BIG
    requires forall q: nat :: start <= q < end && RamSlot(Ix1(q)) ==> !MappedPage(t, q)
    ensures Bankable(t, start, end)
  {
    forall q: nat | start <= q < end ensures RamSlot(Ix1(q)) { }
  }

  lemma RestUnmapped(t: Tables, t': Tables, start: nat, p: nat, end: nat)
    requires Bankable(t, start, end) && Grows(t, t', start, p) && start <= p <= end
    ensures forall q: nat :: p <= q < end ==> !MappedPage(t', q) && RamSlot(Ix1(q))
  {
  }

  /** In order and apart; they may touch. */
  predicate Disjoint(banks: seq<Region>) {
    forall i, j :: 0 <= i < j < |banks| ==> banks[i].End() <= banks[j].addr
  }

  /** What RAM slots map is what the banks cover. */
  ghost predicate MapsExactly(t: Tables, banks: seq<Region>) {
    forall p: nat :: RamSlot(Ix1(p)) ==> (MappedPage(t, p) <==> Covers(banks, p))
  }

  lemma NoBanks(banks: seq<Region>)
    ensures forall p: nat :: !Covers(banks[..0], p)
  {
  }

  lemma NextBank(banks: seq<Region>, b: nat, t: Tables)
    requires Disjoint(banks) && b < |banks| && MapsExactly(t, banks[..b])
    ensures forall q: nat :: banks[b].addr <= q < banks[b].End() && RamSlot(Ix1(q)) ==> !MappedPage(t, q)
  {
    hide RamSlot, MappedPage;
    forall q: nat | banks[b].addr <= q < banks[b].End() ensures !Covers(banks[..b], q) {
      assert forall c :: 0 <= c < b ==> banks[..b][c] == banks[c];
    }
  }

  lemma AddBank(banks: seq<Region>, b: nat, t: Tables, t': Tables)
    requires b < |banks| && MapsExactly(t, banks[..b]) && Grows(t, t', banks[b].addr, banks[b].End())
    ensures MapsExactly(t', banks[..b + 1])
  {
    hide RamSlot, MappedPage;
    forall p: nat ensures Covers(banks[..b + 1], p) <==> Covers(banks[..b], p) || Inside(banks[b], p) {
      CoversSplit(banks[..b + 1], b, b + 1, p);
      assert banks[..b + 1][..b] == banks[..b];
      assert banks[..b + 1][b..b + 1] == [banks[b]];
      assert Inside(banks[b], p) ==> Inside([banks[b]][0], p);
    }
  }

  lemma SlotKnown(t: Tables, owner: map<nat, Place>, next: nat, i: nat)
    requires Wf(t, owner, next) && RamSlot(i)
    ensures ROOT in t && i < |t[ROOT]| && Entry1(t, i) == t[ROOT][i] == At(t, ROOT, i) && !t[ROOT][i].Leaf?
    ensures t[ROOT][i].Table? ==> t[ROOT][i].id in owner && owner[t[ROOT][i].id] == L2(i)
  {
    assert Ok1(t, owner, i);
  }

  lemma TableKnown(t: Tables, owner: map<nat, Place>, next: nat, l2: nat, i: nat, j: nat)
    requires Wf(t, owner, next) && l2 in owner && owner[l2] == L2(i) && j < ENTRIES
    ensures l2 in t && j < |t[l2]| && At(t, l2, j) == t[l2][j] && Entry1(t, i) == Table(l2)
  {
    assert OkTable(t, owner, l2);
  }

  /** The entry a page's leaf goes to is owned, and empty while the page is not mapped. */
  lemma LeafKnown(t: Tables, owner: map<nat, Place>, next: nat, l2: nat, l3: nat, i: nat, j: nat, k: nat)
    requires Wf(t, owner, next) && l2 in owner && owner[l2] == L2(i) && j < ENTRIES && k < ENTRIES
    requires At(t, l2, j) == Table(l3) && !Mapped(t, i, j, k)
    ensures l3 in owner && owner[l3] == L3(i, j) && l3 in t && k < |t[l3]| && At(t, l3, k) == Empty
  {
    assert OkTable(t, owner, l2) && Ok2(owner, t[l2][j], i, j);
    assert OkTable(t, owner, l3) && Ok3(t[l3][k], i, j, k);
  }

  lemma HoleFilled(t: Tables, owner: map<nat, Place>, l2: nat, j: nat, hole: Option<nat>)
    requires Tidy(t, owner, hole) && (hole.None? || hole == Some(l2)) && l2 in t && j < |t[l2]| && t[l2][j] != Empty
    ensures Tidy(t, owner, None)
  {
    assert Used(t[l2]);
  }

  lemma SameSelf(t: Tables, owner: map<nat, Place>)
    ensures SameMapped(t, t) && Keeps(t, t, owner)
  {
  }

  lemma LinkL2Keeps(t: Tables, owner: map<nat, Place>, next: nat, i: nat)
    requires Wf(t, owner, next) && RamSlot(i) && Entry1(t, i) == Empty
    ensures Keeps(t, LinkL2(t, next, i), owner)
  {
  }

  lemma LinkL3Keeps(t: Tables, owner: map<nat, Place>, next: nat, l2: nat, i: nat, j: nat)
    requires Wf(t, owner, next) && l2 in owner && owner[l2] == L2(i) && j < ENTRIES && At(t, l2, j) == Empty
    ensures l2 != next && l2 in t && Keeps(t, LinkL3(t, next, l2, j), owner)
  {
  }

  lemma PutKeeps(t: Tables, owner: map<nat, Place>, id: nat, j: nat, e: Entry)
    requires id in t && j < |t[id]| && At(t, id, j) == Empty
    ensures Keeps(t, Put(t, id, j, e), owner)
  {
  }

  lemma StillUnmapped(t: Tables, t': Tables, i: nat, j: nat, k: nat)
    requires SameMapped(t, t') && RamSlot(i) && j < ENTRIES && k < ENTRIES && !Mapped(t, i, j, k)
    ensures !Mapped(t', i, j, k)
  {
  }

  lemma BigNum(p: nat)
    requires p % BIG == 0
    ensures Num(Ix1(p), 0, 0) == p
  {
  }

  lemma UnmappedSlot2(t: Tables, p: nat)
    requires p % ENTRIES == 0 && forall q: nat :: p <= q < p + ENTRIES ==> !MappedPage(t, q)
    ensures p == Num(Ix1(p), Ix2(p), 0) && forall k: nat :: k < ENTRIES ==> !Mapped(t, Ix1(p), Ix2(p), k)
  {
    hide Mapped, Ix1, Ix2;
    Indices(p);
    forall k: nat | k < ENTRIES ensures !Mapped(t, Ix1(p), Ix2(p), k) {
      IndicesOf(Ix1(p), Ix2(p), k);
      assert !MappedPage(t, Num(Ix1(p), Ix2(p), k));
    }
  }

  lemma UnmappedSlot1(t: Tables, p: nat)
    requires p % BIG == 0 && forall q: nat :: p <= q < p + BIG ==> !MappedPage(t, q)
    ensures forall j: nat, k: nat :: j < ENTRIES && k < ENTRIES ==> !Mapped(t, Ix1(p), j, k)
  {
    hide Mapped, Ix1;
    BigNum(p);
    forall j: nat, k: nat | j < ENTRIES && k < ENTRIES ensures !Mapped(t, Ix1(p), j, k) {
      IndicesOf(Ix1(p), j, k);
      assert !MappedPage(t, Num(Ix1(p), j, k));
    }
  }

  lemma LeafGrows(t: Tables, t1: Tables, t2: Tables, t': Tables, p: nat)
    requires SameMapped(t, t1) && SameMapped(t1, t2)
    requires forall i: nat, j: nat, k: nat :: RamSlot(i) && j < ENTRIES && k < ENTRIES ==>
               (Mapped(t', i, j, k) <==> Mapped(t2, i, j, k) || (i == Ix1(p) && j == Ix2(p) && k == Ix3(p)))
    ensures Grows(t, t', p, p + 1)
  {
    hide Mapped, RamSlot, Ix1, Ix2, Ix3;
    forall q: nat | RamSlot(Ix1(q)) ensures MappedPage(t', q) <==> MappedPage(t, q) || p <= q < p + 1 {
      Indices(q);
      LeafRange(p, q);
    }
  }

  lemma BlockGrows(t: Tables, t1: Tables, t': Tables, p: nat)
    requires SameMapped(t, t1) && p % ENTRIES == 0
    requires forall i: nat, j: nat, k: nat :: RamSlot(i) && j < ENTRIES && k < ENTRIES ==>
               (Mapped(t', i, j, k) <==> Mapped(t1, i, j, k) || (i == Ix1(p) && j == Ix2(p)))
    ensures Grows(t, t', p, p + ENTRIES)
  {
    hide Mapped, RamSlot, Ix1, Ix2, Ix3;
    forall q: nat | RamSlot(Ix1(q)) ensures MappedPage(t', q) <==> MappedPage(t, q) || p <= q < p + ENTRIES {
      Indices(q);
      BlockRange(p, q);
    }
  }

  lemma BigGrows(t: Tables, t': Tables, p: nat)
    requires p % BIG == 0
    requires forall i: nat, j: nat, k: nat :: RamSlot(i) && j < ENTRIES && k < ENTRIES ==>
               (Mapped(t', i, j, k) <==> Mapped(t, i, j, k) || i == Ix1(p))
    ensures Grows(t, t', p, p + BIG)
  {
    hide Mapped, RamSlot, Ix1, Ix2, Ix3;
    forall q: nat | RamSlot(Ix1(q)) ensures MappedPage(t', q) <==> MappedPage(t, q) || p <= q < p + BIG {
      Indices(q);
      BigRange(p, q);
    }
  }
}

/**
 The user half of pmap.c on physical pages: tables are pages of entries, written in place,
 and pages come from and return to the page allocator.  Each operation is proved to carry
 the tree a page table denotes to the tree the PageTree functions say.
 */
module Pmap {
  import opened PageTree

  /** A page-table entry: zero, or valid with an output page and its remaining bits. */
  datatype Pte = Zero | Pte(frame: nat, flags: nat)

  /** PTE_VALID | PTE_TABLE */
  const TABLE_BITS: nat := 3

  predicate Matches(e: Pte, k: Kid, level: nat) {
    match k
    case Nil => e == Zero
    case Sub(t) => e == Pte(t.frame, if level == 3 && t.Leaf? then t.flags else TABLE_BITS)
  }

  /** The table page of t, and below it those of its children, hold t's entries. */
  ghost predicate Holds(tables: map<nat, seq<Pte>>, t: Tree, level: nat)
    requires level <= 4 && WellFormed(t, level)
    decreases t
  {
    level < 4 ==>
      && t.frame in tables && |tables[t.frame]| == ENTRIES
      && (forall i :: 0 <= i < ENTRIES ==> Matches(tables[t.frame][i], t.kids[i], level))
      && (forall i :: 0 <= i < ENTRIES && t.kids[i].Sub? ==> Holds(tables, t.kids[i].t, level + 1))
  }

  /** Only pages of `owned` differ between two memories. */
  ghost predicate SameOutside(was: map<nat, seq<Pte>>, now: map<nat, seq<Pte>>, owned: set<nat>) {
    forall f :: f !in owned ==> (f in was <==> f in now) && (f in was ==> was[f] == now[f])
  }

  lemma OutsideTrans(a: map<nat, seq<Pte>>, b: map<nat, seq<Pte>>, c: map<nat, seq<Pte>>, p: set<nat>, q: set<nat>, r: set<nat>)
    requires SameOutside(a, b, p) && SameOutside(b, c, q) && p <= r && q <= r
    ensures SameOutside(a, c, r)
  {
  }

  lemma OutsideSame(a: map<nat, seq<Pte>>, r: set<nat>)
    ensures SameOutside(a, a, r)
  {
  }

  lemma OutsideMono(a: map<nat, seq<Pte>>, b: map<nat, seq<Pte>>, p: set<nat>, r: set<nat>)
    requires SameOutside(a, b, p) && p <= r
    ensures SameOutside(a, b, r)
  {
  }

  lemma {:induction false} HoldsFrame(was: map<nat, seq<Pte>>, now: map<nat, seq<Pte>>, owned: set<nat>, t: Tree, level: nat)
    requires level <= 4 && WellFormed(t, level) && Holds(was, t, level)
    requires SameOutside(was, now, owned) && owned !! Frames(t)
    ensures Holds(now, t, level)
    decreases t
  {
    if level < 4 {
      forall i | 0 <= i < ENTRIES && t.kids[i].Sub? ensures Holds(now, t.kids[i].t, level + 1) {
        assert KidFrames(t.kids[i]) <= Frames(t);
        HoldsFrame(was, now, owned, t.kids[i].t, level + 1);
      }
    }
  }

  /** Rewriting entry i, after changing only pages below it, gives the tree with that entry. */
  lemma HoldsPut(was: map<nat, seq<Pte>>, now: map<nat, seq<Pte>>, t: Tree, level: nat, i: nat, k: Kid)
    requires level <= 3 && WellFormed(t, level) && Apart(t) && Holds(was, t, level) && i < ENTRIES
    requires k.Sub? ==> WellFormed(k.t, level + 1) && Holds(now, k.t, level + 1)
    requires SameOutside(was, now, KidFrames(t.kids[i]) + KidFrames(k) + {t.frame})
    requires KidFrames(k) !! (Frames(t) - KidFrames(t.kids[i]))
    requires t.frame in now && |now[t.frame]| == ENTRIES && Matches(now[t.frame][i], k, level)
    requires forall j :: 0 <= j < ENTRIES && j != i ==> now[t.frame][j] == was[t.frame][j]
    ensures WellFormed(Put(t, i, k), level) && Holds(now, Put(t, i, k), level)
  {
    var r := Put(t, i, k);
    var owned := KidFrames(t.kids[i]) + KidFrames(k) + {t.frame};
    forall j | 0 <= j < ENTRIES && r.kids[j].Sub? && j != i ensures Holds(now, r.kids[j].t, level + 1) {
      KidApart(t, j);
      KidsApart(t, i, j);
      OtherKid(was, now, owned, t, level, j);
    }
  }

  lemma OtherKid(was: map<nat, seq<Pte>>, now: map<nat, seq<Pte>>, owned: set<nat>, t: Tree, level: nat, j: nat)
    requires level <= 3 && WellFormed(t, level) && Holds(was, t, level) && j < ENTRIES && t.kids[j].Sub?
    requires SameOutside(was, now, owned) && owned !! KidFrames(t.kids[j])
    ensures Holds(now, t.kids[j].t, level + 1)
  {
    HoldsFrame(was, now, owned, t.kids[j].t, level + 1);
  }

  /** One step of unmapping or freeing: entry i of u becomes k, whose pages were its own. */
  lemma ShrinkEntry(u: Tree, level: nat, i: nat, k: Kid, t: Tree, free0: set<nat>, free1: set<nat>, free2: set<nat>)
    requires level <= 3 && WellFormed(u, level) && Apart(u) && i < ENTRIES
    requires k.Sub? ==> WellFormed(k.t, level + 1) && Apart(k.t)
    requires KidFrames(k) <= KidFrames(u.kids[i])
    requires Frames(u) <= Frames(t) && free1 == free0 + (Frames(t) - Frames(u))
    requires free2 == free1 + (KidFrames(u.kids[i]) - KidFrames(k))
    ensures WellFormed(Put(u, i, k), level) && Apart(Put(u, i, k)) && Frames(Put(u, i, k)) <= Frames(t)
    ensures free2 == free0 + (Frames(t) - Frames(Put(u, i, k)))
  {
    KidApart(u, i);
    PutFrames(u, i, k);
    PutApart(u, i, k);
  }

  /** u is t with its first n entries unmapped. */
  ghost predicate Partly(u: Tree, t: Tree, level: nat, base: nat, lo: nat, hi: nat, n: nat)
    requires level <= 3 && WellFormed(t, level)
  {
    && u.Table? && u.frame == t.frame && |u.kids| == ENTRIES
    && (forall j :: 0 <= j < n && j < ENTRIES ==> u.kids[j] == UnmapKid(t.kids[j], level, base + j * Span(level), lo, hi))
    && (forall j :: n <= j < ENTRIES ==> u.kids[j] == t.kids[j])
  }

  lemma PartlyAt(u: Tree, t: Tree, level: nat, base: nat, lo: nat, hi: nat, n: nat)
    requires level <= 3 && WellFormed(t, level) && Partly(u, t, level, base, lo, hi, n) && n < ENTRIES
    ensures u.Table? && u.frame == t.frame && |u.kids| == ENTRIES && |t.kids| == ENTRIES && u.kids[n] == t.kids[n]
    ensures t.kids[n].Sub? ==> WellFormed(t.kids[n].t, level + 1)
  {
  }

  lemma PartlyNext(u: Tree, t: Tree, level: nat, base: nat, lo: nat, hi: nat, n: nat, k: Kid)
    requires level <= 3 && WellFormed(t, level) && Partly(u, t, level, base, lo, hi, n) && n < ENTRIES
    requires k == UnmapKid(t.kids[n], level, base + n * Span(level), lo, hi)
    ensures Partly(Put(u, n, k), t, level, base, lo, hi, n + 1)
  {
  }

  ghost function Size(s: set<nat>): nat { |s| }

  class Memory {
    var tables: map<nat, seq<Pte>>     // pages in use as tables
    var data: map<nat, seq<int>>       // contents of pages in use as user memory
    var free: set<nat>                 // the page allocator's free pages

    /** kpage_free: the page must not be free already. */
    method FreePage(f: nat)
      requires f !in free
      modifies this`free
      ensures free == old(free) + {f} && Size(free) == Size(old(free)) + 1
    {
      free := free + {f};
    }

    method WriteEntry(table: nat, i: nat, e: Pte)
      requires table in tables && i < |tables[table]|
      modifies this`tables
      ensures tables == old(tables)[table := old(tables)[table][i := e]]
    {
      tables := tables[table := tables[table][i := e]];
    }

    /** The collapse test: are all entries of a table zero? */
    method AllZero(table: nat) returns (empty: bool)
      requires table in tables && |tables[table]| == ENTRIES
      ensures empty <==> forall j :: 0 <= j < ENTRIES ==> tables[table][j] == Zero
    {
      var j := 0;
      while j < ENTRIES
        invariant j <= ENTRIES && forall i :: 0 <= i < j ==> tables[table][i] == Zero
      {
        if tables[table][j] != Zero { return false; }
        j := j + 1;
      }
      return true;
    }

    /** The body of uvmunmap_range's loop for a mapped page. */
    method UnmapLeaf(table: nat, idx: nat, ghost u: Tree)
      requires WellFormed(u, 3) && Apart(u) && Holds(tables, u, 3) && u.frame == table
      requires Frames(u) !! free && idx < ENTRIES && u.kids[idx].Sub?
      modifies this
      ensures data == old(data)
      ensures WellFormed(Put(u, idx, Nil), 3) && Holds(tables, Put(u, idx, Nil), 3)
      ensures free == old(free) + KidFrames(u.kids[idx])
      ensures SameOutside(old(tables), tables, {table})
    {
      hide Size;
      KidApart(u, idx);
      assert Matches(tables[table][idx], u.kids[idx], 3);
      FreePage(tables[table][idx].frame);
      WriteEntry(table, idx, Zero);
      HoldsPut(old(tables), tables, u, 3, idx, Nil);
    }

    /** ... and for a child table, which has just been unmapped to c: collapse it if empty. */
    method Collapse(table: nat, level: nat, idx: nat, ghost was: map<nat, seq<Pte>>, ghost u: Tree, ghost c: Tree)
      requires level < 3 && WellFormed(u, level) && Apart(u) && Holds(was, u, level) && u.frame == table
      requires idx < ENTRIES && u.kids[idx].Sub? && WellFormed(c, level + 1) && c.frame == u.kids[idx].t.frame
      requires Frames(c) <= Frames(u.kids[idx].t) && Frames(c) !! free && Holds(tables, c, level + 1)
      requires SameOutside(was, tables, Frames(u.kids[idx].t))
      modifies this
      ensures data == old(data)
      ensures var k := if IsEmpty(c) then Nil else Sub(c);
              && WellFormed(Put(u, idx, k), level) && Holds(tables, Put(u, idx, k), level)
              && free == old(free) + (Frames(c) - KidFrames(k))
      ensures SameOutside(old(tables), tables, {table})
    {
      hide Apart, Frames, SameOutside, Holds, Size;
      KidApart(u, idx);
      EntryHolds(was, u, level, idx);
      ghost var before, c0 := tables, u.kids[idx].t;
      TableKept(was, tables, Frames(c0), table);
      var child := tables[table][idx].frame;
      EmptyMatches(tables, c, level + 1);
      var empty := AllZero(child);
      if empty {
        FreePage(child);
        WriteEntry(table, idx, Zero);
        EmptyFrames(c);
        WriteOutside(before, table, idx, Zero);
        OutsideTrans(was, before, tables, Frames(c0), {table}, Frames(c0) + KidFrames(Nil) + {table});
        HoldsPut(was, tables, u, level, idx, Nil);
      } else {
        OutsideSame(tables, {table});
        OutsideMono(was, tables, Frames(c0), Frames(c0) + KidFrames(Sub(c)) + {table});
        HoldsPut(was, tables, u, level, idx, Sub(c));
      }
    }

    /** Descend into the child table of entry idx, clamped to what that entry covers. */
    method UnmapChild(child: nat, level: nat, lo: nat, hi: nat, va: nat, ghost c: Tree)
      returns (ghost c': Tree)
      requires level < 3 && WellFormed(c, level + 1) && Apart(c) && Holds(tables, c, level + 1) && c.frame == child
      requires Frames(c) !! free && Meets(level, va, lo, hi) && lo < hi && Aligned(level + 1, va)
      modifies this
      ensures data == old(data)
      ensures c' == Unmap(c, level + 1, va, Max(lo, va), Min(hi, va + Span(level)))
      ensures Apart(c') && Frames(c') <= Frames(c) && Holds(tables, c', level + 1)
      ensures free == old(free) + (Frames(c) - Frames(c')) && SameOutside(old(tables), tables, Frames(c))
      decreases 4 - level, 0
    {
      hide SameOutside, Apart, Holds, Frames;
      SpanNext(level);
      var subLo := if lo > va then lo else va;
      var subHi := if hi < va + Span(level) then hi else va + Span(level);
      UnmapRange(child, level + 1, subLo, subHi, va, c);
      c' := Unmap(c, level + 1, va, subLo, subHi);
      UnmapFrames(c, level + 1, va, subLo, subHi);
      UnmapApart(c, level + 1, va, subLo, subHi);
    }

    /** The body of uvmunmap_range's loop for a valid entry that meets the range. */
    method UnmapEntry(table: nat, level: nat, lo: nat, hi: nat, va: nat, idx: nat, ghost u: Tree)
      returns (ghost k: Kid)
      requires level <= 3 && WellFormed(u, level) && Apart(u) && Holds(tables, u, level) && u.frame == table
      requires Frames(u) !! free && idx < ENTRIES && u.kids[idx].Sub? && Meets(level, va, lo, hi) && lo < hi
      requires level < 3 ==> Aligned(level + 1, va)
      modifies this
      ensures data == old(data)
      ensures k == UnmapKid(u.kids[idx], level, va, lo, hi)
      ensures (k.Sub? ==> Apart(k.t)) && KidFrames(k) <= KidFrames(u.kids[idx])
      ensures WellFormed(Put(u, idx, k), level) && Holds(tables, Put(u, idx, k), level)
      ensures free == old(free) + (KidFrames(u.kids[idx]) - KidFrames(k))
      ensures SameOutside(old(tables), tables, Frames(u))
      decreases 4 - level, 1
    {
      hide SameOutside, Apart, Holds, Unmap;
      KidApart(u, idx);
      if level == 3 {
        k := Nil;
        UnmapLeaf(table, idx, u);
        OutsideMono(old(tables), tables, {table}, Frames(u));
      } else {
        ghost var c := u.kids[idx].t;
        EntryHolds(tables, u, level, idx);
        ghost var c' := UnmapChild(tables[table][idx].frame, level, lo, hi, va, c);
        k := if IsEmpty(c') then Nil else Sub(c');
        ghost var mid := tables;
        Collapse(table, level, idx, old(tables), u, c');
        OutsideTrans(old(tables), mid, tables, Frames(c), {table}, Frames(u));
      }
    }

    /** The state of uvmunmap_range's loop before entry n: the table holds u. */
    ghost predicate Unmapping(u: Tree, t: Tree, level: nat, base: nat, lo: nat, hi: nat, n: nat, free0: set<nat>)
      requires level <= 3 && WellFormed(t, level)
      reads this
    {
      && Partly(u, t, level, base, lo, hi, n)
      && WellFormed(u, level) && Apart(u) && Holds(tables, u, level) && Frames(u) <= Frames(t)
      && free == free0 + (Frames(t) - Frames(u)) && Frames(u) !! free
    }

    /** One iteration. */
    method StepEntry(table: nat, level: nat, lo: nat, hi: nat, va: nat,
                     ghost base: nat, ghost t: Tree, ghost u: Tree, ghost n: nat, ghost free0: set<nat>)
      returns (ghost u': Tree)
      requires level <= 3 && WellFormed(t, level) && t.frame == table && Aligned(level, base) && lo < hi
      requires n < ENTRIES && va == base + n * Span(level) && Meets(level, va, lo, hi)
      requires Unmapping(u, t, level, base, lo, hi, n, free0) && Frames(t) !! free0
      modifies this
      ensures data == old(data)
      ensures Unmapping(u', t, level, base, lo, hi, n + 1, free0)
      ensures SameOutside(old(tables), tables, Frames(t))
      decreases 4 - level, 2
    {
      hide Apart, Frames, WellFormed, Holds, SameOutside, Partly;
      PartlyAt(u, t, level, base, lo, hi, n);
      u' := u;
      EntryStart(level, base, n);
      var idx := (va / Span(level)) % ENTRIES;
      EntryHolds(tables, u, level, idx);
      if tables[table][idx] != Zero {
        ghost var free1 := free;
        ghost var k := UnmapEntry(table, level, lo, hi, va, idx, u);
        ShrinkEntry(u, level, n, k, t, free0, free1, free);
        OutsideMono(old(tables), tables, Frames(u), Frames(t));
        u' := Put(u, n, k);
        PartlyNext(u, t, level, base, lo, hi, n, k);
      } else {
        OutsideSame(tables, Frames(t));
        PartlyNext(u, t, level, base, lo, hi, n, Nil);
        assert u == Put(u, n, Nil);
      }
    }

    /** uvmunmap_range: leaves exactly Unmap(t) and frees exactly the pages it drops. */
    method UnmapRange(table: nat, level: nat, lo: nat, hi: nat, ghost base: nat, ghost t: Tree)
      requires level <= 3 && WellFormed(t, level) && Apart(t) && Holds(tables, t, level) && t.frame == table
      requires Frames(t) !! free && Aligned(level, base)
      requires base <= lo < hi <= base + ENTRIES * Span(level)
      modifies this
      ensures data == old(data)
      ensures Holds(tables, Unmap(t, level, base, lo, hi), level)
      ensures free == old(free) + (Frames(t) - Frames(Unmap(t, level, base, lo, hi)))
      ensures SameOutside(old(tables), tables, Frames(t))
      decreases 4 - level, 3
    {
      EntryOf(level, base, lo);
      var va := lo / Span(level) * Span(level);
      ghost var n := IndexOf(level, lo);
      ghost var u := t;
      BelowRange(t, level, base, lo, hi, n);
      while va < hi
        invariant n <= ENTRIES && va == base + n * Span(level) && lo < va + Span(level)
        invariant Unmapping(u, t, level, base, lo, hi, n, old(free))
        invariant SameOutside(old(tables), tables, Frames(t)) && data == old(data)
        decreases hi - va
      {
        EntryInside(level, base, hi, n, va);
        u := StepEntry(table, level, lo, hi, va, base, t, u, n, old(free));
        n := n + 1;
        va := va + Span(level);
      }
      AboveRange(u, t, level, base, lo, hi, n);
    }

    /* ---- freeing a whole table ---- */

    /** The state of freewalk's loop before entry n: entries below n are gone. */
    ghost predicate Freeing(u: Tree, t: Tree, level: nat, n: nat, free0: set<nat>)
      requires level <= 3 && WellFormed(t, level)
      reads this
    {
      && u.Table? && u.frame == t.frame && |u.kids| == ENTRIES
      && (forall j :: 0 <= j < n && j < ENTRIES ==> u.kids[j] == Nil)
      && (forall j :: n <= j < ENTRIES ==> u.kids[j] == t.kids[j])
      && WellFormed(u, level) && Apart(u) && Holds(tables, u, level) && Frames(u) <= Frames(t)
      && free == free0 + (Frames(t) - Frames(u)) && Frames(u) !! free
    }

    /** One iteration of freewalk for a valid entry. */
    method FreeEntry(table: nat, level: nat, i: nat, ghost u: Tree)
      requires level <= 3 && WellFormed(u, level) && Apart(u) && Holds(tables, u, level) && u.frame == table
      requires Frames(u) !! free && i < ENTRIES && u.kids[i].Sub?
      modifies this
      ensures WellFormed(Put(u, i, Nil), level) && Holds(tables, Put(u, i, Nil), level)
      ensures free == old(free) + KidFrames(u.kids[i])
      ensures SameOutside(old(tables), tables, Frames(u))
      ensures data == old(data)
      decreases 4 - level, 0
    {
      hide Apart, Holds, SameOutside;
      KidApart(u, i);
      EntryHolds(tables, u, level, i);
      var e := tables[table][i];
      if level < 3 {
        ghost var c := u.kids[i].t;
        Freewalk(e.frame, level + 1, c);
        TableKept(old(tables), tables, Frames(c), table);
        ghost var mid := tables;
        WriteEntry(table, i, Zero);
        WriteOutside(mid, table, i, Zero);
        OutsideTrans(old(tables), mid, tables, Frames(c), {table}, Frames(c) + {table});
        HoldsPut(old(tables), tables, u, level, i, Nil);
        OutsideMono(old(tables), tables, Frames(c) + {table}, Frames(u));
      } else {
        UnmapLeaf(table, i, u);
        OutsideMono(old(tables), tables, {table}, Frames(u));
      }
    }

    /** freewalk: frees every page reachable from the table, once. */
    method Freewalk(table: nat, level: nat, ghost t: Tree)
      requires level <= 3 && WellFormed(t, level) && Apart(t) && Holds(tables, t, level) && t.frame == table
      requires Frames(t) !! free
      modifies this
      ensures free == old(free) + Frames(t)
      ensures SameOutside(old(tables), tables, Frames(t))
      ensures data == old(data)
      decreases 4 - level, 1
    {
      hide Apart, Holds, SameOutside, Frames, Size;
      ghost var u := t;
      OutsideSame(tables, Frames(t));
      for i := 0 to ENTRIES
        invariant Freeing(u, t, level, i, old(free))
        invariant SameOutside(old(tables), tables, Frames(t)) && data == old(data)
      {
        EntryHolds(tables, u, level, i);
        if tables[table][i] != Zero {
          ghost var mid, free1 := tables, free;
          FreeEntry(table, level, i, u);
          ShrinkEntry(u, level, i, Nil, t, old(free), free1, free);
          OutsideTrans(old(tables), mid, tables, Frames(t), Frames(u), Frames(t));
          u := Put(u, i, Nil);
        }
      }
      EmptyFrames(u);
      FreePage(table);
    }

    /** uvmfree */
    method Uvmfree(root: nat, ghost t: Tree)
      requires Owns(t) && t.frame == root
      modifies this
      ensures free == old(free) + Frames(t)
    {
      Freewalk(root, 0, t);
    }

    /** t is the page table its root page denotes, on pages of its own. */
    ghost predicate Owns(t: Tree)
      reads this
    {
      WellFormed(t, 0) && Apart(t) && Holds(tables, t, 0) && Frames(t) !! free
    }

    /* ---- growing a table ---- */

    /** kpage_alloc: any free page, or none when there is none. */
    method AllocPage() returns (ok: bool, f: nat)
      modifies this`free
      ensures ok <==> old(free) != {}
      ensures ok ==> f in old(free) && free == old(free) - {f} && Size(free) + 1 == Size(old(free))
      ensures !ok ==> free == old(free) && Size(free) == 0
    {
      if free == {} { return false, 0; }
      f :| f in free;
      free := free - {f};
      ok := true;
    }

    /** ptalloc: a zeroed table page. */
    method Ptalloc() returns (ok: bool, f: nat)
      modifies this`free, this`tables
      ensures ok <==> old(free) != {}
      ensures ok ==> f in old(free) && free == old(free) - {f} && tables == old(tables)[f := seq(ENTRIES, _ => Zero)]
      ensures ok ==> Size(free) + 1 == Size(old(free))
      ensures !ok ==> free == old(free) && tables == old(tables) && Size(free) == 0
    {
      hide Size;
      ok, f := AllocPage();
      if ok { tables := tables[f := seq(ENTRIES, _ => Zero)]; }
    }

    /** walk()'s loop body below `level`: follow the entry, or hang a new table under it. */
    method WalkDown(cur: nat, level: nat, v: nat, alloc: bool, ghost t: Tree)
      returns (ok: bool, next: nat, ghost t': Tree)
      requires level < 3 && Owns(t) && HasPath(t, 0, v, level) && NodeAt(t, 0, v, level).frame == cur
      modifies this`free, this`tables
      ensures Owns(t') && t'.frame == t.frame && Same(t, t')
      ensures ok ==> HasPath(t', 0, v, level + 1) && NodeAt(t', 0, v, level + 1).frame == next
      ensures !ok ==> t' == t && KidAt(t, 0, v, level).Nil? && (alloc ==> old(free) == {} && Size(free) == 0)
      ensures !ok || !alloc ==> t' == t && free == old(free) && tables == old(tables)
      ensures Frames(t) <= Frames(t') && Frames(t') + free == Frames(t) + old(free)
      ensures SameOutside(old(tables), tables, Frames(t')) && Size(free) + 1 >= Size(old(free))
    {
      hide Apart, Frames, Holds, IndexOf, HasPath, Size;
      t', ok, next := t, true, 0;
      NodeHolds(tables, t, 0, v, level);
      var idx := IndexOf(level, v);
      var e := tables[cur][idx];
      if e != Zero {
        PathDown(t, 0, v, level);
        next := e.frame;
      } else if !alloc {
        ok := false;
      } else {
        ghost var was := tables;
        ok, next := Ptalloc();
        if ok {
          WriteEntry(cur, idx, Pte(next, TABLE_BITS));
          t' := Insert(t, 0, v, level, Sub(EmptyTable(next)));
          NewTable(was, tables, t, v, level, next);
        }
      }
    }

    /** walk: the level-3 table and slot for page v, allocating missing tables on request. */
    method Walk(root: nat, v: nat, alloc: bool, ghost t: Tree) returns (ok: bool, table: nat, ghost t': Tree)
      requires Owns(t) && t.frame == root
      modifies this`free, this`tables
      ensures Owns(t') && t'.frame == root && Same(t, t')
      ensures ok ==> HasPath(t', 0, v, 3) && NodeAt(t', 0, v, 3).frame == table
      ensures !ok ==> Lookup(t, 0, v) == Unmapped && (alloc ==> free == {})
      ensures !alloc ==> t' == t && free == old(free) && tables == old(tables)
      ensures Frames(t) <= Frames(t') && Frames(t') + free == Frames(t) + old(free)
      ensures SameOutside(old(tables), tables, Frames(t'))
      ensures Size(free) + 3 >= Size(old(free)) && (!ok && alloc ==> Size(old(free)) <= 2)
    {
      hide Apart, Frames, Holds, IndexOf, SameOutside, Size;
      t', table, ok := t, root, true;
      OutsideSame(tables, Frames(t));
      var level := 0;
      while level < 3
        invariant level <= 3 && Owns(t') && t'.frame == root && Same(t, t')
        invariant HasPath(t', 0, v, level) && NodeAt(t', 0, v, level).frame == table
        invariant !alloc ==> t' == t && free == old(free) && tables == old(tables)
        invariant Frames(t) <= Frames(t') && Frames(t') + free == Frames(t) + old(free)
        invariant SameOutside(old(tables), tables, Frames(t')) && Size(free) + level >= Size(old(free))
      {
        ghost var u, mid := t', tables;
        ok, table, t' := WalkDown(table, level, v, alloc, u);
        OutsideTrans(old(tables), mid, tables, Frames(u), Frames(t'), Frames(t'));
        if !ok {
          BrokenPath(u, 0, v, level);
          return;
        }
        level := level + 1;
      }
    }

    /** mappages for one page: on success v translates to the page, and nothing else changes;
        on failure no translation changes. */
    method MapPage(root: nat, v: nat, frame: nat, perm: nat, ghost t: Tree) returns (ok: bool, ghost t': Tree)
      requires Owns(t) && t.frame == root && v < PAGES && Lookup(t, 0, v) == Unmapped
      requires frame !in Frames(t) && frame !in free
      modifies this`free, this`tables
      ensures Owns(t') && t'.frame == root
      ensures ok ==> MapsOne(t, t', v, frame, perm)
      ensures !ok ==> Same(t, t') && free == {}
      ensures Frames(t) <= Frames(t') && Frames(t') + free == Frames(t) + old(free) + (if ok then {frame} else {})
      ensures SameOutside(old(tables), tables, Frames(t'))
      ensures Size(free) + 3 >= Size(old(free)) && (!ok ==> Size(old(free)) <= 2)
    {
      hide Apart, Frames, Holds, IndexOf, SameOutside, Size;
      var table;
      ok, table, t' := Walk(root, v, true, t);
      if ok {
        ghost var u, mid := t', tables;
        NodeHolds(tables, u, 0, v, 3);
        LookupAtPath(u, 0, v);
        WriteEntry(table, IndexOf(3, v), Pte(frame, perm));
        WriteOutside(mid, table, IndexOf(3, v), Pte(frame, perm));
        t' := Insert(u, 0, v, 3, Sub(Leaf(frame, perm)));
        NewLeaf(mid, tables, t, u, v, frame, perm);
        OutsideTrans(old(tables), mid, tables, Frames(u), {table}, Frames(t'));
      }
    }

    /** mappages: n pages from v on to consecutive physical pages; m of them were mapped. */
    method Mappages(root: nat, v: nat, n: nat, frame: nat, perm: nat, ghost t: Tree)
      returns (ok: bool, ghost m: nat, ghost t': Tree)
      requires Owns(t) && t.frame == root && 1 <= n && v + n <= PAGES
      requires forall w :: v <= w < v + n ==> Lookup(t, 0, w) == Unmapped
      requires forall f :: frame <= f < frame + n ==> f !in Frames(t) && f !in free
      modifies this`free, this`tables
      ensures Owns(t') && t'.frame == root && m <= n && (ok ==> m == n) && (!ok ==> free == {})
      ensures MapsRun(t, t', v, m, frame, perm)
      ensures Frames(t') + free == Frames(t) + old(free) + Run(frame, m)
    {
      hide Apart, Frames, Holds, Lookup, Size;
      t', m := t, 0;
      var a, pa, last := v, frame, v + n - 1;
      while true
        invariant Owns(t') && t'.frame == root && m < n && a == v + m && pa == frame + m
        invariant MapsRun(t, t', v, m, frame, perm)
        invariant Frames(t') + free == Frames(t) + old(free) + Run(frame, m)
        decreases n - m
      {
        ghost var u := t';
        ok, t' := MapPage(root, a, pa, perm, u);
        if !ok { return; }
        MapsRunNext(t, u, t', v, m, frame, perm);
        m := m + 1;
        if a == last { return; }
        a, pa := a + 1, pa + 1;
      }
    }

    /* ---- fork ---- */

    /** The state of uvmcopy before page v. */
    ghost predicate Copying(ts: Tree, td0: Tree, td: Tree, v: nat, free0: set<nat>, data0: map<nat, seq<int>>)
      reads this
    {
      && Owns(ts) && Owns(td) && Frames(ts) !! Frames(td) && td.frame == td0.frame
      && WellFormed(td0, 0) && Frames(td0) <= Frames(td) && Frames(td) + free == Frames(td0) + free0
      && CopiedUpTo(ts, td0, td, v, data)
      && (forall f :: f in data0 && f in Frames(ts) ==> f in data && data[f] == data0[f])
    }

    /** uvmcopy's body for one page. */
    method CopyPage(src: nat, dst: nat, v: nat, ghost ts: Tree, ghost td0: Tree, ghost td: Tree, ghost free0: set<nat>,
                    ghost data0: map<nat, seq<int>>)
      returns (ok: bool, ghost td': Tree)
      requires Copying(ts, td0, td, v, free0, data0) && ts.frame == src && td.frame == dst && v < PAGES
      requires Lookup(td0, 0, v) == Unmapped && Backed(ts, data0) && Frames(ts) !! free0
      modifies this
      ensures ok ==> Copying(ts, td0, td', v + 1, free0, data0)
      ensures !ok ==> Copying(ts, td0, td', v, free0, data0)
      ensures Size(free) + 4 >= Size(old(free)) && (!ok ==> Size(old(free)) <= 3)
    {
      hide Apart, Frames, Holds, IndexOf, SameOutside, Lookup, Size;
      td' := td;
      ghost var ts';
      var found, table;
      found, table, ts' := Walk(src, v, false, ts);
      if !found { return true, td; }
      NodeHolds(tables, ts, 0, v, 3);
      LookupAtPath(ts, 0, v);
      var e := tables[table][IndexOf(3, v)];
      if e == Zero { return true, td; }
      LookupFrame(ts, 0, v);
      ghost var was := tables;
      var mem;
      ok, mem := AllocPage();
      if !ok { return false, td; }
      data := data[mem := data[e.frame]];
      CopiedFrame(ts, td0, td, v, old(data), data, mem);
      ok, td' := MapPage(dst, v, mem, e.flags, td);
      HoldsFrame(was, tables, Frames(td'), ts, 0);
      if ok {
        CopiedNext(ts, td0, td, td', v, data, mem, e.flags);
      } else {
        FreePage(mem);
        CopiedSame(ts, td0, td, td', v, data);
      }
    }

    /** uvmcopy: the first n pages of src, with the same bits and contents, on pages that were
        free.  It cannot fail with four free pages for each page copied, and a failed copy leaves a
        well-formed table for uvmfree. */
    method Uvmcopy(src: nat, dst: nat, n: nat, ghost ts: Tree, ghost td: Tree) returns (ok: bool, ghost td': Tree)
      requires Owns(ts) && Owns(td) && ts.frame == src && td.frame == dst && Frames(ts) !! Frames(td)
      requires n <= PAGES && Backed(ts, data) && forall v :: 0 <= v < n ==> Lookup(td, 0, v) == Unmapped
      modifies this
      ensures Owns(ts) && Owns(td') && Frames(ts) !! Frames(td') && td'.frame == dst
      ensures Frames(td') + free == Frames(td) + old(free)
      ensures ok ==> CopiedUpTo(ts, td, td', n, data)
      ensures !ok ==> Size(old(free)) < 4 * n
      ensures forall f :: f in old(data) && f in Frames(ts) ==> f in data && data[f] == old(data)[f]
    {
      hide Size;
      td', ok := td, true;
      for v := 0 to n
        invariant Copying(ts, td, td', v, old(free), old(data)) && Size(free) + 4 * v >= Size(old(free))
      {
        ok, td' := CopyPage(src, dst, v, ts, td, td', old(free), old(data));
        if !ok { return; }
      }
    }

    /* ---- sbrk ---- */

    /** uvmdealloc: unmaps exactly the pages between the two sizes. */
    method Uvmdealloc(root: nat, oldsz: nat, newsz: nat, ghost t: Tree) returns (sz: nat, ghost t': Tree)
      requires Owns(t) && t.frame == root && PagesOf(oldsz) <= PAGES
      modifies this
      ensures Owns(t') && t'.frame == root && Frames(t') <= Frames(t) && Frames(t') + free == Frames(t) + old(free)
      ensures sz == if newsz < oldsz then newsz else oldsz
      ensures Cut(t, t', PagesOf(newsz), if newsz < oldsz then PagesOf(oldsz) else 0)
      ensures SameOutside(old(tables), tables, Frames(t)) && data == old(data)
    {
      t' := t;
      if newsz >= oldsz {
        return oldsz, t;
      }
      var start, end := PagesOf(newsz), PagesOf(oldsz);
      if start < end {
        UnmapRange(root, 0, start, end, 0, t);
        t' := Unmap(t, 0, 0, start, end);
        UnmapFrames(t, 0, 0, start, end);
        UnmapApart(t, 0, 0, start, end);
        CutExact(t, start, end);
      }
      sz := newsz;
    }

    /** The state of uvmalloc before page k. */
    ghost predicate Growing(t: Tree, u: Tree, k0: nat, k: nat, free0: set<nat>, data0: map<nat, seq<int>>)
      reads this
    {
      && Owns(u) && u.frame == t.frame && WellFormed(t, 0) && Frames(t) <= Frames(u)
      && Frames(u) + free == Frames(t) + free0
      && GrownUpTo(t, u, k0, k, data)
      && (forall f :: f in data0 && f in Frames(t) ==> f in data && data[f] == data0[f])
    }

    /** uvmalloc's body for one page. */
    method GrowPage(root: nat, k: nat, ghost t: Tree, ghost u: Tree, ghost k0: nat, ghost free0: set<nat>,
                    ghost data0: map<nat, seq<int>>)
      returns (ok: bool, ghost u': Tree)
      requires Growing(t, u, k0, k, free0, data0) && u.frame == root && k0 <= k < PAGES && Frames(t) !! free0
      requires Lookup(t, 0, k) == Unmapped
      modifies this
      ensures Growing(t, u', k0, if ok then k + 1 else k, free0, data0)
      ensures Size(free) + 4 >= Size(old(free)) && (!ok ==> Size(old(free)) <= 3)
    {
      hide Apart, Frames, Holds, SameOutside, Lookup, Size;
      u' := u;
      var mem;
      ok, mem := AllocPage();
      if !ok { return false, u; }
      data := data[mem := Zeros()];
      GrownFrame(t, u, k0, k, old(data), data, mem);
      ok, u' := MapPage(root, k, mem, PAGE_USER, u);
      if ok {
        GrownNext(t, u, u', k0, k, data, mem);
      } else {
        FreePage(mem);
        GrownSame(t, u, u', k0, k, data);
      }
    }

    /** uvmalloc: new zeroed pages up to newsz, or, out of memory, the old translations; it cannot
        fail with four free pages for each new page. */
    method Uvmalloc(root: nat, oldsz: nat, newsz: nat, ghost t: Tree) returns (sz: nat, ghost failed: bool, ghost t': Tree)
      requires Owns(t) && t.frame == root && PagesOf(newsz) <= PAGES && Bounded(t, oldsz)
      modifies this
      ensures Owns(t') && t'.frame == root && Frames(t') + free == Frames(t) + old(free)
      ensures newsz < oldsz ==> sz == oldsz && !failed && t' == t
      ensures newsz >= oldsz && !failed ==> sz == newsz && GrownUpTo(t, t', PagesOf(oldsz), PagesOf(newsz), data)
      ensures failed ==> sz == 0 && Alike(t, t')
      ensures failed ==> PagesOf(oldsz) < PagesOf(newsz) && Size(old(free)) < 4 * (PagesOf(newsz) - PagesOf(oldsz))
      ensures forall f :: f in old(data) && f in Frames(t) ==> f in data && data[f] == old(data)[f]
    {
      hide Apart, Frames, Holds, SameOutside, Lookup, Size;
      t', failed := t, false;
      if newsz < oldsz {
        return oldsz, false, t;
      }
      var first := PagesOf(oldsz);
      var k := first;
      while k * PGSIZE < newsz
        invariant first <= k && (k == first || k <= PagesOf(newsz))
        invariant Growing(t, t', first, k, old(free), old(data)) && Size(free) + 4 * (k - first) >= Size(old(free))
        decreases PagesOf(newsz) - k
      {
        ghost var u := t';
        BoundedAt(t, oldsz, k);
        var ok;
        ok, t' := GrowPage(root, k, t, u, first, old(free), old(data));
        if !ok {
          u := t';
          var _, v' := Uvmdealloc(root, k * PGSIZE, first * PGSIZE, u);
          t', failed := v', true;
          RolledBack(t, u, t', oldsz, k, data);
          return 0, true, t';
        }
        k := k + 1;
      }
      sz := newsz;
    }

    /** growproc, for the process with this table and size: every mapped page stays below sz. */
    method Growproc(root: nat, sz: nat, n: int, ghost t: Tree) returns (ok: bool, sz': nat, ghost t': Tree)
      requires Owns(t) && t.frame == root && Bounded(t, sz) && PagesOf(sz) <= PAGES
      requires n > 0 ==> PagesOf(sz + n) <= PAGES
      modifies this
      ensures Owns(t') && t'.frame == root && Frames(t') + free == Frames(t) + old(free)
      ensures Bounded(t', sz') && (!ok ==> sz' == sz && Alike(t, t'))
      ensures !ok ==> if n > 0 then Size(old(free)) < 4 * (PagesOf(sz + n) - PagesOf(sz)) else -n > sz
      ensures ok ==> sz' == sz + n
      ensures ok && n > 0 ==> GrownUpTo(t, t', PagesOf(sz), PagesOf(sz'), data)
      ensures ok && n <= 0 ==> Cut(t, t', PagesOf(sz'), PagesOf(sz))
    {
      hide Size, Apart, Frames, Holds, SameOutside;
      t', sz', ok := t, sz, true;
      if n > 0 {
        ghost var failed;
        sz', failed, t' := Uvmalloc(root, sz, sz + n, t);
        if sz' == 0 {
          return false, sz, t';
        }
      } else if n < 0 {
        if -n > sz {
          return false, sz, t;
        }
        sz', t' := Uvmdealloc(root, sz, sz + n, t);
      }
    }
  }

  const PGSIZE: nat := 4096

  /** PAGE_USER: valid page, tagged normal memory, RW for all, inner shareable, accessed, PXN. */
  const PAGE_USER: nat := 0x2000000000074B

  /** Its fields: page, MT_NORMAL_TAGGED, RW for both, inner shareable, accessed, PXN without UXN; no address bits. */
  lemma UserPageFields()
    ensures PAGE_USER % 4 == 3 && PAGE_USER / 4 % 8 == 2 && PAGE_USER / 64 % 4 == 1
    ensures PAGE_USER / 256 % 4 == 3 && PAGE_USER / 1024 % 2 == 1 && PAGE_USER / 4096 == 0x20000000000
  {
  }

  function Zeros(): (z: seq<int>)
    ensures |z| == 4096 && forall k :: 0 <= k < |z| ==> z[k] == 0
  {
    seq(PGSIZE, _ => 0)
  }

  /** PGROUNDUP(sz) in pages. */
  function PagesOf(sz: nat): (k: nat)
    ensures k * PGSIZE >= sz && (k > 0 ==> (k - 1) * PGSIZE < sz)
  {
    (sz + PGSIZE - 1) / PGSIZE
  }

  /** The translations of t' are those of t outside [lo, hi) and none inside. */
  ghost predicate Cut(t: Tree, t': Tree, lo: nat, hi: nat) {
    WellFormed(t, 0) && WellFormed(t', 0)
    && forall w :: 0 <= w < PAGES ==> Lookup(t', 0, w) == if lo <= w < hi then Unmapped else Lookup(t, 0, w)
  }

  lemma CutExact(t: Tree, lo: nat, hi: nat)
    requires WellFormed(t, 0)
    ensures Cut(t, Unmap(t, 0, 0, lo, hi), lo, hi)
  {
    forall w | 0 <= w < PAGES
      ensures Lookup(Unmap(t, 0, 0, lo, hi), 0, w) == if lo <= w < hi then Unmapped else Lookup(t, 0, w)
    {
      UnmapExact(t, 0, 0, lo, hi, w);
    }
  }

  /** Every mapped page lies below the size, rounded up. */
  ghost predicate Bounded(t: Tree, sz: nat) {
    WellFormed(t, 0) && forall w :: 0 <= w < PAGES && Lookup(t, 0, w).Mapped? ==> w < PagesOf(sz)
  }

  lemma BoundedAt(t: Tree, sz: nat, k: nat)
    requires Bounded(t, sz) && PagesOf(sz) <= k < PAGES
    ensures Lookup(t, 0, k) == Unmapped
  {
  }

  /** Two tables translate every user page alike. */
  ghost predicate Alike(t: Tree, t': Tree) {
    WellFormed(t, 0) && WellFormed(t', 0) && forall w :: 0 <= w < PAGES ==> Lookup(t', 0, w) == Lookup(t, 0, w)
  }

  /** u is t with user-accessible zeroed pages at [k0, k). */
  ghost predicate GrownUpTo(t: Tree, u: Tree, k0: nat, k: nat, data: map<nat, seq<int>>) {
    && WellFormed(t, 0) && WellFormed(u, 0)
    && forall w :: 0 <= w < PAGES ==>
         if k0 <= w < k then
           var m := Lookup(u, 0, w);
           m.Mapped? && m.flags == PAGE_USER && m.frame in data && data[m.frame] == Zeros()
         else Lookup(u, 0, w) == Lookup(t, 0, w)
  }

  lemma GrownFrame(t: Tree, u: Tree, k0: nat, k: nat, was: map<nat, seq<int>>, now: map<nat, seq<int>>, mem: nat)
    requires GrownUpTo(t, u, k0, k, was) && mem !in Frames(u) && mem in now && now == was[mem := now[mem]]
    ensures GrownUpTo(t, u, k0, k, now)
  {
    forall w | 0 <= w < PAGES && k0 <= w < k ensures Lookup(u, 0, w).Mapped? && Lookup(u, 0, w).frame != mem {
      LookupFrame(u, 0, w);
    }
  }

  lemma GrownNext(t: Tree, u: Tree, u': Tree, k0: nat, k: nat, data: map<nat, seq<int>>, mem: nat)
    requires GrownUpTo(t, u, k0, k, data) && MapsOne(u, u', k, mem, PAGE_USER) && k0 <= k
    requires mem in data && data[mem] == Zeros()
    ensures GrownUpTo(t, u', k0, k + 1, data)
  {
  }

  lemma GrownSame(t: Tree, u: Tree, u': Tree, k0: nat, k: nat, data: map<nat, seq<int>>)
    requires GrownUpTo(t, u, k0, k, data) && Same(u, u')
    ensures GrownUpTo(t, u', k0, k, data)
  {
  }

  /** Cutting what was grown restores the translations. */
  lemma RolledBack(t: Tree, u: Tree, t': Tree, sz: nat, k: nat, data: map<nat, seq<int>>)
    requires Bounded(t, sz) && GrownUpTo(t, u, PagesOf(sz), k, data) && PagesOf(sz) <= k
    requires Cut(u, t', PagesOf(PagesOf(sz) * PGSIZE), if PagesOf(sz) * PGSIZE < k * PGSIZE then PagesOf(k * PGSIZE) else 0)
    ensures Alike(t, t')
  {
  }

  /** Every mapped page of t has contents. */
  ghost predicate Backed(t: Tree, data: map<nat, seq<int>>) {
    WellFormed(t, 0) && forall v :: 0 <= v < PAGES && Lookup(t, 0, v).Mapped? ==> Lookup(t, 0, v).frame in data
  }

  /** a and b are the translations of one page before and after copying: same bits, same contents. */
  ghost predicate SamePage(a: Mapping, b: Mapping, data: map<nat, seq<int>>) {
    match a
    case Unmapped => b == Unmapped
    case Mapped(f, flags) => b.Mapped? && b.flags == flags && f in data && b.frame in data && data[b.frame] == data[f]
  }

  /** Below v, td copies ts; from v on it is td0. */
  ghost predicate CopiedUpTo(ts: Tree, td0: Tree, td: Tree, v: nat, data: map<nat, seq<int>>) {
    && WellFormed(ts, 0) && WellFormed(td0, 0) && WellFormed(td, 0)
    && forall w :: 0 <= w < PAGES ==>
         if w < v then SamePage(Lookup(ts, 0, w), Lookup(td, 0, w), data) else Lookup(td, 0, w) == Lookup(td0, 0, w)
  }

  /** Filling a page neither table uses spoils no copy. */
  lemma CopiedFrame(ts: Tree, td0: Tree, td: Tree, v: nat, was: map<nat, seq<int>>, now: map<nat, seq<int>>, mem: nat)
    requires CopiedUpTo(ts, td0, td, v, was) && mem !in Frames(ts) && mem !in Frames(td) && mem in now
    requires now == was[mem := now[mem]]
    ensures CopiedUpTo(ts, td0, td, v, now)
  {
    forall w | 0 <= w < PAGES && w < v ensures SamePage(Lookup(ts, 0, w), Lookup(td, 0, w), now) {
      assert SamePage(Lookup(ts, 0, w), Lookup(td, 0, w), was);
      if Lookup(ts, 0, w).Mapped? { LookupFrame(ts, 0, w); LookupFrame(td, 0, w); }
    }
  }

  lemma CopiedNext(ts: Tree, td0: Tree, td: Tree, td': Tree, v: nat, data: map<nat, seq<int>>, mem: nat, flags: nat)
    requires CopiedUpTo(ts, td0, td, v, data) && MapsOne(td, td', v, mem, flags) && v < PAGES
    requires SamePage(Lookup(ts, 0, v), Mapped(mem, flags), data)
    ensures CopiedUpTo(ts, td0, td', v + 1, data)
  {
  }

  lemma CopiedSame(ts: Tree, td0: Tree, td: Tree, td': Tree, v: nat, data: map<nat, seq<int>>)
    requires CopiedUpTo(ts, td0, td, v, data) && Same(td, td')
    ensures CopiedUpTo(ts, td0, td', v, data)
  {
  }

  /** Pages of the 48-bit user address space. */
  const PAGES: nat := ENTRIES * Span(0)

  /** The m physical pages from `frame` on. */
  function Run(frame: nat, m: nat): (r: set<nat>)
    ensures forall f :: f in r <==> frame <= f < frame + m
  {
    if m == 0 then {} else Run(frame, m - 1) + {frame + m - 1}
  }

  /** t' is t with page v mapped. */
  ghost predicate MapsOne(t: Tree, t': Tree, v: nat, frame: nat, perm: nat) {
    WellFormed(t, 0) && WellFormed(t', 0)
    && forall w :: 0 <= w < PAGES ==> Lookup(t', 0, w) == if w == v then Mapped(frame, perm) else Lookup(t, 0, w)
  }

  /** ... with the m pages from v on mapped to consecutive physical pages. */
  ghost predicate MapsRun(t: Tree, t': Tree, v: nat, m: nat, frame: nat, perm: nat) {
    WellFormed(t, 0) && WellFormed(t', 0)
    && forall w :: 0 <= w < PAGES ==>
         Lookup(t', 0, w) == if v <= w < v + m then Mapped(frame + (w - v), perm) else Lookup(t, 0, w)
  }

  lemma MapsRunNext(t: Tree, u: Tree, t': Tree, v: nat, m: nat, frame: nat, perm: nat)
    requires MapsRun(t, u, v, m, frame, perm) && MapsOne(u, t', v + m, frame + m, perm)
    ensures MapsRun(t, t', v, m + 1, frame, perm)
  {
  }

  /** Writing a leaf entry at the end of a complete path. */
  lemma NewLeaf(was: map<nat, seq<Pte>>, now: map<nat, seq<Pte>>, t: Tree, u: Tree, v: nat, f: nat, perm: nat)
    requires Same(t, u) && v < PAGES && Apart(u) && Holds(was, u, 0) && HasPath(u, 0, v, 3)
    requires KidAt(u, 0, v, 3).Nil? && f !in Frames(u)
    requires var x := NodeAt(u, 0, v, 3).frame;
             && x in was && |was[x]| == ENTRIES
             && now == was[x := was[x][IndexOf(3, v) := Pte(f, perm)]]
    ensures var t' := Insert(u, 0, v, 3, Sub(Leaf(f, perm)));
            && WellFormed(t', 0) && Apart(t') && Holds(now, t', 0) && MapsOne(t, t', v, f, perm)
            && Frames(t') == Frames(u) + {f}
  {
    hide Apart, Frames, IndexOf, HasPath;
    var k := Sub(Leaf(f, perm));
    LeafAlone(f, perm);
    InsertFrames(u, 0, v, 3, k, f);
    HoldsInsert(was, now, u, 0, v, 3, k, f);
    forall w | 0 <= w < PAGES
      ensures Lookup(Insert(u, 0, v, 3, k), 0, w) == if w == v then Mapped(f, perm) else Lookup(u, 0, w)
    {
      InsertLeafLookup(u, 0, 0, v, f, perm, w);
    }
  }

  lemma LeafAlone(f: nat, perm: nat)
    ensures Frames(Leaf(f, perm)) == {f} && Apart(Leaf(f, perm))
  {
  }

  /** Two trees translate every page alike. */
  ghost predicate Same(t: Tree, t': Tree) {
    WellFormed(t, 0) && WellFormed(t', 0) && forall w :: Lookup(t', 0, w) == Lookup(t, 0, w)
  }

  lemma {:induction false} NodeHolds(tables: map<nat, seq<Pte>>, t: Tree, level: nat, v: nat, depth: nat)
    requires level <= depth <= 3 && WellFormed(t, level) && Holds(tables, t, level) && HasPath(t, level, v, depth)
    ensures Holds(tables, NodeAt(t, level, v, depth), depth)
    ensures var x := NodeAt(t, level, v, depth);
            x.frame in tables && |tables[x.frame]| == ENTRIES
            && Matches(tables[x.frame][IndexOf(depth, v)], x.kids[IndexOf(depth, v)], depth)
    decreases t
  {
    if level < depth { NodeHolds(tables, t.kids[IndexOf(level, v)].t, level + 1, v, depth); }
  }

  /** Writing one free entry at `depth`, and its new page f, gives the tree with k inserted. */
  lemma {:induction false} HoldsInsert(was: map<nat, seq<Pte>>, now: map<nat, seq<Pte>>, t: Tree, level: nat, v: nat,
                                       depth: nat, k: Kid, f: nat)
    requires level <= depth <= 3 && WellFormed(t, level) && Apart(t) && Holds(was, t, level) && HasPath(t, level, v, depth)
    requires KidAt(t, level, v, depth).Nil? && k.Sub? && WellFormed(k.t, depth + 1) && Holds(now, k.t, depth + 1)
    requires Frames(k.t) == {f} && f !in Frames(t) && Apart(k.t)
    requires SameOutside(was, now, {f, NodeAt(t, level, v, depth).frame})
    requires Written(was, now, NodeAt(t, level, v, depth).frame, IndexOf(depth, v), k, depth)
    ensures Holds(now, Insert(t, level, v, depth, k), level)
    decreases t
  {
    hide Apart, Frames, IndexOf, SameOutside;
    var i, x := IndexOf(level, v), NodeAt(t, level, v, depth);
    KidApart(t, i);
    EntryHolds(was, t, level, i);
    if level == depth {
      OutsideMono(was, now, {f, x.frame}, KidFrames(t.kids[i]) + KidFrames(k) + {t.frame});
      HoldsPut(was, now, t, level, i, k);
    } else {
      var c := t.kids[i].t;
      HoldsInsert(was, now, c, level + 1, v, depth, k, f);
      InsertFrames(c, level + 1, v, depth, k, f);
      var k' := Sub(Insert(c, level + 1, v, depth, k));
      assert x == NodeAt(c, level + 1, v, depth) && x.frame in Frames(c);
      TableKept(was, now, {f, x.frame}, t.frame);
      OutsideMono(was, now, {f, x.frame}, KidFrames(t.kids[i]) + KidFrames(k') + {t.frame});
      HoldsPut(was, now, t, level, i, k');
    }
  }

  /** Entry i of the page now matches k, and its other entries are as before. */
  ghost predicate Written(was: map<nat, seq<Pte>>, now: map<nat, seq<Pte>>, table: nat, i: nat, k: Kid, level: nat) {
    && table in was && |was[table]| == ENTRIES && table in now && |now[table]| == ENTRIES && i < ENTRIES
    && Matches(now[table][i], k, level)
    && forall j :: 0 <= j < ENTRIES && j != i ==> now[table][j] == was[table][j]
  }

  /** Hanging an empty table under a free entry. */
  lemma NewTable(was: map<nat, seq<Pte>>, now: map<nat, seq<Pte>>, t: Tree, v: nat, level: nat, f: nat)
    requires level < 3 && WellFormed(t, 0) && Apart(t) && Holds(was, t, 0) && HasPath(t, 0, v, level)
    requires KidAt(t, 0, v, level).Nil? && f !in Frames(t)
    requires var x := NodeAt(t, 0, v, level).frame;
             && x in was && |was[x]| == ENTRIES
             && now == was[f := seq(ENTRIES, _ => Zero)][x := was[x][IndexOf(level, v) := Pte(f, TABLE_BITS)]]
    ensures var t' := Insert(t, 0, v, level, Sub(EmptyTable(f)));
            && WellFormed(t', 0) && Apart(t') && Holds(now, t', 0) && Same(t, t') && Frames(t') == Frames(t) + {f}
            && HasPath(t', 0, v, level + 1) && NodeAt(t', 0, v, level + 1).frame == f
            && SameOutside(was, now, Frames(t'))
  {
    hide Apart, Frames, IndexOf, HasPath;
    var k, x := Sub(EmptyTable(f)), NodeAt(t, 0, v, level).frame;
    var t' := Insert(t, 0, v, level, k);
    InsertFrames(t, 0, v, level, k, f);
    InsertPath(t, 0, v, level, k);
    HoldsInsert(was, now, t, 0, v, level, k, f);
    forall w ensures Lookup(t', 0, w) == Lookup(t, 0, w) { InsertTableLookup(t, 0, v, level, f, w); }
  }

  lemma TableKept(was: map<nat, seq<Pte>>, now: map<nat, seq<Pte>>, owned: set<nat>, f: nat)
    requires SameOutside(was, now, owned) && f !in owned
    ensures (f in was <==> f in now) && (f in was ==> was[f] == now[f])
  {
  }

  lemma WriteOutside(was: map<nat, seq<Pte>>, table: nat, i: nat, e: Pte)
    requires table in was && i < |was[table]|
    ensures SameOutside(was, was[table := was[table][i := e]], {table})
  {
  }

  /** What Holds says of one entry. */
  lemma EntryHolds(tables: map<nat, seq<Pte>>, t: Tree, level: nat, i: nat)
    requires level <= 3 && WellFormed(t, level) && Holds(tables, t, level) && i < ENTRIES
    ensures t.Table? && |t.kids| == ENTRIES && t.frame in tables && |tables[t.frame]| == ENTRIES
    ensures Matches(tables[t.frame][i], t.kids[i], level)
    ensures t.kids[i].Sub? ==> WellFormed(t.kids[i].t, level + 1) && Holds(tables, t.kids[i].t, level + 1)
  {
  }

  lemma EmptyMatches(tables: map<nat, seq<Pte>>, t: Tree, level: nat)
    requires level <= 3 && WellFormed(t, level) && Holds(tables, t, level)
    ensures t.frame in tables && |tables[t.frame]| == ENTRIES
    ensures IsEmpty(t) <==> forall j :: 0 <= j < ENTRIES ==> tables[t.frame][j] == Zero
  {
    assert forall j :: 0 <= j < ENTRIES ==> Matches(tables[t.frame][j], t.kids[j], level);
  }

  lemma EmptyFrames(t: Tree)
    requires IsEmpty(t)
    ensures Frames(t) == {t.frame}
  {
  }

  /** Entry n, starting below hi, is inside the table. */
  lemma EntryInside(level: nat, base: nat, hi: nat, n: nat, va: nat)
    requires level <= 3 && n <= ENTRIES && va == base + n * Span(level) && va < hi <= base + ENTRIES * Span(level)
    ensures n < ENTRIES
  {
  }

  /** Entries before the one lo falls in are left alone. */
  lemma BelowRange(t: Tree, level: nat, base: nat, lo: nat, hi: nat, n: nat)
    requires level <= 3 && WellFormed(t, level) && base + n * Span(level) <= lo
    ensures Partly(t, t, level, base, lo, hi, n)
  {
    forall j | 0 <= j < n && j < ENTRIES ensures t.kids[j] == UnmapKid(t.kids[j], level, base + j * Span(level), lo, hi) {
      MulMono(j + 1, n, Span(level));
    }
  }

  /** ... and so are those after hi. */
  lemma AboveRange(u: Tree, t: Tree, level: nat, base: nat, lo: nat, hi: nat, n: nat)
    requires level <= 3 && WellFormed(t, level) && Partly(u, t, level, base, lo, hi, n) && hi <= base + n * Span(level)
    ensures u == Unmap(t, level, base, lo, hi)
  {
    forall j | n <= j < ENTRIES ensures t.kids[j] == UnmapKid(t.kids[j], level, base + j * Span(level), lo, hi) {
      MulMono(n, j, Span(level));
    }
    assert u.kids == Unmap(t, level, base, lo, hi).kids;
  }

  /** fork copies the pages below sz into an empty table; since the parent maps nothing above,
      that is its whole address space, and the child's size bounds the child's pages. */
  lemma ForkComplete(ts: Tree, td0: Tree, td: Tree, sz: nat, data: map<nat, seq<int>>)
    requires Bounded(ts, sz) && CopiedUpTo(ts, td0, td, PagesOf(sz), data) && IsEmpty(td0)
    ensures forall w :: 0 <= w < PAGES ==> SamePage(Lookup(ts, 0, w), Lookup(td, 0, w), data)
    ensures Bounded(td, sz)
  {
    assert forall w :: 0 <= w < PAGES ==> Lookup(td0, 0, w) == Unmapped;
    forall w | 0 <= w < PAGES ensures SamePage(Lookup(ts, 0, w), Lookup(td, 0, w), data) {
      if w >= PagesOf(sz) { assert Lookup(td, 0, w) == Lookup(td0, 0, w); }
    }
  }
}

/**
 A user page table as a tree, and what unmapping a range means on it.

 Addresses are page numbers.  The entry at index i of a table at `level` whose first page is
 `base` covers the Span(level) pages from base + i * Span(level).
 */
module PageTree {

  const ENTRIES: nat := 512

  /** What one table entry refers to: nothing, a child table or a mapped page. */
  datatype Kid = Nil | Sub(t: Tree)

  datatype Tree =
    | Leaf(frame: nat, flags: nat)
    | Table(frame: nat, kids: seq<Kid>)

  datatype Mapping = Unmapped | Mapped(frame: nat, flags: nat)

  /** Pages covered by one entry at this level: 1 << (pt_shift[level] - 12). */
  function Span(level: nat): (s: nat)
    requires level <= 3
    ensures s >= 1
  {
    if level == 0 then 134217728 else if level == 1 then 262144 else if level == 2 then 512 else 1
  }

  function IndexOf(level: nat, v: nat): (i: nat)
    requires level <= 3
    ensures i < ENTRIES
  {
    (v / Span(level)) % ENTRIES
  }

  /** base is the first page of some table at this level. */
  predicate Aligned(level: nat, base: nat)
    requires level <= 3
  {
    base % (ENTRIES * Span(level)) == 0
  }

  /** v lies under the table of this level that starts at base. */
  predicate Under(level: nat, base: nat, v: nat)
    requires level <= 3
  {
    base <= v < base + ENTRIES * Span(level)
  }

  lemma MulMono(a: nat, b: nat, s: nat)
    requires a <= b
    ensures a * s <= b * s
  {
  }

  lemma DivUnique(v: nat, s: nat, k: nat)
    requires s >= 1 && k * s <= v < k * s + s
    ensures v / s == k
  {
    var q := v / s;
    if q < k { MulMono(q + 1, k, s); }
    if q > k { MulMono(k + 1, q, s); }
  }

  lemma SpanNext(level: nat)
    requires level < 3
    ensures ENTRIES * Span(level + 1) == Span(level)
  {
  }

  lemma MulDivides(k: nat, s: nat)
    requires s >= 1
    ensures (k * s) % s == 0
  {
    DivUnique(k * s, s, k);
  }

  /** Where the entry for v starts. */
  lemma EntryOf(level: nat, base: nat, v: nat)
    requires level <= 3 && Aligned(level, base) && Under(level, base, v)
    ensures var i, s := IndexOf(level, v), Span(level);
            && base + i * s <= v < base + i * s + s
            && v / s * s == base + i * s
            && (level < 3 ==> Aligned(level + 1, base + i * s))
  {
    var s, d := Span(level), v - base;
    var q, i := base / (ENTRIES * s), d / s;
    assert base == q * (ENTRIES * s);
    if i >= ENTRIES { MulMono(ENTRIES, i, s); }
    EntryAt(level, base, q, i, v);
  }

  /** base is the q-th table of its level, i an index in it and v a page of entry i. */
  lemma EntryAt(level: nat, base: nat, q: nat, i: nat, v: nat)
    requires level <= 3 && base == q * (ENTRIES * Span(level)) && i < ENTRIES
    requires base + i * Span(level) <= v < base + i * Span(level) + Span(level)
    ensures IndexOf(level, v) == i && v / Span(level) * Span(level) == base + i * Span(level)
    ensures level < 3 ==> Aligned(level + 1, base + i * Span(level))
  {
    var s, k := Span(level), q * ENTRIES + i;
    assert k * s == base + i * s;
    DivUnique(v, s, k);
    if level < 3 {
      SpanNext(level);
      MulDivides(k, s);
    }
  }

  /** Entry i of an aligned table starts an aligned table of the next level. */
  lemma EntryStart(level: nat, base: nat, i: nat)
    requires level <= 3 && Aligned(level, base) && i < ENTRIES
    ensures IndexOf(level, base + i * Span(level)) == i
    ensures level < 3 ==> Aligned(level + 1, base + i * Span(level))
    ensures level < 3 ==> ENTRIES * Span(level + 1) == Span(level)
  {
    var s := Span(level);
    var q := base / (ENTRIES * s);
    assert base == q * (ENTRIES * s);
    EntryAt(level, base, q, i, base + i * s);
    if level < 3 { SpanNext(level); }
  }

  predicate WellFormed(t: Tree, level: nat)
    requires level <= 4
    decreases t
  {
    if level == 4 then t.Leaf?
    else
      && t.Table? && |t.kids| == ENTRIES
      && forall i :: 0 <= i < |t.kids| && t.kids[i].Sub? ==> WellFormed(t.kids[i].t, level + 1)
  }

  /** Every physical page reachable from t, t's own included. */
  function Frames(t: Tree): (r: set<nat>)
    ensures t.frame in r
    decreases t
  {
    if t.Leaf? then {t.frame}
    else {t.frame} + set i, f | 0 <= i < |t.kids| && t.kids[i].Sub? && f in Frames(t.kids[i].t) :: f
  }

  function KidFrames(k: Kid): set<nat> {
    if k.Nil? then {} else Frames(k.t)
  }

  /** No physical page is reachable twice. */
  ghost predicate Apart(t: Tree)
    decreases t
  {
    t.Table? ==>
      && (forall i :: 0 <= i < |t.kids| ==> t.frame !in KidFrames(t.kids[i]))
      && (forall i, j :: 0 <= i < j < |t.kids| ==> KidFrames(t.kids[i]) !! KidFrames(t.kids[j]))
      && (forall i :: 0 <= i < |t.kids| && t.kids[i].Sub? ==> Apart(t.kids[i].t))
  }

  /** The translation of page v: what the hardware walk finds. */
  function Lookup(t: Tree, level: nat, v: nat): Mapping
    requires level <= 4 && WellFormed(t, level)
    decreases t
  {
    if level == 4 then Mapped(t.frame, t.flags)
    else
      var k := t.kids[IndexOf(level, v)];
      if k.Nil? then Unmapped else Lookup(k.t, level + 1, v)
  }

  predicate IsEmpty(t: Tree) {
    t.Table? && forall i :: 0 <= i < |t.kids| ==> t.kids[i].Nil?
  }

  function Max(a: nat, b: nat): nat { if a > b then a else b }
  function Min(a: nat, b: nat): nat { if a < b then a else b }

  /** The entry that starts at va meets [lo, hi). */
  predicate Meets(level: nat, va: nat, lo: nat, hi: nat)
    requires level <= 3
  {
    lo < va + Span(level) && va < hi
  }

  /** What uvmunmap_range leaves of one entry. */
  function UnmapKid(k: Kid, level: nat, va: nat, lo: nat, hi: nat): (r: Kid)
    requires level <= 3 && (k.Sub? ==> WellFormed(k.t, level + 1))
    ensures r.Sub? ==> k.Sub? && WellFormed(r.t, level + 1) && r.t.frame == k.t.frame
    decreases k, 0
  {
    if k.Nil? || !Meets(level, va, lo, hi) then k
    else if level == 3 then Nil
    else
      var c := Unmap(k.t, level + 1, va, Max(lo, va), Min(hi, va + Span(level)));
      if IsEmpty(c) then Nil else Sub(c)
  }

  /** ... and of the table at `level` that starts at base. */
  function Unmap(t: Tree, level: nat, base: nat, lo: nat, hi: nat): (r: Tree)
    requires level <= 3 && WellFormed(t, level)
    ensures WellFormed(r, level) && r.frame == t.frame
    decreases t, 1
  {
    Table(t.frame, seq(|t.kids|, i requires 0 <= i < |t.kids| =>
      UnmapKid(t.kids[i], level, base + i * Span(level), lo, hi)))
  }

  /** Unmapping removes exactly the translations in the range. */
  lemma {:induction false} UnmapExact(t: Tree, level: nat, base: nat, lo: nat, hi: nat, v: nat)
    requires level <= 3 && WellFormed(t, level) && Aligned(level, base) && Under(level, base, v)
    ensures Lookup(Unmap(t, level, base, lo, hi), level, v) ==
              if lo <= v < hi then Unmapped else Lookup(t, level, v)
    decreases t
  {
    hide IndexOf, Aligned;
    EntryOf(level, base, v);
    var i := IndexOf(level, v);
    var k, va := t.kids[i], base + i * Span(level);
    if level < 3 { SpanNext(level); }
    if k.Sub? && Meets(level, va, lo, hi) && level < 3 {
      UnmapExact(k.t, level + 1, va, Max(lo, va), Min(hi, va + Span(level)), v);
    }
  }

  lemma {:induction false} LookupFrame(t: Tree, level: nat, v: nat)
    requires level <= 4 && WellFormed(t, level) && Lookup(t, level, v).Mapped?
    ensures Lookup(t, level, v).frame in Frames(t)
    decreases t
  {
    if level < 4 {
      LookupFrame(t.kids[IndexOf(level, v)].t, level + 1, v);
    }
  }

  lemma {:induction false} UnmapFrames(t: Tree, level: nat, base: nat, lo: nat, hi: nat)
    requires level <= 3 && WellFormed(t, level)
    ensures Frames(Unmap(t, level, base, lo, hi)) <= Frames(t)
    decreases t
  {
    var r := Unmap(t, level, base, lo, hi);
    forall i | 0 <= i < |t.kids| ensures KidFrames(r.kids[i]) <= KidFrames(t.kids[i]) {
      UnmapKidFrames(t.kids[i], t, level, base + i * Span(level), lo, hi);
    }
  }

  lemma {:induction false} UnmapKidFrames(k: Kid, t: Tree, level: nat, va: nat, lo: nat, hi: nat)
    requires level <= 3 && (k.Sub? ==> WellFormed(k.t, level + 1)) && t.Table? && k in t.kids
    ensures KidFrames(UnmapKid(k, level, va, lo, hi)) <= KidFrames(k)
    decreases t, 0
  {
    if k.Sub? && Meets(level, va, lo, hi) && level < 3 {
      UnmapFrames(k.t, level + 1, va, Max(lo, va), Min(hi, va + Span(level)));
    }
  }

  /** What Apart says of one entry, and of two. */
  lemma KidApart(t: Tree, j: nat)
    requires t.Table? && j < |t.kids| && Apart(t)
    ensures KidFrames(t.kids[j]) <= Frames(t) && t.frame !in KidFrames(t.kids[j])
    ensures t.kids[j].Sub? ==> Apart(t.kids[j].t)
  {
  }

  lemma KidsApart(t: Tree, i: nat, j: nat)
    requires t.Table? && i < |t.kids| && j < |t.kids| && i != j && Apart(t)
    ensures KidFrames(t.kids[i]) !! KidFrames(t.kids[j])
  {
    if i < j { assert KidFrames(t.kids[i]) !! KidFrames(t.kids[j]); } else { assert KidFrames(t.kids[j]) !! KidFrames(t.kids[i]); }
  }

  /* ---- replacing one entry ---- */

  function Put(t: Tree, i: nat, k: Kid): Tree
    requires t.Table? && i < |t.kids|
  {
    Table(t.frame, t.kids[i := k])
  }

  lemma PutFrames(t: Tree, i: nat, k: Kid)
    requires t.Table? && i < |t.kids| && Apart(t)
    ensures Frames(Put(t, i, k)) == Frames(t) - KidFrames(t.kids[i]) + KidFrames(k)
  {
    var r := Put(t, i, k);
    forall f | f in Frames(t) - KidFrames(t.kids[i]) ensures f in Frames(r) {
      if f != t.frame {
        var j :| 0 <= j < |t.kids| && t.kids[j].Sub? && f in Frames(t.kids[j].t);
        assert r.kids[j] == t.kids[j];
      }
    }
    forall f | f in KidFrames(k) ensures f in Frames(r) {
      assert r.kids[i] == k;
    }
    forall f | f in Frames(r) && f != t.frame ensures f in Frames(t) - KidFrames(t.kids[i]) + KidFrames(k) {
      var j :| 0 <= j < |r.kids| && r.kids[j].Sub? && f in Frames(r.kids[j].t);
      if j != i {
        assert f in KidFrames(t.kids[j]);
        assert KidFrames(t.kids[j]) !! KidFrames(t.kids[i]);
      }
    }
  }

  lemma PutApart(t: Tree, i: nat, k: Kid)
    requires t.Table? && i < |t.kids| && Apart(t) && (k.Sub? ==> Apart(k.t))
    requires KidFrames(k) !! (Frames(t) - KidFrames(t.kids[i]))
    ensures Apart(Put(t, i, k))
  {
    var r := Put(t, i, k);
    forall j | 0 <= j < |t.kids| && j != i ensures KidFrames(t.kids[j]) !! KidFrames(k) && t.frame !in KidFrames(k) {
      assert KidFrames(t.kids[j]) <= Frames(t);
      assert KidFrames(t.kids[j]) !! KidFrames(t.kids[i]);
      assert t.frame !in KidFrames(t.kids[i]);
    }
    assert t.frame !in KidFrames(t.kids[i]);
  }

  /* ---- what leaves and what stays ---- */

  lemma {:induction false} UnmapApart(t: Tree, level: nat, base: nat, lo: nat, hi: nat)
    requires level <= 3 && WellFormed(t, level) && Apart(t)
    ensures Apart(Unmap(t, level, base, lo, hi))
    decreases t
  {
    var r := Unmap(t, level, base, lo, hi);
    forall i | 0 <= i < |t.kids|
      ensures KidFrames(r.kids[i]) <= KidFrames(t.kids[i]) && (r.kids[i].Sub? ==> Apart(r.kids[i].t))
    {
      var k, va := t.kids[i], base + i * Span(level);
      UnmapKidFrames(k, t, level, va, lo, hi);
      if k.Sub? && Meets(level, va, lo, hi) && level < 3 {
        UnmapApart(k.t, level + 1, va, Max(lo, va), Min(hi, va + Span(level)));
      }
    }
  }

  /** f, reachable under entry i only, stays out of the other entries. */
  lemma OtherEntries(t: Tree, level: nat, base: nat, lo: nat, hi: nat, i: nat, f: nat)
    requires level <= 3 && WellFormed(t, level) && Apart(t) && i < |t.kids| && f in KidFrames(t.kids[i])
    ensures var r := Unmap(t, level, base, lo, hi);
            f != r.frame && forall j :: 0 <= j < |t.kids| && j != i ==> f !in KidFrames(r.kids[j])
  {
    var r := Unmap(t, level, base, lo, hi);
    forall j | 0 <= j < |t.kids| && j != i ensures f !in KidFrames(r.kids[j]) {
      UnmapKidFrames(t.kids[j], t, level, base + j * Span(level), lo, hi);
      assert KidFrames(t.kids[i]) !! KidFrames(t.kids[j]);
    }
  }

  lemma NotUnder(t: Tree, f: nat)
    requires t.Table? && f != t.frame && forall j :: 0 <= j < |t.kids| ==> f !in KidFrames(t.kids[j])
    ensures f !in Frames(t)
  {
  }

  /** A page unmapped is no longer reachable. */
  lemma {:induction false} RemovedUnreachable(t: Tree, level: nat, base: nat, lo: nat, hi: nat, v: nat)
    requires level <= 3 && WellFormed(t, level) && Apart(t) && Aligned(level, base) && Under(level, base, v)
    requires lo <= v < hi && Lookup(t, level, v).Mapped?
    ensures Lookup(t, level, v).frame !in Frames(Unmap(t, level, base, lo, hi))
    decreases t
  {
    hide Apart, Frames, IndexOf, Aligned;
    EntryOf(level, base, v);
    var i := IndexOf(level, v);
    var k, va := t.kids[i], base + i * Span(level);
    LookupFrame(k.t, level + 1, v);
    KidApart(t, i);
    var f, r := Lookup(t, level, v).frame, Unmap(t, level, base, lo, hi);
    OtherEntries(t, level, base, lo, hi, i, f);
    if level < 3 {
      SpanNext(level);
      RemovedUnreachable(k.t, level + 1, va, Max(lo, va), Min(hi, va + Span(level)), v);
    }
    assert f !in KidFrames(r.kids[i]);
    NotUnder(r, f);
  }

  /** Every table below t maps something. */
  predicate Tidy(t: Tree, level: nat)
    requires level <= 4 && WellFormed(t, level)
    decreases t
  {
    level < 3 ==> forall i :: 0 <= i < |t.kids| && t.kids[i].Sub? ==> !IsEmpty(t.kids[i].t) && Tidy(t.kids[i].t, level + 1)
  }

  /** Collapsing leaves no empty table behind. */
  lemma {:induction false} UnmapTidy(t: Tree, level: nat, base: nat, lo: nat, hi: nat)
    requires level <= 3 && WellFormed(t, level) && Tidy(t, level)
    ensures Tidy(Unmap(t, level, base, lo, hi), level)
    decreases t
  {
    forall i | 0 <= i < |t.kids| && t.kids[i].Sub? && level < 3
      ensures var va := base + i * Span(level);
              Tidy(Unmap(t.kids[i].t, level + 1, va, Max(lo, va), Min(hi, va + Span(level))), level + 1)
    {
      var va := base + i * Span(level);
      UnmapTidy(t.kids[i].t, level + 1, va, Max(lo, va), Min(hi, va + Span(level)));
    }
  }

  /** In a tidy tree a non-empty table maps some page under it, so a table that survives
      unmapping is one that still has a mapped page. */
  lemma {:induction false} TidyMapsSomething(t: Tree, level: nat, base: nat) returns (v: nat)
    requires level <= 3 && WellFormed(t, level) && Tidy(t, level) && !IsEmpty(t) && Aligned(level, base)
    ensures Under(level, base, v) && Lookup(t, level, v).Mapped?
    decreases t
  {
    var i :| 0 <= i < |t.kids| && t.kids[i].Sub?;
    var va := base + i * Span(level);
    EntryStart(level, base, i);
    MulMono(i + 1, ENTRIES, Span(level));
    if level == 3 {
      v := va;
    } else {
      v := TidyMapsSomething(t.kids[i].t, level + 1, va);
      var q := base / (ENTRIES * Span(level));
      EntryAt(level, base, q, i, v);
    }
  }

  /* ---- growing a tree along the path of v ---- */

  /** The tables on the path of v exist down to `depth`. */
  predicate HasPath(t: Tree, level: nat, v: nat, depth: nat)
    requires level <= depth <= 3 && WellFormed(t, level)
    decreases t
  {
    level < depth ==>
      var k := t.kids[IndexOf(level, v)];
      k.Sub? && HasPath(k.t, level + 1, v, depth)
  }

  function NodeAt(t: Tree, level: nat, v: nat, depth: nat): (r: Tree)
    requires level <= depth <= 3 && WellFormed(t, level) && HasPath(t, level, v, depth)
    ensures WellFormed(r, depth) && r.frame in Frames(t)
    decreases t
  {
    if level == depth then t else NodeAt(t.kids[IndexOf(level, v)].t, level + 1, v, depth)
  }

  /** The entry for v in the table at `depth`. */
  function KidAt(t: Tree, level: nat, v: nat, depth: nat): Kid
    requires level <= depth <= 3 && WellFormed(t, level) && HasPath(t, level, v, depth)
  {
    NodeAt(t, level, v, depth).kids[IndexOf(depth, v)]
  }

  /** t with that entry replaced by k. */
  function Insert(t: Tree, level: nat, v: nat, depth: nat, k: Kid): (r: Tree)
    requires level <= depth <= 3 && WellFormed(t, level) && HasPath(t, level, v, depth)
    requires k.Sub? ==> WellFormed(k.t, depth + 1)
    ensures WellFormed(r, level) && r.frame == t.frame
    decreases t
  {
    var i := IndexOf(level, v);
    if level == depth then Put(t, i, k) else Put(t, i, Sub(Insert(t.kids[i].t, level + 1, v, depth, k)))
  }

  /** Adding one new page under a free entry. */
  lemma {:induction false} InsertFrames(t: Tree, level: nat, v: nat, depth: nat, k: Kid, f: nat)
    requires level <= depth <= 3 && WellFormed(t, level) && HasPath(t, level, v, depth) && Apart(t)
    requires KidAt(t, level, v, depth).Nil? && k.Sub? && WellFormed(k.t, depth + 1) && Apart(k.t)
    requires Frames(k.t) == {f} && f !in Frames(t)
    ensures Frames(Insert(t, level, v, depth, k)) == Frames(t) + {f} && Apart(Insert(t, level, v, depth, k))
    decreases t
  {
    hide Apart, Frames, IndexOf;
    var i := IndexOf(level, v);
    KidApart(t, i);
    if level < depth {
      InsertFrames(t.kids[i].t, level + 1, v, depth, k, f);
      var k' := Sub(Insert(t.kids[i].t, level + 1, v, depth, k));
      PutFrames(t, i, k');
      PutApart(t, i, k');
    } else {
      PutFrames(t, i, k);
      PutApart(t, i, k);
    }
  }

  lemma {:induction false} InsertPath(t: Tree, level: nat, v: nat, depth: nat, k: Kid)
    requires level <= depth < 3 && WellFormed(t, level) && HasPath(t, level, v, depth)
    requires k.Sub? && WellFormed(k.t, depth + 1)
    ensures HasPath(Insert(t, level, v, depth, k), level, v, depth + 1)
    ensures NodeAt(Insert(t, level, v, depth, k), level, v, depth + 1) == k.t
    decreases t
  {
    if level < depth { InsertPath(t.kids[IndexOf(level, v)].t, level + 1, v, depth, k); }
  }

  function EmptyTable(f: nat): (t: Tree)
    ensures IsEmpty(t) && t.frame == f && Frames(t) == {f} && Apart(t)
    ensures forall level :: 0 <= level <= 3 ==> WellFormed(t, level)
  {
    Table(f, seq(ENTRIES, _ => Nil))
  }

  /** A new empty table changes no translation. */
  lemma {:induction false} InsertTableLookup(t: Tree, level: nat, v: nat, depth: nat, f: nat, w: nat)
    requires level <= depth < 3 && WellFormed(t, level) && HasPath(t, level, v, depth)
    requires KidAt(t, level, v, depth).Nil?
    ensures Lookup(Insert(t, level, v, depth, Sub(EmptyTable(f))), level, w) == Lookup(t, level, w)
    decreases t
  {
    if level < depth && IndexOf(level, w) == IndexOf(level, v) {
      InsertTableLookup(t.kids[IndexOf(level, v)].t, level + 1, v, depth, f, w);
    }
  }

  /** A new leaf changes the translation of v alone. */
  lemma {:induction false} InsertLeafLookup(t: Tree, level: nat, base: nat, v: nat, f: nat, flags: nat, w: nat)
    requires level <= 3 && WellFormed(t, level) && HasPath(t, level, v, 3) && Aligned(level, base)
    requires Under(level, base, v) && Under(level, base, w)
    ensures Lookup(Insert(t, level, v, 3, Sub(Leaf(f, flags))), level, w) ==
              if w == v then Mapped(f, flags) else Lookup(t, level, w)
    decreases t
  {
    EntryOf(level, base, v);
    EntryOf(level, base, w);
    if level < 3 && IndexOf(level, w) == IndexOf(level, v) {
      SpanNext(level);
      InsertLeafLookup(t.kids[IndexOf(level, v)].t, level + 1, base + IndexOf(level, v) * Span(level), v, f, flags, w);
    }
  }

  /** The leaf entry that a complete path ends in decides the translation. */
  lemma {:induction false} LookupAtPath(t: Tree, level: nat, v: nat)
    requires level <= 3 && WellFormed(t, level) && HasPath(t, level, v, 3)
    ensures var k := KidAt(t, level, v, 3);
            (k.Sub? ==> k.t.Leaf?) && Lookup(t, level, v) == if k.Nil? then Unmapped else Mapped(k.t.frame, k.t.flags)
    decreases t
  {
    if level < 3 { LookupAtPath(t.kids[IndexOf(level, v)].t, level + 1, v); }
  }

  /** A path that breaks off leaves v unmapped. */
  lemma {:induction false} BrokenPath(t: Tree, level: nat, v: nat, depth: nat)
    requires level <= depth < 3 && WellFormed(t, level) && HasPath(t, level, v, depth) && KidAt(t, level, v, depth).Nil?
    ensures Lookup(t, level, v) == Unmapped
    decreases t
  {
    if level < depth { BrokenPath(t.kids[IndexOf(level, v)].t, level + 1, v, depth); }
  }

  lemma {:induction false} PathDown(t: Tree, level: nat, v: nat, depth: nat)
    requires level <= depth < 3 && WellFormed(t, level) && HasPath(t, level, v, depth) && KidAt(t, level, v, depth).Sub?
    ensures HasPath(t, level, v, depth + 1) && NodeAt(t, level, v, depth + 1) == KidAt(t, level, v, depth).t
    decreases t
  {
    if level < depth { PathDown(t.kids[IndexOf(level, v)].t, level + 1, v, depth); }
  }
}

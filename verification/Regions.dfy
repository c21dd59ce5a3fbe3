/**
 The region lists of physmem.c: intervals in order with gaps between them, edited in
 place, and the subtraction that publishes the free segments.

 A list stands for the set of addresses it covers.  Lists in normal form that cover the
 same addresses are equal, so what is published depends only on the set of what was
 recorded and not on the order or the overlap of the calls.
 */
module Regions {
  import opened Wrappers

  datatype Region = Region(addr: nat, size: nat) {
    function End(): nat { addr + size }
  }

  predicate Inside(r: Region, x: nat) {
    r.addr <= x < r.End()
  }

  predicate Covers(s: seq<Region>, x: nat) {
    exists i :: 0 <= i < |s| && Inside(s[i], x)
  }

  /** No empty interval, increasing, and neither overlapping nor touching. */
  predicate Normal(s: seq<Region>) {
    && (forall i :: 0 <= i < |s| ==> s[i].size > 0)
    && (forall i, j :: 0 <= i < j < |s| ==> s[i].End() < s[j].addr)
  }

  /* ---- normal form is canonical ---- */

  lemma NormalTail(s: seq<Region>)
    requires Normal(s) && s != []
    ensures Normal(s[1..])
    ensures forall x: nat :: Covers(s[1..], x) <==> Covers(s, x) && x >= s[0].End()
  {
    var t := s[1..];
    assert forall i :: 0 <= i < |t| ==> t[i] == s[i + 1];
    forall x: nat ensures Covers(t, x) <==> Covers(s, x) && x >= s[0].End() {
      if i :| 0 <= i < |t| && Inside(t[i], x) { assert Inside(s[i + 1], x); }
      if i :| 0 <= i < |s| && Inside(s[i], x) && x >= s[0].End() { assert Inside(t[i - 1], x); }
    }
  }

  /** The first interval runs from the least address covered to the first one above it that is not. */
  lemma HeadExact(s: seq<Region>)
    requires Normal(s) && s != []
    ensures forall x: nat :: s[0].addr <= x < s[0].End() ==> Covers(s, x)
    ensures forall x: nat :: x < s[0].addr || x == s[0].End() ==> !Covers(s, x)
  {
    forall x: nat | Inside(s[0], x) ensures Covers(s, x) { }
  }

  lemma SameHead(s: seq<Region>, t: seq<Region>)
    requires Normal(s) && Normal(t) && s != [] && t != []
    requires forall x: nat :: Covers(s, x) <==> Covers(t, x)
    ensures s[0] == t[0]
  {
    HeadExact(s);
    HeadExact(t);
    assert Covers(s, s[0].addr) && Covers(t, t[0].addr);
    assert !Covers(s, s[0].End()) && !Covers(t, t[0].End());
  }

  lemma {:induction false} Canonical(s: seq<Region>, t: seq<Region>)
    requires Normal(s) && Normal(t)
    requires forall x: nat :: Covers(s, x) <==> Covers(t, x)
    ensures s == t
  {
    if s != [] { HeadExact(s); assert Covers(s, s[0].addr); }
    if t != [] { HeadExact(t); assert Covers(t, t[0].addr); }
    if s != [] && t != [] {
      SameHead(s, t);
      NormalTail(s);
      NormalTail(t);
      Canonical(s[1..], t[1..]);
      assert s == [s[0]] + s[1..] && t == [t[0]] + t[1..];
    }
  }

  /* ---- insertion, on values ---- */

  /** Intervals lo..hi of s replaced by r. */
  function Spliced(s: seq<Region>, lo: nat, hi: nat, r: Region): seq<Region>
    requires lo <= hi <= |s|
  {
    s[..lo] + [r] + s[hi..]
  }

  /** What merging does: r swallows a run of intervals it overlaps or touches. */
  lemma SplicedNormal(s: seq<Region>, lo: nat, hi: nat, r: Region)
    requires Normal(s) && lo <= hi <= |s| && r.size > 0
    requires lo > 0 ==> s[lo - 1].End() < r.addr
    requires hi < |s| ==> r.End() < s[hi].addr
    ensures Normal(Spliced(s, lo, hi, r))
  {
    var t := Spliced(s, lo, hi, r);
    assert t[lo] == r;
    forall i | 0 <= i < |t| ensures t[i].size > 0 { SplicedAt(s, lo, hi, r, i); }
    forall i, j | 0 <= i < j < |t| ensures t[i].End() < t[j].addr {
      SplicedAt(s, lo, hi, r, i);
      SplicedAt(s, lo, hi, r, j);
      assert i < lo ==> s[i].End() <= s[lo - 1].End() < r.addr;
      assert j > lo ==> r.End() < s[hi].addr <= s[hi + j - lo - 1].addr;
    }
  }

  lemma SplicedAt(s: seq<Region>, lo: nat, hi: nat, r: Region, i: nat)
    requires lo <= hi <= |s| && i < lo + 1 + |s| - hi
    ensures |Spliced(s, lo, hi, r)| == lo + 1 + |s| - hi
    ensures Spliced(s, lo, hi, r)[i] == if i < lo then s[i] else if i == lo then r else s[hi + i - lo - 1]
  {
  }

  lemma SplicedCovers(s: seq<Region>, lo: nat, hi: nat, r: Region, x: nat)
    requires lo <= hi <= |s|
    ensures Covers(Spliced(s, lo, hi, r), x) <==> Covers(s[..lo], x) || Inside(r, x) || Covers(s[hi..], x)
  {
    var t := Spliced(s, lo, hi, r);
    if i :| 0 <= i < |t| && Inside(t[i], x) {
      if i < lo { assert Inside(s[..lo][i], x); }
      if i > lo { assert Inside(s[hi..][i - lo - 1], x); }
    }
    if i :| 0 <= i < lo && Inside(s[..lo][i], x) { assert Inside(t[i], x); }
    if Inside(r, x) { assert Inside(t[lo], x); }
    if i :| 0 <= i < |s| - hi && Inside(s[hi..][i], x) { assert Inside(t[lo + 1 + i], x); }
  }

  lemma CoversSplit(s: seq<Region>, lo: nat, hi: nat, x: nat)
    requires lo <= hi <= |s|
    ensures Covers(s, x) <==> Covers(s[..lo], x) || Covers(s[lo..hi], x) || Covers(s[hi..], x)
  {
    if i :| 0 <= i < |s| && Inside(s[i], x) {
      if i < lo { assert Inside(s[..lo][i], x); }
      else if i < hi { assert Inside(s[lo..hi][i - lo], x); }
      else { assert Inside(s[hi..][i - hi], x); }
    }
  }

  /** A run of intervals that all overlap or touch [a, e), widened to [lo, hi), covers nothing new. */
  lemma {:induction false} RunCovers(run: seq<Region>, q: Region, r: Region, x: nat)
    requires Normal(run) && q.size > 0 && r.addr <= q.addr && q.End() <= r.End()
    requires forall i :: 0 <= i < |run| ==> run[i].addr <= q.End() && q.addr <= run[i].End()
    requires forall i :: 0 <= i < |run| ==> r.addr <= run[i].addr && run[i].End() <= r.End()
    requires r.addr == q.addr || (run != [] && r.addr == run[0].addr)
    requires r.End() == q.End() || (run != [] && r.End() == run[|run| - 1].End())
    ensures Inside(r, x) <==> Inside(q, x) || Covers(run, x)
  {
    if Inside(r, x) && !Inside(q, x) {
      if x < q.addr { assert Inside(run[0], x); }
      else { assert Inside(run[|run| - 1], x); }
    }
    if i :| 0 <= i < |run| && Inside(run[i], x) { assert Inside(r, x); }
  }

  /** The region that replaces the run. */
  function Hull(run: seq<Region>, q: Region): Region {
    if run == [] then q
    else
      var lo := if q.addr < run[0].addr then q.addr else run[0].addr;
      var hi := if q.End() > run[|run| - 1].End() then q.End() else run[|run| - 1].End();
      if lo <= hi then Region(lo, hi - lo) else q
  }

  lemma HullBounds(s: seq<Region>, lo: nat, hi: nat, q: Region)
    requires Normal(s) && lo <= hi <= |s| && q.size > 0
    requires lo > 0 ==> s[lo - 1].End() < q.addr
    requires hi < |s| ==> q.End() < s[hi].addr
    requires forall i :: lo <= i < hi ==> s[i].addr <= q.End() && q.addr <= s[i].End()
    ensures var r := Hull(s[lo..hi], q); r.size > 0 && r.addr <= q.addr && q.End() <= r.End()
    ensures var r := Hull(s[lo..hi], q); (lo > 0 ==> s[lo - 1].End() < r.addr) && (hi < |s| ==> r.End() < s[hi].addr)
  {
    hide Normal;
    var run := s[lo..hi];
    if run != [] {
      assert run[0] == s[lo] && run[|run| - 1] == s[hi - 1];
      if lo > 0 { EndsGrow(s, lo - 1, lo); }
      if hi < |s| { EndsGrow(s, hi - 1, hi); }
    }
  }

  lemma HullHolds(run: seq<Region>, q: Region)
    requires Normal(run) && q.size > 0
    requires forall i :: 0 <= i < |run| ==> run[i].addr <= q.End() && q.addr <= run[i].End()
    ensures forall i :: 0 <= i < |run| ==> Hull(run, q).addr <= run[i].addr && run[i].End() <= Hull(run, q).End()
  {
    hide Normal;
    forall i | 0 <= i < |run| ensures Hull(run, q).addr <= run[i].addr && run[i].End() <= Hull(run, q).End() {
      if i > 0 { EndsGrow(run, 0, i); }
      if i < |run| - 1 { EndsGrow(run, i, |run| - 1); }
    }
  }

  /** s with q merged into the run lo..hi of intervals it overlaps or touches: the union, in normal form. */
  lemma MergeExact(s: seq<Region>, lo: nat, hi: nat, q: Region)
    requires Normal(s) && lo <= hi <= |s| && q.size > 0
    requires lo > 0 ==> s[lo - 1].End() < q.addr
    requires hi < |s| ==> q.End() < s[hi].addr
    requires forall i :: lo <= i < hi ==> s[i].addr <= q.End() && q.addr <= s[i].End()
    ensures Normal(Spliced(s, lo, hi, Hull(s[lo..hi], q)))
    ensures forall x: nat :: Covers(Spliced(s, lo, hi, Hull(s[lo..hi], q)), x) <==> Covers(s, x) || Inside(q, x)
  {
    hide Normal, Covers, Spliced, Inside;
    var run := s[lo..hi];
    var r := Hull(run, q);
    HullBounds(s, lo, hi, q);
    NormalSlice(s, lo, hi);
    assert forall i :: 0 <= i < |run| ==> run[i] == s[lo + i];
    HullHolds(run, q);
    SplicedNormal(s, lo, hi, r);
    forall x: nat ensures Covers(Spliced(s, lo, hi, r), x) <==> Covers(s, x) || Inside(q, x) {
      SplicedCovers(s, lo, hi, r, x);
      CoversSplit(s, lo, hi, x);
      RunCovers(run, q, r, x);
    }
  }

  /* ---- insertion, in place ---- */

  function Max(a: nat, b: nat): nat { if a > b then a else b }

  /** Entry i grown to swallow entries i+1..hi. */
  function Grown(s: seq<Region>, i: nat, hi: nat): Region
    requires i < hi <= |s|
  {
    var end := if hi == i + 1 then s[i].End() else Max(s[i].End(), s[hi - 1].End());
    if s[i].addr <= end then Region(s[i].addr, end - s[i].addr) else s[i]
  }

  /** Entries i+1..hi are those that entry i, once grown, overlaps or touches. */
  predicate Swallows(s: seq<Region>, i: nat, hi: nat) {
    && i < hi <= |s|
    && (forall j :: i < j < hi ==> s[j].addr <= s[i].End())
    && (hi < |s| ==> Grown(s, i, hi).End() < s[hi].addr)
  }

  /** merge_upper's first loop: how far entry i reaches now. */
  method Reach(a: array<Region>, cnt: nat, i: nat) returns (end: nat, j: nat)
    requires i < cnt <= a.Length && Normal(a[i + 1..cnt])
    ensures Swallows(a[..cnt], i, j) && end == Grown(a[..cnt], i, j).End() && a[i].addr <= end
  {
    hide Normal;
    ghost var s := a[..cnt];
    ghost var up := a[i + 1..cnt];
    assert forall k :: i < k < cnt ==> s[k] == up[k - i - 1];
    end := a[i].End();
    j := i + 1;
    while j < cnt && a[j].addr <= end
      invariant i < j <= cnt && end == Grown(s, i, j).End() && a[i].addr <= end
      invariant forall k :: i < k < j ==> s[k].addr <= s[i].End()
    {
      if i + 1 < j { EndsGrow(up, j - i - 2, j - i - 1); }
      if a[j].End() > end { end := a[j].End(); }
      j := j + 1;
    }
  }

  /** merge_upper's second loop: entries hi..cnt move down over i+1..hi. */
  method CloseGap(a: array<Region>, cnt: nat, i: nat, hi: nat)
    requires i < hi <= cnt <= a.Length
    modifies a
    ensures a[..cnt - (hi - i - 1)] == Spliced(old(a[..cnt]), i, hi, old(a[i])) && a[cnt..] == old(a[cnt..])
  {
    hide Spliced;
    ghost var s := a[..cnt];
    var m := hi - (i + 1);
    var j := hi;
    if m != 0 {
      while j < cnt
        invariant hi <= j <= cnt
        invariant forall k :: 0 <= k <= i ==> a[k] == s[k]
        invariant forall k :: i < k < j - m ==> a[k] == s[k + m]
        invariant forall k :: j <= k < cnt ==> a[k] == s[k]
        invariant a[cnt..] == old(a[cnt..])
      {
        a[j - m] := a[j];
        j := j + 1;
      }
    }
    SplicedAt(s, i, hi, s[i], 0);
    forall k | 0 <= k < cnt - m ensures a[k] == Spliced(s, i, hi, s[i])[k] { SplicedAt(s, i, hi, s[i], k); }
    assert a[..cnt - m] == Spliced(s, i, hi, s[i]);
  }

  /** merge_upper */
  method MergeUpper(a: array<Region>, cnt: nat, i: nat) returns (n: nat, ghost hi: nat)
    requires i < cnt <= a.Length && Normal(a[i + 1..cnt])
    modifies a
    ensures Swallows(old(a[..cnt]), i, hi) && n == cnt - (hi - i - 1)
    ensures n <= cnt && a[..n] == Spliced(old(a[..cnt]), i, hi, Grown(old(a[..cnt]), i, hi))
    ensures a[cnt..] == old(a[cnt..])
  {
    hide Normal;
    ghost var s := a[..cnt];
    var end, j := Reach(a, cnt, i);
    hi := j;
    a[i] := Region(a[i].addr, end - a[i].addr);
    ghost var t := a[..cnt];
    assert t[..i] == s[..i] && t[j..] == s[j..];
    CloseGap(a, cnt, i, j);
    n := cnt - (j - (i + 1));
  }

  /** q overlaps or touches no interval of s. */
  predicate Clear(s: seq<Region>, q: Region) {
    forall i :: 0 <= i < |s| ==> s[i].End() < q.addr || q.End() < s[i].addr
  }

  lemma ClearAt(s: seq<Region>, i: nat, q: Region)
    requires Normal(s) && i <= |s| && (forall k :: 0 <= k < i ==> s[k].End() < q.addr)
    requires i < |s| ==> q.End() < s[i].addr
    ensures Clear(s, q)
  {
  }

  lemma InsertAt(s: seq<Region>, t: seq<Region>, i: nat, q: Region)
    requires Normal(s) && i <= |s| && q.size > 0 && (i > 0 ==> s[i - 1].End() < q.addr) && (i < |s| ==> q.End() < s[i].addr)
    requires |t| == |s| + 1 && t[i] == q && t[..i] == s[..i] && t[i + 1..] == s[i..]
    ensures Normal(t) && forall x: nat :: Covers(t, x) <==> Covers(s, x) || Inside(q, x)
  {
    hide Normal, Covers;
    assert t == Spliced(s, i, i, q);
    assert s[i..i] == [];
    MergeExact(s, i, i, q);
  }

  /** insert_region; -1 is None. */
  method InsertRegion(a: array<Region>, cnt: nat, q: Region) returns (r: Option<nat>)
    requires cnt <= a.Length && Normal(a[..cnt]) && q.size > 0
    modifies a
    ensures r.None? <==> cnt == a.Length && Clear(old(a[..cnt]), q)
    ensures r.None? ==> a[..] == old(a[..])
    ensures r.Some? ==> r.value <= a.Length && Normal(a[..r.value])
    ensures r.Some? ==> forall x: nat :: Covers(a[..r.value], x) <==> Covers(old(a[..cnt]), x) || Inside(q, x)
  {
    hide Covers, Normal;
    ghost var s := a[..cnt];
    var i := 0;
    while i < cnt
      invariant i <= cnt && a[..cnt] == s && a[..] == old(a[..])
      invariant forall k :: 0 <= k < i ==> s[k].End() < q.addr
    {
      var rend := a[i].End();
      if q.addr <= rend && q.End() >= a[i].addr {
        var n := MergeAt(a, cnt, i, q);
        return Some(n);
      }
      if q.addr < a[i].addr { break; }
      i := i + 1;
    }
    ClearAt(s, i, q);
    if cnt >= a.Length { return None; }
    OpenGap(a, cnt, i, q);
    assert a[..cnt + 1][i + 1..] == s[i..];
    InsertAt(s, a[..cnt + 1], i, q);
    r := Some(cnt + 1);
  }

  /** insert_region's last loop: entries i..cnt move up and q takes place i. */
  method OpenGap(a: array<Region>, cnt: nat, i: nat, q: Region)
    requires i <= cnt < a.Length
    modifies a
    ensures a[..i] == old(a[..i]) && a[i] == q && a[i + 1..cnt + 1] == old(a[i..cnt])
  {
    var j := cnt;
    while j > i
      invariant i <= j <= cnt
      invariant forall k :: 0 <= k < j ==> a[k] == old(a[k])
      invariant forall k :: j < k <= cnt ==> a[k] == old(a[k - 1])
    {
      a[j] := a[j - 1];
      j := j - 1;
    }
    a[i] := q;
  }

  /** The branch of insert_region that widens entry i. */
  method MergeAt(a: array<Region>, cnt: nat, i: nat, q: Region) returns (n: nat)
    requires i < cnt <= a.Length && Normal(a[..cnt]) && q.size > 0
    requires q.addr <= a[i].End() && a[i].addr <= q.End()
    requires i > 0 ==> a[i - 1].End() < q.addr
    modifies a
    ensures n <= cnt && Normal(a[..n])
    ensures forall x: nat :: Covers(a[..n], x) <==> Covers(old(a[..cnt]), x) || Inside(q, x)
  {
    hide Covers, Normal, Spliced, Hull, Swallows, Grown;
    ghost var s := a[..cnt];
    var lo := if q.addr < a[i].addr then q.addr else a[i].addr;
    var end := if q.End() < a[i].End() then a[i].End() else q.End();
    a[i] := Region(lo, end - lo);
    ghost var t := a[..cnt];
    assert t == s[i := Region(lo, end - lo)];
    NormalSlice(s, i + 1, cnt);
    assert a[i + 1..cnt] == s[i + 1..cnt];
    ghost var hi;
    n, hi := MergeUpper(a, cnt, i);
    WidenedHull(s, i, hi, q);
    MergeExact(s, i, hi, q);
  }

  lemma NormalSlice(s: seq<Region>, lo: nat, hi: nat)
    requires Normal(s) && lo <= hi <= |s|
    ensures Normal(s[lo..hi])
  {
    var t := s[lo..hi];
    assert forall k :: 0 <= k < |t| ==> t[k] == s[lo + k];
  }

  /** Widening entry i by q and then merging upwards is merging q into the whole run. */
  lemma WidenedHull(s: seq<Region>, i: nat, hi: nat, q: Region)
    requires Normal(s) && i < |s| && q.size > 0 && q.addr <= s[i].End() && s[i].addr <= q.End()
    requires i > 0 ==> s[i - 1].End() < q.addr
    requires Swallows(Widened(s, i, q), i, hi)
    ensures hi <= |s| && Spliced(Widened(s, i, q), i, hi, Grown(Widened(s, i, q), i, hi)) == Spliced(s, i, hi, Hull(s[i..hi], q))
    ensures forall k :: i <= k < hi ==> s[k].addr <= q.End() && q.addr <= s[k].End()
    ensures hi < |s| ==> q.End() < s[hi].addr
  {
    hide Normal, Hull, Grown;
    var t := Widened(s, i, q);
    assert t[..i] == s[..i] && t[hi..] == s[hi..];
    assert forall k :: 0 <= k < |s| && k != i ==> t[k] == s[k];
    if hi > i + 1 { EndsGrow(s, i, hi - 1); }
    GrownHull(s, i, hi, q);
    GrownAtLeast(t, i, hi);
    WidenedTouch(s, i, hi, q);
  }

  lemma GrownHull(s: seq<Region>, i: nat, hi: nat, q: Region)
    requires i < hi <= |s| && q.addr <= s[i].End() && s[i].addr <= q.End()
    requires hi > i + 1 ==> s[i].End() < s[hi - 1].End()
    ensures Grown(Widened(s, i, q), i, hi) == Hull(s[i..hi], q)
  {
    var t := Widened(s, i, q);
    assert hi > i + 1 ==> t[hi - 1] == s[hi - 1];
    assert s[i..hi][0] == s[i] && s[i..hi][|s[i..hi]| - 1] == s[hi - 1];
  }

  lemma GrownAtLeast(s: seq<Region>, i: nat, hi: nat)
    requires i < hi <= |s|
    ensures s[i].End() <= Grown(s, i, hi).End()
  {
  }

  lemma WidenedTouch(s: seq<Region>, i: nat, hi: nat, q: Region)
    requires Normal(s) && i < hi <= |s| && q.addr <= s[i].End() && s[i].addr <= q.End()
    requires forall k :: i < k < hi ==> s[k].addr <= Widened(s, i, q)[i].End()
    ensures forall k :: i < k < hi ==> s[k].addr <= q.End() && q.addr <= s[k].End()
  {
    forall k | i < k < hi ensures s[k].addr <= q.End() && q.addr <= s[k].End() {
      assert s[i].End() < s[k].addr;
    }
  }

  lemma EndsGrow(s: seq<Region>, i: nat, j: nat)
    requires Normal(s) && i < j < |s|
    ensures s[i].End() < s[j].addr && s[i].End() < s[j].End()
  {
  }

  function Widened(s: seq<Region>, i: nat, q: Region): seq<Region>
    requires i < |s|
  {
    var lo := if q.addr < s[i].addr then q.addr else s[i].addr;
    var end := if q.End() < s[i].End() then s[i].End() else q.End();
    if lo <= end then s[i := Region(lo, end - lo)] else s
  }
}

/**
 The code that runs under `asid_lock`, in its own imperative form: the bitmap scan, the
 reservation update, the rollover loop and `new_context`.  Each method is proved to
 compute the function that the step system uses for the same section; `FlushContext` is
 the rollover when no fast path interleaves with its loop.
 */
module AsidAllocator {
  import opened AsidProtocol
  import opened AsidSafety

  class Allocator {
    const n: nat
    const ncpus: nat
    var generation: nat
    var hint: nat
    const bits: array<bool>
    const active: array<Ctx>
    const reserved: array<Ctx>
    const pending: array<bool>

    ghost predicate Valid()
      reads this, bits, active, reserved, pending
    {
      && ncpus + 1 < n && 1 <= hint <= n
      && bits.Length == n && active.Length == reserved.Length == pending.Length == ncpus
      && active != reserved && bits != pending
      && bits[0]
      && (forall c :: 0 <= c < ncpus ==> active[c].num < n && reserved[c].num < n)
    }

    ghost function Bitmap(): (b: set<nat>)
      reads bits
      requires bits.Length == n
      ensures forall i: nat :: i in b <==> i < n && bits[i]
    {
      set i: nat | i < bits.Length && bits[i]
    }

    /** asid_init */
    constructor (total: nat, cpus: nat)
      requires cpus + 1 < total
      ensures Valid() && n == total && ncpus == cpus
      ensures generation == 1 && hint == 1 && Bitmap() == {0}
      ensures forall c :: 0 <= c < cpus ==> active[c] == ZERO && reserved[c] == ZERO && !pending[c]
      ensures fresh(bits) && fresh(active) && fresh(reserved) && fresh(pending)
    {
      n, ncpus, generation, hint := total, cpus, 1, 1;
      bits := new bool[total](i => i == 0);
      active := new Ctx[cpus](_ => ZERO);
      reserved := new Ctx[cpus](_ => ZERO);
      pending := new bool[cpus](_ => false);
    }

    /** bitmap_find_zero */
    method BitmapFindZero(start: nat) returns (r: nat)
      requires Valid() && 1 <= start <= n
      ensures r == FindZero(Bitmap(), n, start)
    {
      var i := start;
      while i < n
        invariant start <= i <= n
        invariant FirstFree(Bitmap(), start, n) == FirstFree(Bitmap(), i, n)
      {
        if !bits[i] { return i; }
        i := i + 1;
      }
      var b := 1;
      while b < start
        invariant 1 <= b <= start
        invariant FirstFree(Bitmap(), 1, start) == FirstFree(Bitmap(), b, start)
      {
        if !bits[b] { return b; }
        b := b + 1;
      }
      r := n;
    }

    /** check_update_reserved_asid */
    method CheckUpdateReserved(was: Ctx, now: Ctx) returns (hit: bool)
      requires Valid() && now.num < n
      modifies reserved
      ensures Valid()
      ensures reserved[..] == Rebind(old(reserved[..]), was, now)
      ensures hit <==> was in old(reserved[..])
    {
      hit := false;
      ghost var before := reserved[..];
      for c := 0 to ncpus
        invariant forall d :: c <= d < ncpus ==> reserved[d] == before[d]
        invariant forall d :: 0 <= d < c ==> reserved[d] == if before[d] == was then now else before[d]
        invariant hit <==> was in before[..c]
      {
        if reserved[c] == was {
          reserved[c] := now;
          hit := true;
        }
        assert before[..c + 1] == before[..c] + [before[c]];
      }
      assert before[..ncpus] == before;
    }

    /** flush_context's memset, and the bit for number 0. */
    method ClearBitmap()
      requires Valid()
      modifies bits
      ensures Valid() && Bitmap() == {0}
    {
      for i := 0 to n
        invariant forall k :: 0 <= k < i ==> bits[k] == (k == 0)
      {
        bits[i] := i == 0;
      }
    }

    /** One iteration of flush_context's loop: the exchange of slot c. */
    method CarrySlot(c: nat)
      requires Valid() && c < ncpus && Bitmap() == Carried(reserved[..], c)
      modifies bits, active, reserved
      ensures Valid() && Bitmap() == Carried(reserved[..], c + 1)
      ensures active[..] == old(active[..])[c := ZERO]
      ensures reserved[..] == old(reserved[..])[c := Carry(old(active[c]), old(reserved[c]))]
    {
      var x := active[c];
      active[c] := ZERO;
      if x == ZERO { x := reserved[c]; }
      reserved[c] := x;
      CarriedPrefix(old(reserved[..]), reserved[..], c);
      if x != ZERO { bits[x.num] := true; }
      assert forall i: nat :: i in Bitmap() <==> i in WithBit(old(Bitmap()), x);
    }

    /** flush_context */
    method FlushContext()
      requires Valid()
      modifies this, bits, active, reserved, pending
      ensures Valid()
      ensures generation == old(generation) + 1 && hint == 1
      ensures forall c :: 0 <= c < ncpus ==> active[c] == ZERO && pending[c]
      ensures forall c :: 0 <= c < ncpus ==> reserved[c] == Carry(old(active[c]), old(reserved[c]))
      ensures Bitmap() == Carried(reserved[..], ncpus)
    {
      ClearBitmap();
      for c := 0 to ncpus
        modifies bits, active, reserved
        invariant Valid()
        invariant forall d :: 0 <= d < ncpus ==> active[d] == if d < c then ZERO else old(active[d])
        invariant forall d :: 0 <= d < c ==> reserved[d] == Carry(old(active[d]), old(reserved[d]))
        invariant forall d :: c <= d < ncpus ==> reserved[d] == old(reserved[d])
        invariant Bitmap() == Carried(reserved[..], c)
      {
        ghost var a0, r0 := active[..], reserved[..];
        CarrySlot(c);
        assert forall d :: 0 <= d < ncpus ==> active[d] == a0[c := ZERO][d];
        assert forall d :: 0 <= d < ncpus ==> reserved[d] == r0[c := Carry(a0[c], r0[c])][d];
      }
      MarkPending();
      generation, hint := generation + 1, 1;
    }

    method MarkPending()
      requires Valid()
      modifies pending
      ensures Valid() && forall c :: 0 <= c < ncpus ==> pending[c]
    {
      for c := 0 to ncpus
        invariant forall d :: 0 <= d < c ==> pending[d]
        invariant unchanged(bits)
      {
        pending[c] := true;
      }
    }

    /** The state new_context leaves when it can stay in the current generation. */
    ghost predicate Took(o: Outcome, x: Ctx)
      reads this, bits, reserved
      requires bits.Length == n
    {
      o == Got(x, Bitmap(), hint, reserved[..])
    }

    /** Sets the bit found and moves the hint past it. */
    method Claim(a: nat) returns (x: Ctx)
      requires Valid() && a < n
      modifies this, bits
      ensures Valid() && generation == old(generation)
      ensures x == Ctx(generation, a) && hint == a + 1 && Bitmap() == old(Bitmap()) + {a}
    {
      bits[a] := true;
      assert forall i: nat :: i in Bitmap() <==> i in old(Bitmap()) + {a};
      hint := a + 1;
      x := Ctx(generation, a);
    }

    /** What a rollover followed by taking a number leaves behind. */
    twostate predicate RolledOver(x: Ctx)
      reads this, bits, active, reserved, pending
      requires old(Valid()) && Valid()
    {
      && generation == old(generation) + 1
      && (forall c :: 0 <= c < ncpus ==>
            active[c] == ZERO && pending[c] && reserved[c] == Carry(old(active[c]), old(reserved[c])))
      && Took(TakeFree(n, generation, Carried(reserved[..], ncpus), 1, reserved[..]), x)
    }

    /** flush_context and the second scan, whose assertion cannot fail. */
    method Rollover() returns (a: nat)
      requires Valid()
      modifies this, bits, active, reserved, pending
      ensures Valid() && a < n && a == FindZero(Carried(reserved[..], ncpus), n, 1)
      ensures generation == old(generation) + 1 && Bitmap() == Carried(reserved[..], ncpus)
      ensures forall c :: 0 <= c < ncpus ==>
                active[c] == ZERO && pending[c] && reserved[c] == Carry(old(active[c]), old(reserved[c]))
    {
      FlushContext();
      a := BitmapFindZero(1);
      if a == n { FullNeedsN(Bitmap(), n); }
      assert a != n;
    }

    /** The tail of new_context: the next clear bit, rolling over when there is none. */
    method TakeNumber() returns (x: Ctx)
      requires Valid()
      modifies this, bits, active, reserved, pending
      ensures Valid()
      ensures var o := old(TakeFree(n, generation, Bitmap(), hint, reserved[..]));
              if o.Got? then
                && Took(o, x) && generation == old(generation)
                && active[..] == old(active[..]) && pending[..] == old(pending[..])
              else RolledOver(x)
    {
      var a := BitmapFindZero(hint);
      if a == n {
        a := Rollover();
      }
      x := Claim(a);
    }

    /** new_context for a process whose context `was` is of an older generation. */
    method NewContextFor(was: Ctx) returns (x: Ctx)
      requires Valid() && was.num < n
      modifies this, bits, active, reserved, pending
      ensures Valid()
      ensures var o := old(NewContext(n, generation, Bitmap(), hint, reserved[..], was));
              if o.Got? then
                && Took(o, x) && generation == old(generation)
                && active[..] == old(active[..]) && pending[..] == old(pending[..])
              else RolledOver(x)
    {
      if was != ZERO {
        x := Ctx(generation, was.num);
        var hit := CheckUpdateReserved(was, x);
        if hit { return; }
        assert reserved[..] == old(reserved[..]);
        if !bits[was.num] {
          bits[was.num] := true;
          assert forall i: nat :: i in Bitmap() <==> i in old(Bitmap()) + {was.num};
          return;
        }
      }
      x := TakeNumber();
    }
  }
}

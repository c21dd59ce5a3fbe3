/**
 The tables behind the process list of proc.c: the pid bitmap, the kernel-stack slot
 bitmap, the list of live processes and the pid hash, all updated in place.

 `live` holds the objects handed out by the process cache with their pid and stack slot.
 Whether a stack can be mapped and whether the cache has an object are parameters.
 */
module ProcTable {
  import opened Wrappers
  import opened Lists

  const PIDHASH_BUCKETS: nat := 64

  datatype Ids = Ids(pid: nat, slot: nat)

  type Live = map<nat, Ids>

  ghost function Pids(live: Live): set<nat> { set p | p in live :: live[p].pid }

  ghost function Slots(live: Live): set<nat> { set p | p in live :: live[p].slot }

  /** No two processes share a pid or a stack slot, and pid 0 is nobody's. */
  ghost predicate Distinct(live: Live) {
    && (forall p :: p in live ==> live[p].pid != 0)
    && (forall p, q :: p in live && q in live && p != q ==> live[p].pid != live[q].pid && live[p].slot != live[q].slot)
  }

  /** The bits set are the numbers taken. */
  ghost predicate Marks(bits: seq<bool>, taken: set<nat>) {
    (forall x :: x in taken ==> x < |bits|) && forall i :: 0 <= i < |bits| ==> (bits[i] <==> i in taken)
  }

  /** The list and the hash hold the same processes, each once and in its pid's bucket. */
  ghost predicate Linked(live: Live, all: seq<nat>, hash: seq<seq<nat>>) {
    && |hash| == PIDHASH_BUCKETS && NoDup(all) && (forall p :: p in all ==> p in live)
    && (forall b :: 0 <= b < |hash| ==> NoDup(hash[b]))
    && forall b, p :: 0 <= b < |hash| ==> (p in hash[b] <==> p in all && p in live && live[p].pid % PIDHASH_BUCKETS == b)
  }

  /* ---- counting: a free pid means a free slot ---- */

  lemma {:induction false} PidsCount(live: Live)
    requires Distinct(live)
    ensures |Pids(live)| == |live| && |Slots(live)| == |live|
    decreases |live|
  {
    if live != map[] {
      var p :| p in live;
      var rest := live - {p};
      PidsCount(rest);
      assert live == rest[p := live[p]];
      PidsPlus(rest, p, live[p]);
      assert live[p].pid !in Pids(rest) && live[p].slot !in Slots(rest);
    }
  }

  lemma {:induction false} AllBelow(s: set<nat>, n: nat)
    requires forall x :: x in s ==> x < n
    ensures |s| <= n && (|s| == n ==> forall i :: 0 <= i < n ==> i in s)
  {
    if n > 0 {
      AllBelow(s - {n - 1}, n - 1);
    } else {
      assert s == {};
    }
  }

  lemma {:induction false} FullCount(s: set<nat>, n: nat)
    requires forall i :: 0 <= i < n ==> i in s
    ensures |s| >= n
  {
    if n > 0 { FullCount(s - {n - 1}, n - 1); }
  }

  /** Since pid 0 is never given out, the stack slots cannot run out before the pids do. */
  lemma SlotsOutlastPids(live: Live, pidmap: seq<bool>, slotmap: seq<bool>)
    requires Distinct(live) && |pidmap| == |slotmap|
    requires Marks(pidmap, Pids(live) + {0}) && Marks(slotmap, Slots(live))
    requires exists i :: 0 <= i < |pidmap| && !pidmap[i]
    ensures exists i :: 0 <= i < |slotmap| && !slotmap[i]
  {
    PidsCount(live);
    var taken := Pids(live) + {0};
    AllBelow(taken, |pidmap|);
    assert |taken| == |live| + 1;
    if forall i :: 0 <= i < |slotmap| ==> slotmap[i] { FullCount(Slots(live), |slotmap|); }
  }

  /** bit_ffc and bit_set: the lowest clear bit is taken, or none is clear. */
  method TakeBit(bits: array<bool>) returns (r: Option<nat>)
    modifies bits
    ensures r.None? ==> bits[..] == old(bits[..]) && forall i :: 0 <= i < bits.Length ==> bits[i]
    ensures r.Some? ==> r.value < bits.Length && !old(bits[r.value]) && bits[..] == old(bits[..])[r.value := true]
    ensures r.Some? ==> forall i :: 0 <= i < r.value ==> old(bits[i])
  {
    for i := 0 to bits.Length
      invariant bits[..] == old(bits[..]) && forall k :: 0 <= k < i ==> bits[k]
    {
      if !bits[i] {
        bits[i] := true;
        return Some(i);
      }
    }
    r := None;
  }

  class Table {
    const pidmap: array<bool>
    const slotmap: array<bool>
    const pidhash: array<seq<nat>>
    var allproc: seq<nat>
    var live: Live

    ghost predicate Valid()
      reads this, pidmap, slotmap, pidhash
    {
      && pidmap != slotmap && pidmap.Length == slotmap.Length && pidhash.Length == PIDHASH_BUCKETS
      && Distinct(live) && Marks(pidmap[..], Pids(live) + {0}) && Marks(slotmap[..], Slots(live))
      && Linked(live, allproc, pidhash[..])
    }

    /** procinit */
    constructor (nslots: nat)
      requires nslots >= 1
      ensures Valid() && live == map[] && allproc == [] && pidmap.Length == nslots
    {
      pidmap := new bool[nslots](i => i == 0);
      slotmap := new bool[nslots](_ => false);
      pidhash := new seq<nat>[PIDHASH_BUCKETS](_ => []);
      allproc, live := [], map[];
      new;
      assert Pids(live) == {} && Slots(live) == {};
    }

    /** allocproc: the lowest free pid and slot, or everything as it was. */
    method Allocproc(stackOk: bool, obj: Option<nat>) returns (p: Option<nat>)
      requires Valid() && (obj.Some? ==> obj.value !in live)
      modifies this`live, pidmap, slotmap
      ensures Valid() && allproc == old(allproc) && pidhash[..] == old(pidhash[..])
      ensures p.None? ==> live == old(live) && pidmap[..] == old(pidmap[..]) && slotmap[..] == old(slotmap[..])
      ensures p.None? <==> !stackOk || obj.None? || forall i :: 0 <= i < pidmap.Length ==> old(pidmap[i])
      ensures p.Some? ==> p == obj && p.value in live && live == old(live)[p.value := live[p.value]]
      ensures p.Some? ==> forall i :: 0 <= i < live[p.value].pid ==> i == 0 || i in Pids(old(live))
    {
      hide Distinct, Marks, Linked, Pids, Slots;
      ghost var pm, sm := pidmap[..], slotmap[..];
      var pid := TakeBit(pidmap);
      if pid.None? { return None; }
      assert slotmap[..] == sm;
      assert !pm[pid.value];
      SlotsOutlastPids(live, pm, sm);
      var slot := TakeBit(slotmap);
      assert slot.Some?;
      if !stackOk || obj.None? {
        slotmap[slot.value] := false;
        pidmap[pid.value] := false;
        assert slotmap[..] == sm && pidmap[..] == pm;
        return None;
      }
      NewIds(live, pm, sm, obj.value, pid.value, slot.value);
      NewLinked(live, allproc, pidhash[..], obj.value, Ids(pid.value, slot.value));
      live := live[obj.value := Ids(pid.value, slot.value)];
      p := obj;
    }

    /** freeproc on a process off the lists. */
    method Freeproc(p: nat)
      requires Valid() && p in live && p !in allproc
      modifies this`live, pidmap, slotmap
      ensures Valid() && live == old(live) - {p} && allproc == old(allproc) && pidhash[..] == old(pidhash[..])
    {
      hide Distinct, Linked, Pids, Slots;
      ghost var pm, sm := pidmap[..], slotmap[..];
      OldIds(live, pm, sm, p);
      OldLinked(live, allproc, pidhash[..], p);
      slotmap[live[p].slot] := false;
      pidmap[live[p].pid] := false;
      assert pidmap[..] == pm[live[p].pid := false] && slotmap[..] == sm[live[p].slot := false];
      live := live - {p};
    }

    /** proc_activate's links. */
    method Link(p: nat)
      requires Valid() && p in live && p !in allproc
      modifies this`allproc, pidhash
      ensures Valid() && allproc == [p] + old(allproc) && live == old(live)
    {
      hide Distinct, Marks, Linked, Pids, Slots;
      var b := live[p].pid % PIDHASH_BUCKETS;
      LinkKeeps(live, allproc, pidhash[..], p);
      allproc := [p] + allproc;
      pidhash[b] := [p] + pidhash[b];
      assert pidhash[..] == old(pidhash[..])[b := [p] + old(pidhash[b])];
    }

    /** wait's unlinking of a zombie. */
    method Unlink(p: nat)
      requires Valid() && p in allproc
      modifies this`allproc, pidhash
      ensures Valid() && allproc == Without(old(allproc), p) && live == old(live)
    {
      hide Distinct, Marks, Pids, Slots, NoDup;
      var b := live[p].pid % PIDHASH_BUCKETS;
      UnlinkKeeps(live, allproc, pidhash[..], p);
      allproc := Without(allproc, p);
      pidhash[b] := Without(pidhash[b], p);
      assert pidhash[..] == old(pidhash[..])[b := Without(old(pidhash[b]), p)];
    }

    /** pid_lookup: the one process on the list with that pid, or none. */
    method PidLookup(pid: int) returns (r: Option<nat>)
      requires Valid()
      ensures r.Some? ==> r.value in allproc && r.value in live && live[r.value].pid == pid
      ensures r.Some? ==> forall p :: p in allproc && p in live && live[p].pid == pid ==> p == r.value
      ensures r.None? ==> forall p :: p in allproc && p in live ==> live[p].pid != pid
    {
      hide Marks, NoDup;
      var bucket := pidhash[pid % PIDHASH_BUCKETS];
      for i := 0 to |bucket|
        invariant forall k :: 0 <= k < i ==> bucket[k] in live && live[bucket[k]].pid != pid
      {
        assert bucket[i] in pidhash[..][pid % PIDHASH_BUCKETS];
        if live[bucket[i]].pid == pid { return Some(bucket[i]); }
      }
      forall p | p in allproc && p in live ensures live[p].pid % PIDHASH_BUCKETS == pid % PIDHASH_BUCKETS ==> p in bucket {
        assert pidhash[..][pid % PIDHASH_BUCKETS] == bucket;
      }
      r := None;
    }
  }

  lemma NewIds(live: Live, pm: seq<bool>, sm: seq<bool>, p: nat, pid: nat, slot: nat)
    requires Distinct(live) && Marks(pm, Pids(live) + {0}) && Marks(sm, Slots(live)) && p !in live
    requires pid < |pm| && !pm[pid] && slot < |sm| && !sm[slot]
    ensures var live' := live[p := Ids(pid, slot)];
            Distinct(live') && Marks(pm[pid := true], Pids(live') + {0}) && Marks(sm[slot := true], Slots(live'))
    ensures forall i :: 0 <= i < |pm| ==> (pm[i] <==> i == 0 || i in Pids(live))
  {
    var live' := live[p := Ids(pid, slot)];
    assert pid !in Pids(live) && pid != 0 && slot !in Slots(live);
    assert Pids(live') == Pids(live) + {pid} by { PidsPlus(live, p, Ids(pid, slot)); }
    assert Slots(live') == Slots(live) + {slot} by { PidsPlus(live, p, Ids(pid, slot)); }
    forall q | q in live ensures live[q].pid != pid && live[q].slot != slot {
      assert live[q].pid in Pids(live) && live[q].slot in Slots(live);
    }
  }

  lemma PidsPlus(live: Live, p: nat, x: Ids)
    requires p !in live
    ensures Pids(live[p := x]) == Pids(live) + {x.pid} && Slots(live[p := x]) == Slots(live) + {x.slot}
  {
    var live' := live[p := x];
    assert live'[p] == x && p in live';
    forall q | q in live ensures q in live' && live'[q] == live[q] {}
  }

  lemma OldIds(live: Live, pm: seq<bool>, sm: seq<bool>, p: nat)
    requires Distinct(live) && Marks(pm, Pids(live) + {0}) && Marks(sm, Slots(live)) && p in live
    ensures live[p].pid < |pm| && live[p].slot < |sm|
    ensures Distinct(live - {p}) && Marks(pm[live[p].pid := false], Pids(live - {p}) + {0})
    ensures Marks(sm[live[p].slot := false], Slots(live - {p}))
  {
    var rest := live - {p};
    assert live == rest[p := live[p]];
    PidsPlus(rest, p, live[p]);
    assert live[p].pid in Pids(live) && live[p].slot in Slots(live);
    assert live[p].pid !in Pids(rest) && live[p].slot !in Slots(rest);
  }

  lemma NewLinked(live: Live, all: seq<nat>, hash: seq<seq<nat>>, p: nat, x: Ids)
    requires Linked(live, all, hash) && p !in live
    ensures Linked(live[p := x], all, hash)
  {
  }

  lemma OldLinked(live: Live, all: seq<nat>, hash: seq<seq<nat>>, p: nat)
    requires Linked(live, all, hash) && p !in all
    ensures Linked(live - {p}, all, hash)
  {
  }

  lemma LinkKeeps(live: Live, all: seq<nat>, hash: seq<seq<nat>>, p: nat)
    requires Linked(live, all, hash) && p in live && p !in all
    ensures var b := live[p].pid % PIDHASH_BUCKETS; b < |hash| && Linked(live, [p] + all, hash[b := [p] + hash[b]])
  {
    var b := live[p].pid % PIDHASH_BUCKETS;
    PushNoDup(all, p);
    PushNoDup(hash[b], p);
  }

  lemma UnlinkKeeps(live: Live, all: seq<nat>, hash: seq<seq<nat>>, p: nat)
    requires Linked(live, all, hash) && p in all
    ensures var b := live[p].pid % PIDHASH_BUCKETS; b < |hash| && Linked(live, Without(all, p), hash[b := Without(hash[b], p)])
  {
    var b := live[p].pid % PIDHASH_BUCKETS;
    WithoutNoDup(all, p);
    WithoutNoDup(hash[b], p);
  }
}

/**
 Exit and wait safety: no process ever has a zombie or freed parent, a zombie is unlinked
 and freed once, by its own parent, and nothing in the machine still refers to it.
 */
module SchedFamily {
  import opened Wrappers
  import opened SchedProtocol
  import opened SchedSafety

  /** Private processes: allocated by one maker, not yet in the process list. */
  ghost predicate MakingInv(s: State) {
    && (forall p :: p in s.procs && s.procs[p].making.Some? ==>
          && s.procs[p].st != USED
          && s.procs[p].making.value in s.procs && s.procs[p].making.value !in s.all
          && s.procs[s.procs[p].making.value].st == USED)
    && (forall p, q :: p in s.procs && q in s.procs && p != q && s.procs[p].making.Some? ==>
          s.procs[p].making != s.procs[q].making)
  }

  /** A parent is in the process list, alive, and someone else. */
  ghost predicate ParentInv(s: State) {
    && s.init in s.procs && s.procs[s.init].parent == None && s.procs[s.init].st != ZOMBIE
    && (forall p :: p in s.procs && s.procs[p].parent.Some? ==>
          var q := s.procs[p].parent.value;
          q in s.all && q in s.procs && q != p && s.procs[q].st != ZOMBIE && s.procs[p].st != USED)
  }

  /** An unlinked zombie is in the hands of the CPU that holds wait_lock. */
  ghost predicate UnlinkedInv(s: State) {
    && s.freed !! s.procs.Keys
    && (forall p :: p in s.procs && p !in s.all && s.procs[p].st == ZOMBIE ==>
          s.wait.HeldBy? && s.wait.cpu < |s.cpu| && s.cpu[s.wait.cpu].act == WaitReap(p))
  }

  /** p has no children and cannot get one. */
  ghost predicate Childless(s: State, p: nat) {
    && p in s.procs && p != s.init && s.procs[p].making == None
    && forall q :: q in s.procs ==> s.procs[q].parent != Some(p)
  }

  ghost predicate FamCpu(s: State, c: nat)
    requires Shape(s) && c < s.ncpus
  {
    var u := s.cpu[c];
    && (u.irq.ILoop? ==> u.irq.rest <= s.all)
    && (u.cur.Some? ==>
          match u.act
          case ExitW1 => Childless(s, u.cur.value)
          case ExitL1(rest) => rest <= s.all && Childless(s, u.cur.value)
          case ExitW2 => Childless(s, u.cur.value)
          case ExitL2(rest) => rest <= s.all && Childless(s, u.cur.value)
          case ExitB => Childless(s, u.cur.value)
          case WaitScan(rest, _) => rest <= s.all
          case WaitReap(np) =>
            np in s.procs && np !in s.all && s.procs[np].st == ZOMBIE && s.procs[np].parent == u.cur
          case _ => true)
  }

  ghost predicate FamCpus(s: State)
    requires Shape(s)
  {
    forall c :: 0 <= c < s.ncpus ==> FamCpu(s, c)
  }

  ghost predicate Family(s: State) {
    Shape(s) && Kin(s) && FamCpus(s)
  }

  ghost predicate Kin(s: State) {
    MakingInv(s) && ParentInv(s) && UnlinkedInv(s)
  }

  lemma InitFamily(s: State)
    requires Init(s)
    ensures Family(s)
  {
  }

  /** A position about which Family says nothing. */
  predicate Plain(a: Act) {
    !(a.ExitW1? || a.ExitL1? || a.ExitW2? || a.ExitL2? || a.ExitB? || a.WaitScan? || a.WaitReap?)
  }

  /** x and y agree on family matters: same relations, and no change to or from USED or ZOMBIE. */
  predicate SameKin(x: Proc, y: Proc) {
    && x.parent == y.parent && x.making == y.making
    && (x.st == ZOMBIE <==> y.st == ZOMBIE) && (x.st == USED <==> y.st == USED)
  }

  /** A step of CPU c that leaves relations alone and reaps nothing. */
  lemma KinFrame(s: State, t: State, c: nat)
    requires Family(s) && Shape(t) && c < s.ncpus && t.ncpus == s.ncpus && t.init == s.init
    requires t.all == s.all && t.procs.Keys == s.procs.Keys && t.freed == s.freed
    requires forall p :: p in s.procs ==> SameKin(s.procs[p], t.procs[p])
    requires t.cpu == s.cpu[c := t.cpu[c]]
    requires FamCpu(t, c)
    requires t.wait == s.wait || s.wait == Free || (s.wait == HeldBy(c) && !s.cpu[c].act.WaitReap?)
    requires s.wait == HeldBy(c) && s.cpu[c].act.WaitReap? ==> t.cpu[c].act == s.cpu[c].act
    ensures Family(t)
  {
    forall d | 0 <= d < t.ncpus ensures FamCpu(t, d) {
      if d != c { assert FamCpu(s, d); }
    }
  }

  /** ... and ends where Family has nothing to say. */
  lemma PlainStep(s: State, t: State, c: nat)
    requires Family(s) && Shape(t) && c < s.ncpus && t.ncpus == s.ncpus && t.init == s.init
    requires t.all == s.all && t.procs.Keys == s.procs.Keys && t.freed == s.freed
    requires forall p :: p in s.procs ==> SameKin(s.procs[p], t.procs[p])
    requires t.cpu == s.cpu[c := t.cpu[c]] && Plain(t.cpu[c].act) && !s.cpu[c].act.WaitReap?
    requires t.cpu[c].irq == s.cpu[c].irq
    requires t.wait == s.wait || s.wait == Free || s.wait == HeldBy(c)
    ensures Family(t)
  {
    assert FamCpu(s, c);
    KinFrame(s, t, c);
  }

  /* ---- exit ---- */

  lemma ExitBeginFamily(s: State, c: nat)
    requires Core(s) && Family(s) && RunsAt(s, c) && s.cpu[c].act.User? && Cur(s, c) != s.init
    requires Me(s, c).making.None? && s.wait == Free && s.ptable == Free
    ensures Family(DoExitBegin(s, c))
  {
    hide RunqInv, Rests, Kin;
    var t := DoExitBegin(s, c);
    assert CpuInv(s, c) && PlaceInv(s, Cur(s, c));
    ExitBeginKin(s, c);
    forall d | 0 <= d < t.ncpus ensures FamCpu(t, d) {
      assert FamCpu(s, d);
      assert !HoldsWait(s.cpu[d].act);
      if d != c { FamCpuFrame(s, t, d); }
    }
  }

  lemma ExitBeginKin(s: State, c: nat)
    requires Core(s) && Family(s) && RunsAt(s, c) && s.wait == Free && Cur(s, c) != s.init && Cur(s, c) in s.all
    requires Me(s, c).making.None?
    ensures var t := DoExitBegin(s, c);
            Shape(t) && Kin(t) && Childless(t, Cur(s, c))
  {
    var t := DoExitBegin(s, c);
    assert forall q :: q in s.procs ==> t.procs[q].st == s.procs[q].st && t.procs[q].making == s.procs[q].making;
    forall q | q in s.procs && s.procs[q].parent == Some(Cur(s, c)) ensures q in s.all { assert PlaceInv(s, q); }
  }

  lemma ExitZombieFamily(s: State, c: nat)
    requires Core(s) && Family(s) && RunsAt(s, c) && s.cpu[c].act.ExitB?
    ensures Family(DoExitZombie(s, c))
  {
    hide RunqInv, Rests;
    var t := DoExitZombie(s, c);
    assert CpuInv(s, c) && PlaceInv(s, Cur(s, c)) && FamCpu(s, c);
    forall d | 0 <= d < t.ncpus ensures FamCpu(t, d) {
      assert FamCpu(s, d);
      assert d != c ==> !HoldsWait(s.cpu[d].act);
    }
  }

  /* ---- wait ---- */

  lemma UnlinkFamily(s: State, c: nat, np: nat)
    requires Core(s) && Family(s) && RunsAt(s, c) && s.cpu[c].act.WaitScan? && np in s.all
    requires s.procs[np].st == ZOMBIE && s.procs[np].parent == s.cpu[c].cur
    ensures Family(At(s.(all := s.all - {np}, ptable := Free), c, WaitReap(np)))
  {
    hide RunqInv, Rests;
    var t := At(s.(all := s.all - {np}, ptable := Free), c, WaitReap(np));
    assert CpuInv(s, c) && PlaceInv(s, np);
    forall d | 0 <= d < t.ncpus ensures FamCpu(t, d) {
      assert FamCpu(s, d);
      assert d != c ==> !HoldsPtable(s.cpu[d]);
      assert d != c ==> !HoldsWait(s.cpu[d].act);
    }
  }

  lemma WaitFreeFamily(s: State, c: nat)
    requires Core(s) && Family(s) && RunsAt(s, c) && s.cpu[c].act.WaitReap?
    ensures Family(DoWaitFree(s, c))
  {
    hide RunqInv, Rests;
    var t := DoWaitFree(s, c);
    var np := s.cpu[c].act.np;
    assert CpuInv(s, c) && FamCpu(s, c);
    assert Shape(t) by { FreedElsewhere(s, c, np); }
    forall d | 0 <= d < t.ncpus ensures FamCpu(t, d) {
      assert FamCpu(s, d);
      assert d != c ==> !HoldsWait(s.cpu[d].act);
    }
  }

  /** CPU u has yet to visit q in a walk over the process list. */
  predicate WillVisit(u: Cpu, q: nat) {
    || (match u.act
        case ExitL1(rest) => q in rest
        case ExitL2(rest) => q in rest
        case WaitScan(rest, _) => q in rest
        case _ => false)
    || (u.irq.ILoop? && q in u.irq.rest)
  }

  /** Nothing refers to a zombie about to be freed: no CPU is on it or has dequeued it, it
      is not queued, no list walk will reach it, and nobody's parent or maker link names it. */
  ghost predicate Forgotten(s: State, np: nat)
    requires Shape(s)
  {
    && (forall d :: 0 <= d < s.ncpus ==>
          && s.cpu[d].cur != Some(np) && s.cpu[d].act != SGot(np) && s.cpu[d].act != SBack(np)
          && !WillVisit(s.cpu[d], np))
    && np !in s.runq && np !in s.all
    && (forall q :: q in s.procs ==> s.procs[q].parent != Some(np) && s.procs[q].making != Some(np))
  }

  lemma FreedElsewhere(s: State, c: nat, np: nat)
    requires Core(s) && Family(s) && c < s.ncpus && s.cpu[c].act == WaitReap(np) && s.cpu[c].cur.Some?
    ensures np in s.procs && s.procs[np].st == ZOMBIE && s.procs[np].lock == Free && s.procs[np].parent == s.cpu[c].cur
    ensures Forgotten(s, np)
  {
    assert FamCpu(s, c) && PlaceInv(s, np);
    forall d | 0 <= d < s.ncpus
      ensures s.cpu[d].cur != Some(np) && s.cpu[d].act != SGot(np) && s.cpu[d].act != SBack(np)
    {
      assert CpuInv(s, d);
    }
    forall d | 0 <= d < s.ncpus ensures !WillVisit(s.cpu[d], np) {
      assert FamCpu(s, d) && CpuInv(s, d);
    }
  }

  /* ---- fork ---- */

  /** The per-CPU facts survive a change of the list and of relations that spares them. */
  lemma FamCpuFrame(s: State, t: State, d: nat)
    requires Shape(s) && Shape(t) && s.ncpus == t.ncpus && d < s.ncpus && t.cpu[d] == s.cpu[d] && t.init == s.init
    requires FamCpu(s, d) && s.all <= t.all
    requires s.cpu[d].cur.Some? && Childless(s, s.cpu[d].cur.value) && HoldsWait(s.cpu[d].act) ==>
               Childless(t, s.cpu[d].cur.value)
    requires s.cpu[d].act.WaitReap? ==>
               var np := s.cpu[d].act.np;
               np in s.procs ==> np in t.procs && t.procs[np] == s.procs[np] && (np in t.all <==> np in s.all)
    ensures FamCpu(t, d)
  {
  }

  lemma AllocprocFamily(s: State, c: nat, np: nat)
    requires Core(s) && Family(s) && RunsAt(s, c) && s.cpu[c].act.User? && Me(s, c).making.None?
    requires np !in s.procs && np !in s.freed
    ensures Family(DoAllocproc(s, c, np))
  {
    var t := DoAllocproc(s, c, np);
    assert CpuInv(s, c);
    AllocprocKin(s, c, np);
    forall d | 0 <= d < t.ncpus ensures FamCpu(t, d) {
      assert FamCpu(s, d) && CpuInv(s, d);
      MakerCpu(s, t, c, d);
    }
  }

  /** Another CPU's facts survive a change to the maker c runs and to a private process. */
  lemma MakerCpu(s: State, t: State, c: nat, d: nat)
    requires Shape(s) && Shape(t) && t == s.(procs := t.procs) && RunsAt(s, c) && s.cpu[c].act.User?
    requires d < s.ncpus && FamCpu(s, d) && CpuInv(s, d) && CpuInv(s, c)
    requires forall q :: q in s.procs && q in t.procs && q != Cur(s, c) ==> t.procs[q] == s.procs[q]
    requires forall q :: q in t.procs && q !in s.procs ==> t.procs[q].parent == None
    requires forall q :: q in s.procs && q !in t.procs ==> s.procs[q].st == USED
    requires Cur(s, c) in t.procs && t.procs[Cur(s, c)].parent == s.procs[Cur(s, c)].parent
    ensures FamCpu(t, d)
  {
    FamCpuFrame(s, t, d);
  }

  lemma AllocprocKin(s: State, c: nat, np: nat)
    requires Shape(s) && Kin(s) && RunsAt(s, c) && Me(s, c).making.None? && Me(s, c).st == RUNNING
    requires np !in s.procs && np !in s.freed
    ensures var t := DoAllocproc(s, c, np);
            Shape(t) && Kin(t)
  {
    var t := DoAllocproc(s, c, np);
    forall q | q in s.procs ensures t.procs[q].parent == s.procs[q].parent && t.procs[q].st == s.procs[q].st {}
    assert MakingInv(t) by {
      forall q | q in s.procs && q != Cur(s, c) ensures t.procs[q].making == s.procs[q].making {}
    }
  }

  lemma ForkFailFamily(s: State, c: nat)
    requires Core(s) && Family(s) && RunsAt(s, c) && s.cpu[c].act.User? && Me(s, c).making.Some?
    ensures Family(DoForkFail(s, c))
  {
    PrivateOffCpu(s, Me(s, c).making.value);
    assert CpuInv(s, c);
    ForkFailKin(s, c);
    ForkFailCpus(s, c);
  }

  lemma PrivateOffCpu(s: State, np: nat)
    requires Core(s) && np in s.procs && np !in s.all
    ensures forall d :: 0 <= d < s.ncpus ==> s.cpu[d].cur != Some(np)
  {
    assert PlaceInv(s, np);
    forall d | 0 <= d < s.ncpus ensures s.cpu[d].cur != Some(np) { assert CpuInv(s, d); }
  }

  lemma ForkFailCpus(s: State, c: nat)
    requires Shape(s) && CpusInv(s) && FamCpus(s) && MakingInv(s) && RunsAt(s, c) && s.cpu[c].act.User?
    requires Me(s, c).making.Some? && Shape(DoForkFail(s, c))
    ensures FamCpus(DoForkFail(s, c))
  {
    var t := DoForkFail(s, c);
    forall d | 0 <= d < t.ncpus ensures FamCpu(t, d) {
      assert FamCpu(s, d) && CpuInv(s, d) && CpuInv(s, c);
      MakerCpu(s, t, c, d);
    }
  }

  lemma ForkFailKin(s: State, c: nat)
    requires Shape(s) && Kin(s) && RunsAt(s, c) && Me(s, c).making.Some? && Me(s, c).st == RUNNING
    requires forall d :: 0 <= d < s.ncpus ==> s.cpu[d].cur != Me(s, c).making
    ensures var t := DoForkFail(s, c);
            Shape(t) && Kin(t)
  {
    hide MakingInv;
    var t := DoForkFail(s, c);
    ForkFailMaking(s, c);
    assert forall q :: q in t.procs ==> t.procs[q].parent == s.procs[q].parent && t.procs[q].st == s.procs[q].st;
  }

  lemma ForkFailMaking(s: State, c: nat)
    requires Shape(s) && MakingInv(s) && RunsAt(s, c) && Me(s, c).making.Some? && Me(s, c).st == RUNNING
    ensures MakingInv(DoForkFail(s, c)) && Me(s, c).making.value in s.procs && s.procs[Me(s, c).making.value].st == USED
    ensures Me(s, c).making.value !in s.all
  {
    var t := DoForkFail(s, c);
    assert forall q :: q in t.procs ==> t.procs[q].st == s.procs[q].st;
    assert forall q :: q in t.procs && q != Cur(s, c) ==> t.procs[q].making == s.procs[q].making;
  }

  lemma ActivateFamily(s: State, c: nat, parent: Option<nat>)
    requires Core(s) && Family(s) && RunsAt(s, c) && s.cpu[c].act.User? && Me(s, c).making.Some?
    requires parent == None || (parent == s.cpu[c].cur && s.wait == Free)
    ensures Family(DoActivate(s, c, parent))
  {
    var t := DoActivate(s, c, parent);
    var p := Cur(s, c);
    assert CpuInv(s, c) && PlaceInv(s, p);
    ActivateKin(s, c, parent);
    forall d | 0 <= d < t.ncpus ensures FamCpu(t, d) {
      assert FamCpu(s, d) && CpuInv(s, d);
      ActivateCpu(s, c, parent, d);
    }
  }

  lemma ActivateCpu(s: State, c: nat, parent: Option<nat>, d: nat)
    requires Shape(s) && LocksInv(s) && Kin(s) && RunsAt(s, c) && s.cpu[c].act.User? && Me(s, c).making.Some?
    requires parent == None || (parent == s.cpu[c].cur && s.wait == Free)
    requires Shape(DoActivate(s, c, parent))
    requires d < s.ncpus && FamCpu(s, d) && CpuInv(s, d) && CpuInv(s, c)
    ensures FamCpu(DoActivate(s, c, parent), d)
  {
    var t := DoActivate(s, c, parent);
    assert parent != None ==> !HoldsWait(s.cpu[d].act);
    if s.cpu[d].cur.Some? && Childless(s, s.cpu[d].cur.value) && HoldsWait(s.cpu[d].act) {
      assert d != c && s.cpu[d].cur.value != Cur(s, c);
      forall q | q in t.procs ensures t.procs[q].parent != s.cpu[d].cur {}
    }
    FamCpuFrame(s, t, d);
  }

  lemma ActivateKin(s: State, c: nat, parent: Option<nat>)
    requires Shape(s) && Kin(s) && RunsAt(s, c) && Me(s, c).making.Some? && Me(s, c).st == RUNNING && Cur(s, c) in s.all
    requires parent == None || parent == s.cpu[c].cur
    ensures var t := DoActivate(s, c, parent);
            Shape(t) && Kin(t)
  {
    var t := DoActivate(s, c, parent);
    var np := Me(s, c).making.value;
    assert ParentInv(t) && UnlinkedInv(t) by {
      forall q | q in s.procs && q != np
        ensures t.procs[q].parent == s.procs[q].parent && t.procs[q].st == s.procs[q].st {}
    }
    ActivateMaking(s, c, parent);
  }

  lemma ActivateMaking(s: State, c: nat, parent: Option<nat>)
    requires Shape(s) && MakingInv(s) && RunsAt(s, c) && Me(s, c).making.Some? && Me(s, c).st == RUNNING
    ensures MakingInv(DoActivate(s, c, parent))
  {
    var t := DoActivate(s, c, parent);
    var np := Me(s, c).making.value;
    forall q | q in s.procs && q != Cur(s, c)
      ensures t.procs[q].making == s.procs[q].making && s.procs[q].making != Some(np) {}
    assert s.procs[np].making == None;
  }
}

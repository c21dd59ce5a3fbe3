/**
 Every step keeps every invariant, and what that means for whole runs.
 */
module SchedTheorems {
  import opened Wrappers
  import opened SchedProtocol
  import opened SchedSafety
  import opened SchedFamily
  import opened SchedWakeup
  import opened SchedIntr

  ghost predicate Inv(s: State) {
    Core(s) && Family(s) && Wakeful(s) && Jobs(s)
  }

  /** A step of CPU c that touches one process, and neither its relations nor its job. */
  lemma OneProc(s: State, t: State, c: nat, p: nat)
    requires Family(s) && Core(s) && Jobs(s) && Shape(t) && c < s.ncpus == t.ncpus && p in s.procs && p in t.procs
    requires t == s.(cpu := s.cpu[c := t.cpu[c]], procs := s.procs[p := t.procs[p]], runq := t.runq,
                     wait := t.wait, ptable := t.ptable, condLock := t.condLock)
    requires SameKin(s.procs[p], t.procs[p]) && t.procs[p].job == s.procs[p].job
    requires Plain(t.cpu[c].act) && !s.cpu[c].act.WaitReap? && t.cpu[c].irq == s.cpu[c].irq && !Exiting(t.cpu[c].act)
    requires t.wait == s.wait || s.wait == Free || s.wait == HeldBy(c)
    ensures Family(t) && Jobs(t)
  {
    PlainStep(s, t, c);
    OneProcJobs(s, t, p);
    CpuStepJobs(s, t, c);
  }

  lemma OneProcJobs(s: State, t: State, p: nat)
    requires Jobs(s) && p in s.procs && p in t.procs && t.procs == s.procs[p := t.procs[p]]
    requires t == s.(cpu := t.cpu, procs := t.procs, runq := t.runq,
                     wait := t.wait, ptable := t.ptable, condLock := t.condLock)
    requires SameKin(s.procs[p], t.procs[p]) && t.procs[p].job == s.procs[p].job
    ensures SameJobs(s, t)
  {
    forall q | q in s.procs && (s.procs[q].st == USED || s.procs[q].st == ZOMBIE) ensures s.procs[q].job == None {
      NoJob(s, q);
    }
  }

  lemma LeaveRest(s: State, c: nat, x: Proc)
    requires Family(s) && Core(s) && Jobs(s) && RunsAt(s, c) && Shape(DoSwitch(s, c, x)) && HoldsSelf(s.cpu[c].act)
    requires SameKin(Me(s, c), x) && x.job == Me(s, c).job
    ensures Family(DoSwitch(s, c, x)) && Jobs(DoSwitch(s, c, x))
  {
    OneProc(s, DoSwitch(s, c, x), c, Cur(s, c));
  }

  /** A step that moves CPU c and no process. */
  lemma MoveRest(s: State, t: State, c: nat)
    requires Family(s) && Core(s) && Jobs(s) && Shape(t) && RunsAt(s, c) && t.ncpus == s.ncpus
    requires t == s.(cpu := s.cpu[c := t.cpu[c]], wait := t.wait, ptable := t.ptable, condLock := t.condLock)
    requires Plain(t.cpu[c].act) && !s.cpu[c].act.WaitReap? && t.cpu[c].irq == s.cpu[c].irq && !Exiting(t.cpu[c].act)
    requires t.wait == s.wait || s.wait == Free || s.wait == HeldBy(c)
    ensures Family(t) && Jobs(t)
  {
    assert t.procs == s.procs[Cur(s, c) := Me(s, c)];
    OneProc(s, t, c, Cur(s, c));
  }

  /* ---- scheduler steps ---- */

  lemma DequeueKeeps(s: State, c: nat)
    requires Inv(s) && c < s.ncpus && s.cpu[c].irq.INone? && s.cpu[c].act.SIdle? && |s.runq| > 0 && s.runq[0] in s.procs
    ensures Inv(DoDequeue(s, c))
  {
    assert CpuInv(s, c);
    DequeueCore(s, c);
    DequeueWakeful(s, c);
    OneProc(s, DoDequeue(s, c), c, s.runq[0]);
  }

  lemma DispatchKeeps(s: State, c: nat)
    requires Inv(s) && c < s.ncpus && s.cpu[c].irq.INone? && s.cpu[c].act.SGot? && s.cpu[c].act.p in s.procs
    ensures Inv(DoDispatch(s, c))
  {
    assert CpuInv(s, c) && PlaceInv(s, s.cpu[c].act.p);
    DispatchCore(s, c);
    DispatchWakeful(s, c);
    OneProc(s, DoDispatch(s, c), c, s.cpu[c].act.p);
  }

  lemma BackKeeps(s: State, c: nat)
    requires Inv(s) && c < s.ncpus && s.cpu[c].act.SBack? && s.cpu[c].act.p in s.procs
    ensures Inv(DoBack(s, c))
  {
    BackCore(s, c);
    BackWakeful(s, c);
    OneProc(s, DoBack(s, c), c, s.cpu[c].act.p);
  }

  lemma ResumeKeeps(s: State, c: nat)
    requires Inv(s) && RunsAt(s, c) && s.cpu[c].act.Resumed?
    ensures Inv(DoResume(s, c))
  {
    assert PlaceInv(s, Cur(s, c));
    ResumeCore(s, c);
    ResumeWakeful(s, c);
    OneProc(s, DoResume(s, c), c, Cur(s, c));
  }

  lemma YieldKeeps(s: State, c: nat)
    requires Inv(s) && RunsAt(s, c) && Preemptible(s.cpu[c].act) && Me(s, c).lock == Free
    ensures Inv(DoYield(s, c))
  {
    YieldCore(s, c);
    YieldWakeful(s, c);
    OneProc(s, DoYield(s, c), c, Cur(s, c));
  }

  lemma YieldSwitchKeeps(s: State, c: nat)
    requires Inv(s) && RunsAt(s, c) && s.cpu[c].act.Yielding?
    ensures Inv(DoSwitch(s, c, Me(s, c).(st := RUNNABLE, resume := s.cpu[c].act.back)))
  {
    var x := Me(s, c).(st := RUNNABLE, resume := s.cpu[c].act.back);
    assert CpuInv(s, c);
    SwitchCore(s, c, x);
    SwitchWakeful(s, c, x);
    LeaveRest(s, c, x);
  }

  /* ---- sleep steps ---- */

  lemma AwaitKeeps(s: State, c: nat, k: nat)
    requires Inv(s) && RunsAt(s, c) && k < s.nk && s.condLock[k] == Free
    requires s.cpu[c].act.User? || s.cpu[c].act == Reacq(Cond(k))
    ensures Inv(At(LockCond(s, k, HeldBy(c)), c, Checking(k)))
  {
    AwaitCore(s, c, k);
    AwaitWakeful(s, c, k);
    MoveRest(s, At(LockCond(s, k, HeldBy(c)), c, Checking(k)), c);
  }

  lemma ConsumeKeeps(s: State, c: nat)
    requires Inv(s) && RunsAt(s, c) && s.cpu[c].act.Checking? && s.cpu[c].act.k < s.nk && s.cond[s.cpu[c].act.k]
    requires s.isIrq[s.cpu[c].act.k] ==> Me(s, c).job.None?
    ensures Inv(DoConsume(s, c))
  {
    ConsumeCore(s, c);
    ConsumeWakeful(s, c);
    ConsumeJobs(s, c);
    PlainStep(s, DoConsume(s, c), c);
  }

  lemma SleepLockKeeps(s: State, c: nat, ch: Chan)
    requires Inv(s) && RunsAt(s, c) && Me(s, c).lock == Free && OwnChan(s, Cur(s, c), ch)
    requires || (s.cpu[c].act.Checking? && ch == Cond(s.cpu[c].act.k) && !s.cond[ch.k])
             || (s.cpu[c].act.WaitDone? && ch.Child?)
    ensures Inv(DoSleepLock(s, c, ch))
  {
    SleepLockCore(s, c, ch);
    SleepLockWakeful(s, c, ch);
    OneProc(s, DoSleepLock(s, c, ch), c, Cur(s, c));
  }

  lemma SleepReleaseKeeps(s: State, c: nat)
    requires Inv(s) && RunsAt(s, c) && s.cpu[c].act.SleepB? && (s.cpu[c].act.ch.Cond? ==> s.cpu[c].act.ch.k < s.nk)
    ensures Inv(DoSleepRelease(s, c))
  {
    assert CpuInv(s, c);
    SleepReleaseCore(s, c);
    SleepReleaseWakeful(s, c);
    MoveRest(s, DoSleepRelease(s, c), c);
  }

  lemma SleepSwitchKeeps(s: State, c: nat)
    requires Inv(s) && RunsAt(s, c) && s.cpu[c].act.SleepC?
    ensures Inv(DoSleepSwitch(s, c))
  {
    var ch := s.cpu[c].act.ch;
    var x := Me(s, c).(st := SLEEPING, chan := ch, resume := Reacq(ch));
    assert CpuInv(s, c);
    SwitchCore(s, c, x);
    SwitchWakeful(s, c, x);
    LeaveRest(s, c, x);
  }

  /** wait() taking wait_lock, on entry or after sleeping. */
  lemma WaitLockKeeps(s: State, c: nat)
    requires Inv(s) && RunsAt(s, c) && (s.cpu[c].act.Reacq? || s.cpu[c].act.User?) && s.wait == Free
    ensures Inv(At(s.(wait := HeldBy(c)), c, WaitStart))
  {
    MoveCore(s, c, HeldBy(c), s.ptable, WaitStart);
    ReacquireWaitWakeful(s, c);
    MoveRest(s, At(s.(wait := HeldBy(c)), c, WaitStart), c);
  }

  /* ---- exit steps ---- */

  lemma ExitBeginKeeps(s: State, c: nat)
    requires Inv(s) && RunsAt(s, c) && s.cpu[c].act.User? && Cur(s, c) != s.init && Me(s, c).making.None?
    requires Me(s, c).job.None? && s.wait == Free && s.ptable == Free
    ensures Inv(DoExitBegin(s, c))
  {
    ReparentCore(s, c);
    ExitBeginWakeful(s, c);
    ExitBeginFamily(s, c);
    ExitBeginJobs(s, c);
  }

  lemma ExitBeginJobs(s: State, c: nat)
    requires Core(s) && Jobs(s) && RunsAt(s, c) && s.cpu[c].act.User? && Me(s, c).job.None?
    ensures Jobs(DoExitBegin(s, c))
  {
    forall q | q in s.procs && (s.procs[q].st == USED || s.procs[q].st == ZOMBIE) ensures s.procs[q].job == None {
      NoJob(s, q);
    }
    CpuStepJobs(s, DoExitBegin(s, c), c);
  }

  /** Exit's positions between reparenting and becoming a zombie. */
  predicate Midway(a: Act, all: set<nat>) {
    a.ExitW2? || a.ExitB? || (a.ExitL1? && a.rest <= all) || (a.ExitL2? && a.rest <= all)
  }

  lemma ExitMoveFamily(s: State, t: State, c: nat)
    requires Family(s) && RunsAt(s, c) && Shape(t) && t.ncpus == s.ncpus
    requires s.cpu[c].act.ExitW1? || s.cpu[c].act.ExitL1? || s.cpu[c].act.ExitW2? || s.cpu[c].act.ExitL2?
    requires t == s.(cpu := s.cpu[c := s.cpu[c].(act := t.cpu[c].act)], procs := t.procs, runq := t.runq, ptable := t.ptable)
    requires t.procs.Keys == s.procs.Keys
    requires forall p :: p in s.procs ==> SameKin(s.procs[p], t.procs[p])
    requires Midway(t.cpu[c].act, s.all)
    ensures Family(t)
  {
    assert FamCpu(s, c);
    KinFrame(s, t, c);
  }

  lemma ExitMoveJobs(s: State, t: State, c: nat)
    requires Core(s) && Jobs(s) && RunsAt(s, c) && Shape(t) && t.ncpus == s.ncpus && Exiting(s.cpu[c].act)
    requires t == s.(cpu := s.cpu[c := s.cpu[c].(act := t.cpu[c].act)], procs := t.procs, runq := t.runq, ptable := t.ptable)
    requires t.procs.Keys == s.procs.Keys
    requires forall p :: p in s.procs ==> SameKin(s.procs[p], t.procs[p]) && t.procs[p].job == s.procs[p].job
    ensures Jobs(t)
  {
    forall q | q in s.procs && (s.procs[q].st == USED || s.procs[q].st == ZOMBIE) ensures s.procs[q].job == None {
      NoJob(s, q);
    }
    CpuStepJobs(s, t, c);
  }

  lemma ExitMoveKeeps(s: State, c: nat, ptable: Holder, a: Act)
    requires Inv(s) && RunsAt(s, c)
    requires || (s.cpu[c].act.ExitW1? && a == ExitL1(s.all) && s.ptable == Free && ptable == HeldBy(c))
             || (s.cpu[c].act == ExitL1({}) && a == (if SecondWake(s, c) then ExitW2 else ExitB) && ptable == Free)
             || (s.cpu[c].act.ExitW2? && a == ExitL2(s.all) && s.ptable == Free && ptable == HeldBy(c))
             || (s.cpu[c].act == ExitL2({}) && a == ExitB && ptable == Free)
    ensures Inv(At(s.(ptable := ptable), c, a))
  {
    var t := At(s.(ptable := ptable), c, a);
    MoveCore(s, c, s.wait, ptable, a);
    ExitMoveWakeful(s, t, c);
    ExitMoveFamily(s, t, c);
    ExitMoveJobs(s, t, c);
  }

  lemma VisitCore(s: State, c: nat, q: nat, ch: Chan, a: Act)
    requires Core(s) && Family(s) && RunsAt(s, c) && q in s.all && (q == Cur(s, c) || s.procs[q].lock == Free)
    requires (s.cpu[c].act.ExitL1? && a.ExitL1?) || (s.cpu[c].act.ExitL2? && a.ExitL2?)
    ensures Core(At(Wake(s, q, false, ch, s.cpu[c].cur), c, a))
  {
    hide RunqInv, Kin, FamCpus, ProcsInv;
    var u := Wake(s, q, false, ch, s.cpu[c].cur);
    WakeCore(s, q, false, ch, s.cpu[c].cur);
    MoveCore(u, c, u.wait, u.ptable, a);
  }

  lemma WakeKin(s: State, q: nat, ch: Chan, self: Option<nat>)
    requires Shape(s) && q in s.procs
    ensures var t := Wake(s, q, false, ch, self);
            && Shape(t) && t == s.(procs := t.procs, runq := t.runq) && t.procs.Keys == s.procs.Keys
            && forall p :: p in s.procs ==> SameKin(s.procs[p], t.procs[p]) && t.procs[p].job == s.procs[p].job
  {
  }

  lemma VisitRest(s: State, c: nat, q: nat, ch: Chan, a: Act)
    requires Core(s) && Family(s) && Jobs(s) && RunsAt(s, c) && q in s.all
    requires (s.cpu[c].act.ExitL1? && a.ExitL1?) || (s.cpu[c].act.ExitL2? && a.ExitL2?)
    requires a.rest <= s.all
    ensures Family(At(Wake(s, q, false, ch, s.cpu[c].cur), c, a)) && Jobs(At(Wake(s, q, false, ch, s.cpu[c].cur), c, a))
  {
    var t := At(Wake(s, q, false, ch, s.cpu[c].cur), c, a);
    WakeKin(s, q, ch, s.cpu[c].cur);
    ExitMoveFamily(s, t, c);
    ExitMoveJobs(s, t, c);
  }

  lemma ExitVisit1Keeps(s: State, c: nat, q: nat)
    requires Inv(s) && RunsAt(s, c) && s.cpu[c].act.ExitL1? && q in s.cpu[c].act.rest
    requires q in s.procs && (q == Cur(s, c) || s.procs[q].lock == Free)
    ensures Inv(At(Wake(s, q, false, Child(s.init), s.cpu[c].cur), c, ExitL1(s.cpu[c].act.rest - {q})))
  {
    var t := At(Wake(s, q, false, Child(s.init), s.cpu[c].cur), c, ExitL1(s.cpu[c].act.rest - {q}));
    assert FamCpu(s, c);
    VisitCore(s, c, q, Child(s.init), t.cpu[c].act);
    ExitVisit1Wakeful(s, c, q);
    VisitRest(s, c, q, Child(s.init), t.cpu[c].act);
  }

  lemma ExitVisit2Keeps(s: State, c: nat, q: nat)
    requires Inv(s) && RunsAt(s, c) && s.cpu[c].act.ExitL2? && q in s.cpu[c].act.rest && Me(s, c).parent.Some?
    requires q in s.procs && (q == Cur(s, c) || s.procs[q].lock == Free)
    ensures Inv(At(Wake(s, q, false, Child(Me(s, c).parent.value), s.cpu[c].cur), c,
                   ExitL2(s.cpu[c].act.rest - {q})))
  {
    var ch := Child(Me(s, c).parent.value);
    var t := At(Wake(s, q, false, ch, s.cpu[c].cur), c, ExitL2(s.cpu[c].act.rest - {q}));
    assert FamCpu(s, c);
    VisitCore(s, c, q, ch, t.cpu[c].act);
    ExitVisit2Wakeful(s, c, q);
    VisitRest(s, c, q, ch, t.cpu[c].act);
  }

  lemma ExitZombieKeeps(s: State, c: nat)
    requires Inv(s) && RunsAt(s, c) && s.cpu[c].act.ExitB? && Me(s, c).lock == Free
    ensures Inv(DoExitZombie(s, c))
  {
    ExitZombieCore(s, c);
    ExitZombieWakeful(s, c);
    ExitZombieFamily(s, c);
    ExitZombieJobs(s, c);
  }

  lemma ExitZombieJobs(s: State, c: nat)
    requires Core(s) && Jobs(s) && RunsAt(s, c) && s.cpu[c].act.ExitB?
    ensures Jobs(DoExitZombie(s, c))
  {
    forall q | q in s.procs && (s.procs[q].st == USED || s.procs[q].st == ZOMBIE) ensures s.procs[q].job == None {
      NoJob(s, q);
    }
    CpuStepJobs(s, DoExitZombie(s, c), c);
  }

  lemma ExitSwitchKeeps(s: State, c: nat)
    requires Inv(s) && RunsAt(s, c) && s.cpu[c].act.ExitZ?
    ensures Inv(DoSwitch(s, c, Me(s, c)))
  {
    assert CpuInv(s, c) && PlaceInv(s, Cur(s, c));
    SwitchCore(s, c, Me(s, c));
    SwitchWakeful(s, c, Me(s, c));
    LeaveRest(s, c, Me(s, c));
  }

  /* ---- wait steps ---- */

  /** wait() moving within its scan, or leaving it. */
  lemma WaitMoveKeeps(s: State, c: nat, wait: Holder, ptable: Holder, a: Act)
    requires Inv(s) && RunsAt(s, c)
    requires || (s.cpu[c].act.WaitStart? && a == WaitScan(s.all, false) && wait == s.wait && s.ptable == Free
                 && ptable == HeldBy(c))
             || (s.cpu[c].act.WaitScan? && a.User? && wait == Free && ptable == Free)
             || (s.cpu[c].act.WaitScan? && s.cpu[c].act.rest == {} && a.WaitDone? && wait == s.wait && ptable == Free)
             || (s.cpu[c].act.WaitScan? && a.WaitScan? && wait == s.wait && ptable == s.ptable
                 && a.rest <= s.cpu[c].act.rest && (forall z :: HasZombie(s, Cur(s, c), z) ==> z in a.rest))
             || (s.cpu[c].act.WaitDone? && a.User? && wait == Free && ptable == s.ptable)
             || (s.cpu[c].act.WaitDone? && a.WaitDone? && wait == s.wait && ptable == s.ptable)
    ensures Inv(At(s.(wait := wait, ptable := ptable), c, a))
  {
    var t := At(s.(wait := wait, ptable := ptable), c, a);
    MoveCore(s, c, wait, ptable, a);
    WaitMoveWakeful(s, t, c);
    if a.WaitScan? {
      WaitScanRest(s, t, c);
    } else {
      MoveRest(s, t, c);
    }
  }

  lemma WaitScanRest(s: State, t: State, c: nat)
    requires Core(s) && Family(s) && Jobs(s) && RunsAt(s, c) && |t.cpu| == |s.cpu| && HoldsWait(s.cpu[c].act)
    requires t == At(s.(ptable := t.ptable), c, t.cpu[c].act) && t.cpu[c].act.WaitScan?
    requires s.cpu[c].act.WaitStart? || s.cpu[c].act.WaitScan?
    requires s.cpu[c].act.WaitScan? ==> t.cpu[c].act.rest <= s.cpu[c].act.rest
    requires s.cpu[c].act.WaitStart? ==> t.cpu[c].act.rest == s.all
    ensures Family(t) && Jobs(t)
  {
    assert FamCpu(s, c);
    KinFrame(s, t, c);
    forall q | q in s.procs && (s.procs[q].st == USED || s.procs[q].st == ZOMBIE) ensures s.procs[q].job == None {
      NoJob(s, q);
    }
    CpuStepJobs(s, t, c);
  }

  lemma WaitVisitKeeps(s: State, c: nat, np: nat)
    requires Inv(s) && RunsAt(s, c) && s.cpu[c].act.WaitScan? && np in s.cpu[c].act.rest && np in s.procs
    requires s.procs[np].parent == s.cpu[c].cur ==> s.procs[np].lock == Free
    ensures Inv(DoWaitVisit(s, c, np))
  {
    assert FamCpu(s, c) && WakeCpu(s, c);
    if s.procs[np].parent == s.cpu[c].cur && s.procs[np].st == ZOMBIE {
      UnlinkKeeps(s, c, np);
    } else {
      assert !HasZombie(s, Cur(s, c), np);
      WaitMoveKeeps(s, c, s.wait, s.ptable, DoWaitVisit(s, c, np).cpu[c].act);
    }
  }

  lemma UnlinkKeeps(s: State, c: nat, np: nat)
    requires Inv(s) && RunsAt(s, c) && s.cpu[c].act.WaitScan? && np in s.all
    requires s.procs[np].parent == s.cpu[c].cur && s.procs[np].st == ZOMBIE && s.procs[np].lock == Free
    ensures Inv(At(s.(all := s.all - {np}, ptable := Free), c, WaitReap(np)))
  {
    UnlinkCore(s, c, np);
    UnlinkFamily(s, c, np);
    UnlinkWakeful(s, c, np);
    UnlinkJobs(s, c, np);
  }

  lemma UnlinkJobs(s: State, c: nat, np: nat)
    requires Core(s) && Jobs(s) && RunsAt(s, c) && np in s.all && np != s.init
    ensures Jobs(At(s.(all := s.all - {np}, ptable := Free), c, WaitReap(np)))
  {
    forall q | q in s.procs && (s.procs[q].st == USED || s.procs[q].st == ZOMBIE) ensures s.procs[q].job == None {
      NoJob(s, q);
    }
    CpuStepJobs(s, At(s.(all := s.all - {np}, ptable := Free), c, WaitReap(np)), c);
  }

  lemma WaitFreeKeeps(s: State, c: nat)
    requires Inv(s) && RunsAt(s, c) && s.cpu[c].act.WaitReap?
    ensures Inv(DoWaitFree(s, c))
  {
    WaitFreeCore(s, c);
    WaitFreeFamily(s, c);
    WaitFreeWakeful(s, c);
    WaitFreeJobs(s, c);
  }

  lemma WaitFreeCore(s: State, c: nat)
    requires Core(s) && Family(s) && RunsAt(s, c) && s.cpu[c].act.WaitReap?
    ensures Core(DoWaitFree(s, c))
  {
    var np := s.cpu[c].act.np;
    FreedElsewhere(s, c, np);
    var u := s.(procs := s.procs - {np}, freed := s.freed + {np});
    DropCore(s, u, np);
    MoveCore(u, c, Free, s.ptable, User);
  }

  lemma WaitFreeJobs(s: State, c: nat)
    requires Core(s) && Family(s) && Jobs(s) && RunsAt(s, c) && s.cpu[c].act.WaitReap?
    ensures Jobs(DoWaitFree(s, c))
  {
    FreedElsewhere(s, c, s.cpu[c].act.np);
    forall q | q in s.procs && (s.procs[q].st == USED || s.procs[q].st == ZOMBIE) ensures s.procs[q].job == None {
      NoJob(s, q);
    }
    CpuStepJobs(s, DoWaitFree(s, c), c);
  }

  /* ---- fork steps ---- */

  lemma AllocprocKeeps(s: State, c: nat, np: nat)
    requires Inv(s) && RunsAt(s, c) && s.cpu[c].act.User? && Me(s, c).making.None? && np !in s.procs && np !in s.freed
    ensures Inv(DoAllocproc(s, c, np))
  {
    AllocprocCore(s, c, np);
    AllocprocFamily(s, c, np);
    AllocprocWakeful(s, c, np);
    AllocprocJobs(s, c, np);
  }

  lemma AllocprocJobs(s: State, c: nat, np: nat)
    requires Core(s) && Jobs(s) && RunsAt(s, c) && np !in s.procs && Shape(DoAllocproc(s, c, np))
    ensures Jobs(DoAllocproc(s, c, np))
  {
    MakeJobs(s, DoAllocproc(s, c, np), c);
  }

  /** Creating, dropping and publishing a private process changes no job. */
  lemma MakeJobs(s: State, t: State, c: nat)
    requires Core(s) && Jobs(s) && RunsAt(s, c) && Shape(t)
    requires t == s.(procs := t.procs, all := t.all, runq := t.runq)
    requires forall q :: q in t.procs && q in s.procs ==>
               t.procs[q].job == s.procs[q].job && (t.procs[q].st == s.procs[q].st || t.procs[q].st == RUNNABLE)
    requires forall q :: q in t.procs && q !in s.procs ==> t.procs[q].job == None
    requires forall q :: q in s.procs && q !in t.procs ==> s.procs[q].st == USED
    ensures Jobs(t)
  {
    forall q | q in s.procs && (s.procs[q].st == USED || s.procs[q].st == ZOMBIE) ensures s.procs[q].job == None {
      NoJob(s, q);
    }
    CpuStepJobs(s, t, c);
  }

  lemma ForkFailKeeps(s: State, c: nat)
    requires Inv(s) && RunsAt(s, c) && s.cpu[c].act.User? && Me(s, c).making.Some?
    ensures Inv(DoForkFail(s, c))
  {
    ForkFailFamily(s, c);
    ForkFailCore(s, c);
    ForkFailWakeful(s, c);
    ForkFailJobs(s, c);
  }

  lemma ForkFailJobs(s: State, c: nat)
    requires Core(s) && Jobs(s) && MakingInv(s) && RunsAt(s, c) && Me(s, c).making.Some? && Shape(DoForkFail(s, c))
    ensures Jobs(DoForkFail(s, c))
  {
    MakeJobs(s, DoForkFail(s, c), c);
  }

  lemma ForkFailCore(s: State, c: nat)
    requires Core(s) && Family(s) && RunsAt(s, c) && Me(s, c).making.Some? && Shape(DoForkFail(s, c))
    ensures Core(DoForkFail(s, c))
  {
    var np := Me(s, c).making.value;
    MakingCore(s, Cur(s, c), None);
    var u := SetProc(s, Cur(s, c), Me(s, c).(making := None));
    DropCore(u, u.(procs := u.procs - {np}), np);
  }

  lemma ActivateKeeps(s: State, c: nat, parent: Option<nat>)
    requires Inv(s) && RunsAt(s, c) && s.cpu[c].act.User? && Me(s, c).making.Some?
    requires parent == None || (parent == s.cpu[c].cur && s.wait == Free)
    ensures Inv(DoActivate(s, c, parent))
  {
    assert CpuInv(s, c) && PlaceInv(s, Cur(s, c));
    ActivateCore(s, c, parent);
    ActivateFamily(s, c, parent);
    ActivateWakeful(s, c, parent);
    ActivateJobs(s, c, parent);
  }

  lemma ActivateJobs(s: State, c: nat, parent: Option<nat>)
    requires Core(s) && Jobs(s) && RunsAt(s, c) && Me(s, c).making.Some? && Me(s, c).making.value in s.procs
    requires Shape(DoActivate(s, c, parent)) && Me(s, c).making.value != Cur(s, c)
    ensures Jobs(DoActivate(s, c, parent))
  {
    MakeJobs(s, DoActivate(s, c, parent), c);
  }

  /* ---- kill and interrupts ---- */

  /** A step that leaves relations and jobs alone and moves at most an interrupt walk. */
  lemma WalkRest(s: State, t: State, c: nat)
    requires Core(s) && Family(s) && Jobs(s) && c < s.ncpus && Shape(t) && t.ncpus == s.ncpus
    requires t == s.(cpu := s.cpu[c := s.cpu[c].(irq := t.cpu[c].irq)], procs := t.procs, runq := t.runq, ptable := t.ptable)
    requires t.procs.Keys == s.procs.Keys
    requires forall p :: p in s.procs ==> SameKin(s.procs[p], t.procs[p]) && t.procs[p].job == s.procs[p].job
    requires t.cpu[c].irq.ILoop? ==> t.cpu[c].irq.rest <= s.all
    ensures Family(t) && Jobs(t)
  {
    WalkFamily(s, t, c);
    forall q | q in s.procs && (s.procs[q].st == USED || s.procs[q].st == ZOMBIE) ensures s.procs[q].job == None {
      NoJob(s, q);
    }
    CpuStepJobs(s, t, c);
  }

  lemma WalkFamily(s: State, t: State, c: nat)
    requires Family(s) && c < s.ncpus && Shape(t) && t.ncpus == s.ncpus
    requires t == s.(cpu := s.cpu[c := s.cpu[c].(irq := t.cpu[c].irq)], procs := t.procs, runq := t.runq, ptable := t.ptable)
    requires t.procs.Keys == s.procs.Keys
    requires forall p :: p in s.procs ==> SameKin(s.procs[p], t.procs[p])
    requires t.cpu[c].irq.ILoop? ==> t.cpu[c].irq.rest <= s.all
    ensures Family(t)
  {
    assert FamCpu(s, c);
    KinFrame(s, t, c);
  }

  lemma KillCore(s: State, q: nat)
    requires Core(s) && q in s.all && s.procs[q].lock == Free
    ensures Core(Wake(SetProc(s, q, s.procs[q].(killed := true)), q, true, NoChan, None))
  {
    KilledCore(s, q);
    WakeCore(SetProc(s, q, s.procs[q].(killed := true)), q, true, NoChan, None);
  }

  lemma KillKin(s: State, q: nat)
    requires Shape(s) && q in s.procs
    ensures var t := Wake(SetProc(s, q, s.procs[q].(killed := true)), q, true, NoChan, None);
            && Shape(t) && t == s.(procs := t.procs, runq := t.runq) && t.procs.Keys == s.procs.Keys
            && forall p :: p in s.procs ==> SameKin(s.procs[p], t.procs[p]) && t.procs[p].job == s.procs[p].job
  {
  }

  lemma KillRest(s: State, c: nat, q: nat)
    requires Core(s) && Family(s) && Jobs(s) && RunsAt(s, c) && q in s.all
    ensures var t := Wake(SetProc(s, q, s.procs[q].(killed := true)), q, true, NoChan, None);
            Family(t) && Jobs(t)
  {
    var t := Wake(SetProc(s, q, s.procs[q].(killed := true)), q, true, NoChan, None);
    assert FamCpu(s, c);
    KillKin(s, q);
    WalkRest(s, t, c);
  }

  lemma KillKeeps(s: State, c: nat, q: nat)
    requires Inv(s) && RunsAt(s, c) && s.cpu[c].act.User? && q in s.all && s.procs[q].lock == Free
    ensures Inv(Wake(SetProc(s, q, s.procs[q].(killed := true)), q, true, NoChan, None))
  {
    KillCore(s, q);
    KillWakeful(s, c, q);
    KillRest(s, c, q);
  }

  lemma RaiseKeeps(s: State, c: nat, k: nat)
    requires Inv(s) && c < s.ncpus && s.cpu[c].irq.INone? && Lockless(s.cpu[c].act) && k < s.nk
    requires s.condLock[k] == Free && (s.isIrq[k] ==> !s.active[k])
    ensures Inv(DoRaise(s, c, k))
  {
    var t := DoRaise(s, c, k);
    IrqCore(s, t, c, IWant(k));
    RaiseWakeful(s, c, k);
    RaiseJobs(s, c, k);
    assert FamCpu(s, c);
    KinFrame(s, t, c);
  }

  lemma IrqWalkKeeps(s: State, c: nat)
    requires Inv(s) && c < s.ncpus && s.cpu[c].irq.IWant? && s.ptable == Free
    ensures Inv(AtIrq(s.(ptable := HeldBy(c)), c, ILoop(s.cpu[c].irq.k, s.all)))
  {
    var t := AtIrq(s.(ptable := HeldBy(c)), c, ILoop(s.cpu[c].irq.k, s.all));
    assert CpuInv(s, c);
    IrqCore(s, t, c, t.cpu[c].irq);
    IrqWalkWakeful(s, c);
    WalkRest(s, t, c);
  }

  lemma IrqEndKeeps(s: State, c: nat)
    requires Inv(s) && c < s.ncpus && s.cpu[c].irq.ILoop? && s.cpu[c].irq.rest == {}
    ensures Inv(AtIrq(s.(ptable := Free), c, INone))
  {
    var t := AtIrq(s.(ptable := Free), c, INone);
    assert CpuInv(s, c);
    IrqCore(s, t, c, INone);
    IrqEndWakeful(s, c);
    WalkRest(s, t, c);
  }

  function IrqVisited(s: State, c: nat, q: nat): State
    requires c < |s.cpu| && s.cpu[c].irq.ILoop? && q in s.procs
  {
    AtIrq(Wake(s, q, false, Cond(s.cpu[c].irq.k), s.cpu[c].cur), c, ILoop(s.cpu[c].irq.k, s.cpu[c].irq.rest - {q}))
  }

  lemma IrqVisitCore(s: State, c: nat, q: nat)
    requires Core(s) && c < s.ncpus && s.cpu[c].irq.ILoop? && q in s.all
    requires s.cpu[c].cur == Some(q) || s.procs[q].lock == Free
    ensures Core(IrqVisited(s, c, q))
  {
    var t := IrqVisited(s, c, q);
    assert CpuInv(s, c);
    WakeCore(s, q, false, Cond(s.cpu[c].irq.k), s.cpu[c].cur);
    IrqCore(Wake(s, q, false, Cond(s.cpu[c].irq.k), s.cpu[c].cur), t, c, t.cpu[c].irq);
  }

  lemma IrqVisitRest(s: State, c: nat, q: nat)
    requires Core(s) && Family(s) && Jobs(s) && c < s.ncpus && s.cpu[c].irq.ILoop? && q in s.procs
    ensures Family(IrqVisited(s, c, q)) && Jobs(IrqVisited(s, c, q))
  {
    assert FamCpu(s, c);
    WakeKin(s, q, Cond(s.cpu[c].irq.k), s.cpu[c].cur);
    WalkRest(s, IrqVisited(s, c, q), c);
  }

  lemma IrqVisitKeeps(s: State, c: nat, q: nat)
    requires Inv(s) && c < s.ncpus && s.cpu[c].irq.ILoop? && q in s.cpu[c].irq.rest && q in s.procs
    requires s.cpu[c].cur == Some(q) || s.procs[q].lock == Free
    ensures Inv(IrqVisited(s, c, q))
  {
    assert FamCpu(s, c);
    IrqVisitCore(s, c, q);
    IrqVisitWakeful(s, c, q);
    IrqVisitRest(s, c, q);
  }

  lemma RunHandlerKeeps(s: State, c: nat, k: nat)
    requires Inv(s) && RunsAt(s, c) && s.cpu[c].act.User? && k < s.nk && Me(s, c).job == Some(Job(k, false))
    ensures Inv(DoHandler(s, c, k))
  {
    var t := DoHandler(s, c, k);
    JobCore(s, t, c, Some(Job(k, true)));
    JobWakeful(s, t, c, Some(Job(k, true)));
    HandlerJobs(s, c, k);
    PlainStep(s, t, c);
  }

  lemma DeactivateKeeps(s: State, c: nat, k: nat)
    requires Inv(s) && RunsAt(s, c) && s.cpu[c].act.User? && k < s.nk && Me(s, c).job == Some(Job(k, true))
    ensures Inv(DoDeactivate(s, c, k))
  {
    var t := DoDeactivate(s, c, k);
    JobCore(s, t, c, None);
    JobWakeful(s, t, c, None);
    DeactivateJobs(s, c, k);
    PlainStep(s, t, c);
  }

  /* ---- all steps ---- */

  lemma SchedStep(s: State, l: Step, s': State)
    requires Inv(s) && SchedNext(s, l, s')
    ensures Inv(s') && s.freed <= s'.freed
  {
    hide RunqInv, ProcsInv, CpusInv, LocksInv, Kin, FamCpus, WaitInv, CondInv, WakeCpus, JobsInv, ExitersIdle;
    match l
    case Dequeue(c) => DequeueKeeps(s, c);
    case Dispatch(c) => DispatchKeeps(s, c);
    case Back(c) => BackKeeps(s, c);
    case _ => RunStep(s, l, s');
  }

  lemma RunStep(s: State, l: Step, s': State)
    requires Inv(s) && SchedNext(s, l, s') && (l.Resume? || l.Yield? || l.YieldSwitch?)
    ensures Inv(s') && s.freed <= s'.freed
  {
    hide RunqInv, ProcsInv, CpusInv, LocksInv, Kin, FamCpus, WaitInv, CondInv, WakeCpus, JobsInv, ExitersIdle;
    match l
    case Resume(c) => ResumeKeeps(s, c);
    case Yield(c) => YieldKeeps(s, c);
    case YieldSwitch(c) => YieldSwitchKeeps(s, c);
  }

  lemma SleepStep(s: State, l: Step, s': State)
    requires Inv(s) && SleepNext(s, l, s')
    ensures Inv(s') && s.freed <= s'.freed
  {
    hide RunqInv, ProcsInv, LocksInv, Kin, FamCpus, WaitInv, CondInv, WakeCpus, JobsInv, ExitersIdle;
    var c := l.c;
    assert CpuInv(s, c);
    match l
    case Await(_, k) => AwaitKeeps(s, c, k);
    case Consume(_) => ConsumeKeeps(s, c);
    case SleepLock(_) => SleepLockKeeps(s, c, Cond(s.cpu[c].act.k));
    case SleepRelease(_) => SleepReleaseKeeps(s, c);
    case SleepSwitch(_) => SleepSwitchKeeps(s, c);
    case Reacquire(_) => if s.cpu[c].act.ch.Cond? { AwaitKeeps(s, c, s.cpu[c].act.ch.k); } else { WaitLockKeeps(s, c); }
  }

  lemma ExitStep(s: State, l: Step, s': State)
    requires Inv(s) && ExitNext(s, l, s')
    ensures Inv(s') && s.freed <= s'.freed
  {
    hide RunqInv, ProcsInv, CpusInv, LocksInv, Kin, FamCpus, WaitInv, CondInv, WakeCpus, JobsInv, ExitersIdle;
    match l
    case ExitBegin(c) => ExitBeginKeeps(s, c);
    case ExitVisit1(c, q) => ExitVisit1Keeps(s, c, q);
    case ExitVisit2(c, q) => ExitVisit2Keeps(s, c, q);
    case ExitZombie(c) => ExitZombieKeeps(s, c);
    case ExitSwitch(c) => ExitSwitchKeeps(s, c);
    case _ => ExitMoveStep(s, l, s');
  }

  lemma ExitMoveStep(s: State, l: Step, s': State)
    requires Inv(s) && ExitNext(s, l, s') && (l.ExitWalk1? || l.ExitEnd1? || l.ExitWalk2? || l.ExitEnd2?)
    ensures Inv(s') && s.freed <= s'.freed
  {
    hide RunqInv, ProcsInv, CpusInv, LocksInv, Kin, FamCpus, WaitInv, CondInv, WakeCpus, JobsInv, ExitersIdle;
    match l
    case ExitWalk1(c) => ExitMoveKeeps(s, c, HeldBy(c), ExitL1(s.all));
    case ExitEnd1(c) => ExitMoveKeeps(s, c, Free, if SecondWake(s, c) then ExitW2 else ExitB);
    case ExitWalk2(c) => ExitMoveKeeps(s, c, HeldBy(c), ExitL2(s.all));
    case ExitEnd2(c) => ExitMoveKeeps(s, c, Free, ExitB);
  }

  lemma WaitStep(s: State, l: Step, s': State)
    requires Inv(s) && WaitNext(s, l, s')
    ensures Inv(s') && s.freed <= s'.freed
  {
    hide RunqInv, ProcsInv, CpusInv, LocksInv, Kin, FamCpus, WaitInv, CondInv, WakeCpus, JobsInv, ExitersIdle;
    match l
    case WaitBegin(c) => WaitLockKeeps(s, c);
    case WaitWalk(c) => WaitMoveKeeps(s, c, s.wait, HeldBy(c), WaitScan(s.all, false));
    case WaitVisit(c, np) => WaitVisitKeeps(s, c, np);
    case WaitCopyFail(c, np) => WaitMoveKeeps(s, c, Free, Free, User);
    case WaitEnd(c) => WaitMoveKeeps(s, c, s.wait, Free, WaitDone(s.cpu[c].act.kids, false));
    case WaitPass(c) => WaitMoveKeeps(s, c, s.wait, s.ptable, WaitDone(true, true));
    case WaitFree(c) => WaitFreeKeeps(s, c);
    case WaitGiveUp(c) => WaitMoveKeeps(s, c, Free, s.ptable, User);
    case WaitSleep(c) => SleepLockKeeps(s, c, Child(Cur(s, c)));
  }

  lemma ForkStep(s: State, l: Step, s': State)
    requires Inv(s) && ForkNext(s, l, s')
    ensures Inv(s') && s.freed <= s'.freed
  {
    hide RunqInv, ProcsInv, CpusInv, LocksInv, Kin, FamCpus, WaitInv, CondInv, WakeCpus, JobsInv, ExitersIdle;
    match l
    case Allocproc(c, np) => AllocprocKeeps(s, c, np);
    case ForkFail(c) => ForkFailKeeps(s, c);
    case ForkPublish(c) => ActivateKeeps(s, c, s.cpu[c].cur);
    case KthreadPublish(c) => ActivateKeeps(s, c, None);
  }

  lemma IrqStep(s: State, l: Step, s': State)
    requires Inv(s) && IrqNext(s, l, s')
    ensures Inv(s') && s.freed <= s'.freed
  {
    hide RunqInv, ProcsInv, CpusInv, LocksInv, Kin, FamCpus, WaitInv, CondInv, WakeCpus, JobsInv, ExitersIdle;
    match l
    case Kill(c, q) => KillKeeps(s, c, q);
    case Raise(c, k) => RaiseKeeps(s, c, k);
    case IrqWalk(c) => IrqWalkKeeps(s, c);
    case IrqVisit(c, q) => IrqVisitKeeps(s, c, q);
    case IrqEnd(c) => IrqEndKeeps(s, c);
    case RunHandler(c) => RunHandlerKeeps(s, c, Me(s, c).job.value.k);
    case Deactivate(c) => DeactivateKeeps(s, c, Me(s, c).job.value.k);
  }

  /** Every atomic step of every CPU keeps the invariant. */
  lemma StepKeeps(s: State, l: Step, s': State)
    requires Inv(s) && Next(s, l, s')
    ensures Inv(s') && s.freed <= s'.freed
  {
    hide RunqInv, ProcsInv, CpusInv, LocksInv, Kin, FamCpus, WaitInv, CondInv, WakeCpus, JobsInv, ExitersIdle;
    if SchedNext(s, l, s') { SchedStep(s, l, s'); }
    else if SleepNext(s, l, s') { SleepStep(s, l, s'); }
    else if ExitNext(s, l, s') { ExitStep(s, l, s'); }
    else if WaitNext(s, l, s') { WaitStep(s, l, s'); }
    else if ForkNext(s, l, s') { ForkStep(s, l, s'); }
    else { IrqStep(s, l, s'); }
  }

  /* ---- whole runs ---- */

  ghost predicate IsRun(run: seq<State>, steps: seq<Step>) {
    && |run| == |steps| + 1
    && Init(run[0])
    && forall i :: 0 <= i < |steps| ==> Shape(run[i]) && Next(run[i], steps[i], run[i + 1])
  }

  lemma BootInv(s: State)
    requires Init(s)
    ensures Inv(s)
  {
    InitCore(s);
    InitFamily(s);
    InitWakeful(s);
    InitJobs(s);
  }

  lemma {:induction false} RunInv(run: seq<State>, steps: seq<Step>, i: nat)
    requires IsRun(run, steps) && i < |run|
    ensures Inv(run[i]) && (i > 0 ==> run[i - 1].freed <= run[i].freed)
  {
    hide RunqInv, ProcsInv, CpusInv, LocksInv, Kin, FamCpus, WaitInv, CondInv, WakeCpus, JobsInv, ExitersIdle;
    if i == 0 {
      BootInv(run[0]);
    } else {
      RunInv(run, steps, i - 1);
      var s, s' := run[i - 1], run[i];
      StepKeeps(s, steps[i - 1], s');
    }
  }

  /** Process p is on CPU c: current there, or just switched away from. */
  predicate IsOn(s: State, p: nat, c: nat) {
    c < |s.cpu| && (s.cpu[c].cur == Some(p) || s.cpu[c].act == SBack(p))
  }

  predicate GotByCpu(s: State, p: nat, c: nat) {
    c < |s.cpu| && s.cpu[c].act == SGot(p)
  }

  /** A process is queued at most once, is on or dequeued by at most one CPU, and not both. */
  lemma OnePlace(run: seq<State>, steps: seq<Step>, i: nat)
    requires IsRun(run, steps) && i < |run|
    ensures var s := run[i];
            && (forall a, b :: 0 <= a < b < |s.runq| ==> s.runq[a] != s.runq[b])
            && (forall p, c, d :: IsOn(s, p, c) && IsOn(s, p, d) ==> c == d)
            && (forall p, c, d :: GotByCpu(s, p, c) && GotByCpu(s, p, d) ==> c == d)
            && (forall p, c, d :: IsOn(s, p, c) ==> !GotByCpu(s, p, d) && p !in s.runq)
            && (forall p, c :: GotByCpu(s, p, c) ==> p !in s.runq)
  {
    RunInv(run, steps, i);
    var s := run[i];
    forall p, c | IsOn(s, p, c) ensures p in s.procs && s.procs[p].place == OnCpu(c) { assert CpuInv(s, c); }
    forall p, c | GotByCpu(s, p, c) ensures p in s.procs && s.procs[p].place == GotBy(c) { assert CpuInv(s, c); }
  }

  /** With its lock free, a process is RUNNABLE exactly when queued or just dequeued. */
  lemma RunnableIffQueued(run: seq<State>, steps: seq<Step>, i: nat, p: nat)
    requires IsRun(run, steps) && i < |run| && p in run[i].procs && run[i].procs[p].lock == Free
    ensures var s := run[i];
            s.procs[p].st == RUNNABLE <==> p in s.runq || exists c :: GotByCpu(s, p, c)
  {
    RunInv(run, steps, i);
    var s := run[i];
    assert PlaceInv(s, p);
    UnlockedOnCpu(s, p);
    if s.procs[p].st == RUNNABLE && p !in s.runq {
      assert GotByCpu(s, p, s.procs[p].place.cpu);
    }
    if c :| GotByCpu(s, p, c) { assert CpuInv(s, c); }
  }

  /** The scheduler's not-RUNNABLE branch is dead. */
  lemma DispatchFindsRunnable(run: seq<State>, steps: seq<Step>, i: nat, c: nat)
    requires IsRun(run, steps) && i < |run| && c < |run[i].cpu| && run[i].cpu[c].act.SGot?
    ensures run[i].cpu[c].act.p in run[i].procs && run[i].procs[run[i].cpu[c].act.p].st == RUNNABLE
  {
    RunInv(run, steps, i);
    assert CpuInv(run[i], c) && PlaceInv(run[i], run[i].cpu[c].act.p);
  }

  /** No process ever has a zombie or freed parent. */
  lemma ParentsAlive(run: seq<State>, steps: seq<Step>, i: nat, p: nat)
    requires IsRun(run, steps) && i < |run| && p in run[i].procs && run[i].procs[p].parent.Some?
    ensures var q := run[i].procs[p].parent.value;
            q in run[i].all && q in run[i].procs && run[i].procs[q].st != ZOMBIE && q !in run[i].freed
  {
    RunInv(run, steps, i);
  }

  /** A process is freed by its own parent, once, when it has exited and nothing in the
      machine refers to it: in particular no CPU is on its kernel stack. */
  lemma ReapedOnce(run: seq<State>, steps: seq<Step>, i: nat, c: nat)
    requires IsRun(run, steps) && i < |steps| && steps[i] == WaitFree(c)
    ensures var s, t := run[i], run[i + 1];
            && Shape(s) && c < s.ncpus && s.cpu[c].act.WaitReap?
            && var np := s.cpu[c].act.np;
               && np in s.procs && np !in s.freed && s.procs[np].st == ZOMBIE
               && s.procs[np].parent == s.cpu[c].cur && Forgotten(s, np)
               && t.freed == s.freed + {np} && np !in t.procs
  {
    RunInv(run, steps, i);
    assert Next(run[i], steps[i], run[i + 1]);
    assert WaitNext(run[i], steps[i], run[i + 1]);
    FreedElsewhere(run[i], c, run[i].cpu[c].act.np);
  }

  /** Freed processes never come back. */
  lemma {:induction false} FreedStaysFreed(run: seq<State>, steps: seq<Step>, i: nat, j: nat, p: nat)
    requires IsRun(run, steps) && i <= j < |run| && p in run[i].freed
    ensures p in run[j].freed && p !in run[j].procs
    decreases j - i
  {
    FreedMonotone(run, steps, i, j);
    RunInv(run, steps, j);
  }

  lemma {:induction false} FreedMonotone(run: seq<State>, steps: seq<Step>, i: nat, j: nat)
    requires IsRun(run, steps) && i <= j < |run|
    ensures run[i].freed <= run[j].freed
    decreases j - i
  {
    hide RunqInv, ProcsInv, CpusInv, LocksInv, Kin, FamCpus, WaitInv, CondInv, WakeCpus, JobsInv, ExitersIdle;
    if i < j {
      FreedMonotone(run, steps, i, j - 1);
      RunInv(run, steps, j);
    }
  }

  /** Whenever wait_lock is free, nobody sleeping in wait() has a zombie child. */
  lemma NoLostExit(run: seq<State>, steps: seq<Step>, i: nat, q: nat, z: nat)
    requires IsRun(run, steps) && i < |run| && run[i].wait == Free
    requires z in run[i].all && z in run[i].procs && run[i].procs[z].st == ZOMBIE && run[i].procs[z].parent == Some(q)
    ensures q in run[i].procs && !(run[i].procs[q].st == SLEEPING && run[i].procs[q].chan == Child(q))
  {
    RunInv(run, steps, i);
    assert HasZombie(run[i], q, z);
  }

  /** A process sleeping on a condition that holds will still be visited by a waker. */
  lemma NoLostCondition(run: seq<State>, steps: seq<Step>, i: nat, q: nat, k: nat)
    requires IsRun(run, steps) && i < |run| && k < |run[i].cond| && run[i].cond[k]
    requires q in run[i].procs && run[i].procs[q].st == SLEEPING && run[i].procs[q].chan == Cond(k)
    ensures exists c :: CondWakeDue(run[i], c, q, k)
  {
    RunInv(run, steps, i);
    assert Asleep(run[i], q, Cond(k));
  }

  /** Scheduled interrupts, handler runs and deactivations balance; while a source is
      active, the outstanding interrupt is either pending or in one thread's hands. */
  lemma ExactlyOnce(run: seq<State>, steps: seq<Step>, i: nat, k: nat)
    requires IsRun(run, steps) && i < |run| && Shape(run[i]) && k < run[i].nk && run[i].isIrq[k]
    ensures var s := run[i];
            && s.scheduled[k] == s.deactivated[k] + (if s.active[k] then 1 else 0)
            && s.deactivated[k] <= s.handled[k] <= s.scheduled[k]
            && (!s.active[k] ==> s.handled[k] == s.scheduled[k] && !s.cond[k] && forall p :: !Serves(s, p, k))
            && (s.active[k] && !s.cond[k] ==> exists p :: Serves(s, p, k))
            && (forall p, q :: Serves(s, p, k) && Serves(s, q, k) ==> p == q)
  {
    RunInv(run, steps, i);
    var s := run[i];
    assert SourceInv(s, k);
    if Ran(s, k) { var p :| Serves(s, p, k) && s.procs[p].job.value.ran; }
  }

  /* ---- the run queue is first in, first out ---- */

  /** A step takes the head if it is a Dequeue, and otherwise at most adds at the tail. */
  ghost predicate QueueStep(s: State, l: Step, t: State) {
    if l.Dequeue? then s.runq != [] && t.runq == s.runq[1..] else s.runq <= t.runq
  }

  lemma QueueStepHolds(s: State, l: Step, t: State)
    requires Shape(s) && Next(s, l, t)
    ensures QueueStep(s, l, t)
  {
    hide SchedNext, SleepNext, ExitNext, WaitNext, ForkNext, IrqNext, QueueStep;
    if SchedNext(s, l, t) { QueueSched(s, l, t); }
    if SleepNext(s, l, t) { QueueSleep(s, l, t); }
    if ExitNext(s, l, t) { QueueExit(s, l, t); }
    if WaitNext(s, l, t) { QueueWait(s, l, t); }
    if ForkNext(s, l, t) { QueueFork(s, l, t); }
    if IrqNext(s, l, t) { QueueIrq(s, l, t); }
  }

  lemma QueueSched(s: State, l: Step, t: State)
    requires Shape(s) && SchedNext(s, l, t)
    ensures QueueStep(s, l, t)
  {
  }

  lemma QueueSleep(s: State, l: Step, t: State)
    requires Shape(s) && SleepNext(s, l, t)
    ensures QueueStep(s, l, t)
  {
  }

  lemma QueueExit(s: State, l: Step, t: State)
    requires Shape(s) && ExitNext(s, l, t)
    ensures QueueStep(s, l, t)
  {
  }

  lemma QueueWait(s: State, l: Step, t: State)
    requires Shape(s) && WaitNext(s, l, t)
    ensures QueueStep(s, l, t)
  {
  }

  lemma QueueFork(s: State, l: Step, t: State)
    requires Shape(s) && ForkNext(s, l, t)
    ensures QueueStep(s, l, t)
  {
  }

  lemma QueueIrq(s: State, l: Step, t: State)
    requires Shape(s) && IrqNext(s, l, t)
    ensures QueueStep(s, l, t)
  {
  }

  /** Dequeue steps among steps i..j. */
  function Dequeues(steps: seq<Step>, i: nat, j: nat): nat
    requires i <= j <= |steps|
    decreases j - i
  {
    if i == j then 0 else Dequeues(steps, i, j - 1) + if steps[j - 1].Dequeue? then 1 else 0
  }

  /** The process at position k of the queue stays behind exactly those ahead of it: after m <= k
      dequeues it is at position k - m, whoever joined in between. */
  lemma {:induction false} FirstInFirstOut(run: seq<State>, steps: seq<Step>, i: nat, j: nat, k: nat)
    requires IsRun(run, steps) && i <= j < |run| && k < |run[i].runq|
    ensures j <= |steps| && (Dequeues(steps, i, j) <= k ==>
              k - Dequeues(steps, i, j) < |run[j].runq| && run[j].runq[k - Dequeues(steps, i, j)] == run[i].runq[k])
    decreases j - i
  {
    hide RunqInv, ProcsInv, CpusInv, LocksInv, Kin, FamCpus, WaitInv, CondInv, WakeCpus, JobsInv, ExitersIdle, Next;
    if i < j {
      FirstInFirstOut(run, steps, i, j - 1, k);
      RunInv(run, steps, j - 1);
      QueueStepHolds(run[j - 1], steps[j - 1], run[j]);
    }
  }
}

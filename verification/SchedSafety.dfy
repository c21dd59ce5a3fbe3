/**
 Scheduler safety: a process is queued at most once, is on at most one CPU, and, whenever
 its lock is free, is RUNNABLE exactly when it is queued or just dequeued.
 */
module SchedSafety {
  import opened Wrappers
  import opened SchedProtocol

  ghost predicate RunqInv(s: State) {
    && (forall i :: 0 <= i < |s.runq| ==> s.runq[i] in s.procs && s.procs[s.runq[i]].place == Queued)
    && (forall i, j :: 0 <= i < j < |s.runq| ==> s.runq[i] != s.runq[j])
    && (forall p :: p in s.procs && s.procs[p].place == Queued ==> p in s.runq)
  }

  /** A continuation a process may be left at: a preemption point, on its own channel. */
  predicate Rests(s: State, p: nat, a: Act) {
    a.User? || (a.Reacq? && OwnChan(s, p, a.ch))
  }

  predicate OwnChan(s: State, p: nat, ch: Chan) {
    match ch
    case NoChan => false
    case Child(q) => q == p
    case Cond(k) => k < s.nk
  }

  /** What a process's fields say about where it is. */
  ghost predicate PlaceInv(s: State, p: nat)
    requires Shape(s) && p in s.procs
  {
    var x := s.procs[p];
    && (match x.place
        case Off => x.st == USED || x.st == SLEEPING || x.st == ZOMBIE
        case Queued => x.st == RUNNABLE
        case GotBy(c) => x.st == RUNNABLE && c < s.ncpus && s.cpu[c].act == SGot(p)
        case OnCpu(c) => c < s.ncpus && (s.cpu[c].cur == Some(p) || s.cpu[c].act == SBack(p)))
    && (x.lock != Free ==> x.place.OnCpu? && x.lock == HeldBy(x.place.cpu))
    && (p in s.all ==> x.st != USED)
    && (p !in s.all ==> x.place == Off && (x.st == USED || x.st == ZOMBIE))
    && (x.st == SLEEPING ==> x.resume == Reacq(x.chan))
    && Rests(s, p, x.resume)
  }

  ghost predicate ProcsInv(s: State)
    requires Shape(s)
  {
    forall p :: p in s.procs ==> PlaceInv(s, p)
  }

  /** The process CPU c is on, locked or not according to what c is doing. */
  ghost predicate OnInv(s: State, c: nat, p: nat, locked: bool)
  {
    p in s.procs && s.procs[p].place == OnCpu(c) && s.procs[p].lock == if locked then HeldBy(c) else Free
  }

  ghost predicate CpuInv(s: State, c: nat)
    requires Shape(s) && c < s.ncpus
  {
    var u := s.cpu[c];
    && (u.irq != INone ==> Lockless(u.act))
    && (match u.act
        case SIdle => u.cur == None
        case SGot(p) => u.cur == None && p in s.procs && s.procs[p].place == GotBy(c)
        case SBack(p) =>
          && u.cur == None && OnInv(s, c, p, true)
          && (s.procs[p].st == RUNNABLE || s.procs[p].st == SLEEPING || s.procs[p].st == ZOMBIE)
        case _ =>
          && u.cur.Some? && OnInv(s, c, u.cur.value, HoldsSelf(u.act))
          && s.procs[u.cur.value].st == if u.act.ExitZ? then ZOMBIE else RUNNING)
    && (u.cur.Some? ==> ActOk(s, u.cur.value, u.act))
  }

  /** Well-formed payloads. */
  predicate ActOk(s: State, p: nat, a: Act) {
    match a
    case Yielding(back) => Rests(s, p, back)
    case Checking(k) => k < s.nk
    case SleepB(ch) => OwnChan(s, p, ch)
    case SleepC(ch) => OwnChan(s, p, ch)
    case Reacq(ch) => OwnChan(s, p, ch)
    case _ => true
  }

  ghost predicate CpusInv(s: State)
    requires Shape(s)
  {
    forall c :: 0 <= c < s.ncpus ==> CpuInv(s, c)
  }

  ghost predicate LocksInv(s: State)
    requires Shape(s)
  {
    && (forall c :: 0 <= c < s.ncpus ==> (s.wait == HeldBy(c) <==> HoldsWait(s.cpu[c].act)))
    && (forall c :: 0 <= c < s.ncpus ==> (s.ptable == HeldBy(c) <==> HoldsPtable(s.cpu[c])))
    && (forall c, k :: 0 <= c < s.ncpus && 0 <= k < s.nk ==>
          (s.condLock[k] == HeldBy(c) <==> HoldsCond(s.cpu[c].act, k)))
  }

  ghost predicate Core(s: State) {
    && Shape(s) && RunqInv(s) && ProcsInv(s) && CpusInv(s) && LocksInv(s)
  }

  lemma InitCore(s: State)
    requires Init(s)
    ensures Core(s)
  {
  }

  /* ---- framing ---- */

  /** t differs from s at most in CPU c and in process p, which is on no other CPU. */
  ghost predicate Focus(s: State, t: State, c: nat, p: nat)
    requires Shape(s) && c < s.ncpus && p in s.procs
  {
    && Shape(t) && t.ncpus == s.ncpus && t.nk == s.nk && t.all == s.all && p in t.procs
    && t.cpu == s.cpu[c := t.cpu[c]]
    && t.procs == s.procs[p := t.procs[p]]
    && (s.procs[p].place.GotBy? || s.procs[p].place.OnCpu? ==> s.procs[p].place.cpu == c)
    && (s.cpu[c].cur.Some? ==> s.cpu[c].cur.value == p)
    && (s.cpu[c].act.SGot? || s.cpu[c].act.SBack? ==> s.cpu[c].act.p == p)
  }

  lemma FocusCpu(s: State, t: State, c: nat, p: nat, d: nat)
    requires Shape(s) && c < s.ncpus && p in s.procs && Focus(s, t, c, p)
    requires d < s.ncpus && d != c && CpuInv(s, d)
    ensures CpuInv(t, d)
  {
  }

  lemma FocusPlace(s: State, t: State, c: nat, p: nat, q: nat)
    requires Shape(s) && c < s.ncpus && p in s.procs && Focus(s, t, c, p)
    requires q in s.procs && q != p && PlaceInv(s, q) && CpuInv(s, c)
    ensures PlaceInv(t, q)
  {
  }

  lemma FocusKeeps(s: State, t: State, c: nat, p: nat)
    requires Shape(s) && ProcsInv(s) && CpusInv(s) && c < s.ncpus && p in s.procs && Focus(s, t, c, p)
    requires CpuInv(t, c) && PlaceInv(t, p)
    ensures ProcsInv(t) && CpusInv(t)
  {
    assert CpuInv(s, c);
    forall d | 0 <= d < t.ncpus ensures CpuInv(t, d) {
      if d != c { assert CpuInv(s, d); FocusCpu(s, t, c, p, d); }
    }
    forall q | q in t.procs ensures PlaceInv(t, q) {
      if q != p { assert PlaceInv(s, q); FocusPlace(s, t, c, p, q); }
    }
  }

  /** A process whose lock is free is on a CPU only while RUNNING. */
  lemma UnlockedOnCpu(s: State, q: nat)
    requires Shape(s) && ProcsInv(s) && CpusInv(s) && q in s.procs && s.procs[q].lock == Free
    ensures s.procs[q].place.OnCpu? ==> s.procs[q].st == RUNNING && s.cpu[s.procs[q].place.cpu].cur == Some(q)
  {
    assert PlaceInv(s, q);
    if s.procs[q].place.OnCpu? { assert CpuInv(s, s.procs[q].place.cpu); }
  }

  /* ---- steps that change only the current process and its CPU ---- */

  /** t differs from s in CPU c's position, in the process it runs, and in locks. */
  ghost predicate Local(s: State, t: State, c: nat, x: Proc)
    requires Shape(s) && c < s.ncpus && s.cpu[c].cur.Some?
  {
    && Shape(t) && t.ncpus == s.ncpus && t.nk == s.nk && t.init == s.init && t.all == s.all && t.runq == s.runq
    && t.cpu == s.cpu[c := t.cpu[c]] && t.cpu[c].cur == s.cpu[c].cur
    && t.procs == s.procs[s.cpu[c].cur.value := x]
  }

  /** The lock words moved in step with CPU c's position. */
  lemma LocksMove(s: State, t: State, c: nat)
    requires Shape(s) && Shape(t) && t.ncpus == s.ncpus && t.nk == s.nk && LocksInv(s) && c < s.ncpus
    requires forall d :: 0 <= d < s.ncpus && d != c ==> t.cpu[d] == s.cpu[d]
    requires Moved(s.wait, t.wait, c) && (t.wait == HeldBy(c) <==> HoldsWait(t.cpu[c].act))
    requires Moved(s.ptable, t.ptable, c) && (t.ptable == HeldBy(c) <==> HoldsPtable(t.cpu[c]))
    requires forall k :: 0 <= k < s.nk ==>
               Moved(s.condLock[k], t.condLock[k], c) && (t.condLock[k] == HeldBy(c) <==> HoldsCond(t.cpu[c].act, k))
    ensures LocksInv(t)
  {
  }

  predicate Moved(was: Holder, now: Holder, c: nat) {
    now == was || (was == Free && now == HeldBy(c)) || (was == HeldBy(c) && now == Free)
  }

  /** A step of the process on CPU c that keeps the shared structures. */
  lemma LocalCore(s: State, t: State, c: nat, x: Proc)
    requires Core(s) && c < s.ncpus && s.cpu[c].cur.Some? && Local(s, t, c, x)
    requires CpuInv(t, c) && LocksInv(t)
    requires x.st != USED && Rests(t, s.cpu[c].cur.value, x.resume)
    ensures Core(t)
  {
    var p := s.cpu[c].cur.value;
    assert CpuInv(s, c) && PlaceInv(s, p);
    FocusKeeps(s, t, c, p);
    EnqueueRunq(s, t, p, false);
  }

  lemma ResumeCore(s: State, c: nat)
    requires Core(s) && RunsAt(s, c) && s.cpu[c].act.Resumed?
    ensures Core(DoResume(s, c))
  {
    var t := DoResume(s, c);
    assert CpuInv(s, c) && PlaceInv(s, Cur(s, c));
    LocksMove(s, t, c);
    LocalCore(s, t, c, t.procs[Cur(s, c)]);
  }

  lemma YieldCore(s: State, c: nat)
    requires Core(s) && RunsAt(s, c) && Preemptible(s.cpu[c].act) && Me(s, c).lock == Free
    ensures Core(DoYield(s, c))
  {
    var t := DoYield(s, c);
    assert CpuInv(s, c) && PlaceInv(s, Cur(s, c));
    LocksMove(s, t, c);
    LocalCore(s, t, c, t.procs[Cur(s, c)]);
  }

  lemma AwaitCore(s: State, c: nat, k: nat)
    requires Core(s) && RunsAt(s, c) && k < s.nk && s.condLock[k] == Free
    requires s.cpu[c].act.User? || s.cpu[c].act == Reacq(Cond(k))
    ensures Core(At(LockCond(s, k, HeldBy(c)), c, Checking(k)))
  {
    var t := At(LockCond(s, k, HeldBy(c)), c, Checking(k));
    assert CpuInv(s, c) && PlaceInv(s, Cur(s, c));
    LocksMove(s, t, c);
    assert t.procs == s.procs[Cur(s, c) := Me(s, c)];
    LocalCore(s, t, c, Me(s, c));
  }

  lemma ConsumeCore(s: State, c: nat)
    requires Core(s) && RunsAt(s, c) && s.cpu[c].act.Checking? && s.cpu[c].act.k < s.nk
    ensures Core(DoConsume(s, c))
  {
    var t := DoConsume(s, c);
    assert CpuInv(s, c) && PlaceInv(s, Cur(s, c));
    LocksMove(s, t, c);
    LocalCore(s, t, c, t.procs[Cur(s, c)]);
  }

  lemma SleepLockCore(s: State, c: nat, ch: Chan)
    requires Core(s) && RunsAt(s, c) && Me(s, c).lock == Free && OwnChan(s, Cur(s, c), ch)
    requires (s.cpu[c].act.Checking? && ch == Cond(s.cpu[c].act.k)) || (s.cpu[c].act.WaitDone? && ch.Child?)
    ensures Core(DoSleepLock(s, c, ch))
  {
    var t := DoSleepLock(s, c, ch);
    assert CpuInv(s, c) && PlaceInv(s, Cur(s, c));
    LocksMove(s, t, c);
    LocalCore(s, t, c, t.procs[Cur(s, c)]);
  }

  lemma SleepReleaseCore(s: State, c: nat)
    requires Core(s) && RunsAt(s, c) && s.cpu[c].act.SleepB? && (s.cpu[c].act.ch.Cond? ==> s.cpu[c].act.ch.k < s.nk)
    ensures Core(DoSleepRelease(s, c))
  {
    var t := DoSleepRelease(s, c);
    assert CpuInv(s, c) && PlaceInv(s, Cur(s, c));
    LocksMove(s, t, c);
    assert t.procs == s.procs[Cur(s, c) := Me(s, c)];
    LocalCore(s, t, c, Me(s, c));
  }

  /** A step of wait or exit that moves only between positions, taking or dropping
      wait_lock and ptable_lock. */
  lemma MoveCore(s: State, c: nat, wait: Holder, ptable: Holder, a: Act)
    requires Core(s) && RunsAt(s, c) && Moved(s.wait, wait, c) && Moved(s.ptable, ptable, c)
    requires !HoldsSelf(s.cpu[c].act) && !HoldsSelf(a) && ActOk(s, Cur(s, c), a)
    requires !a.SIdle? && !a.SGot? && !a.SBack?
    requires HoldsWait(a) <==> wait == HeldBy(c)
    requires HoldsPtable(s.cpu[c].(act := a)) <==> ptable == HeldBy(c)
    requires !s.cpu[c].act.Checking? && !a.Checking?
    ensures Core(At(s.(wait := wait, ptable := ptable), c, a))
  {
    var t := At(s.(wait := wait, ptable := ptable), c, a);
    assert CpuInv(s, c) && PlaceInv(s, Cur(s, c));
    LocksMove(s, t, c);
    assert t.procs == s.procs[Cur(s, c) := Me(s, c)];
    LocalCore(s, t, c, Me(s, c));
  }

  lemma ExitZombieCore(s: State, c: nat)
    requires Core(s) && RunsAt(s, c) && s.cpu[c].act.ExitB? && Me(s, c).lock == Free
    ensures Core(DoExitZombie(s, c))
  {
    var t := DoExitZombie(s, c);
    assert CpuInv(s, c) && PlaceInv(s, Cur(s, c));
    LocksMove(s, t, c);
    LocalCore(s, t, c, t.procs[Cur(s, c)]);
  }

  lemma JobCore(s: State, t: State, c: nat, j: Option<Job>)
    requires Core(s) && RunsAt(s, c) && s.cpu[c].act.User? && Shape(t)
    requires t == SetProc(s, Cur(s, c), Me(s, c).(job := j))
                  .(active := t.active, handled := t.handled, deactivated := t.deactivated)
    ensures Core(t)
  {
    assert CpuInv(s, c) && PlaceInv(s, Cur(s, c));
    LocksMove(s, t, c);
    LocalCore(s, t, c, t.procs[Cur(s, c)]);
  }

  /* ---- leaving and entering a CPU ---- */

  lemma SwitchCore(s: State, c: nat, x: Proc)
    requires Core(s) && RunsAt(s, c) && !Lockless(s.cpu[c].act)
    requires s.cpu[c].act.Yielding? || s.cpu[c].act.SleepC? || s.cpu[c].act.ExitZ?
    requires x.lock == Me(s, c).lock && x.place == Me(s, c).place
    requires x.st == RUNNABLE || x.st == SLEEPING || x.st == ZOMBIE
    requires Rests(s, Cur(s, c), x.resume) && (x.st == SLEEPING ==> x.resume == Reacq(x.chan))
    ensures Core(DoSwitch(s, c, x))
  {
    var t := DoSwitch(s, c, x);
    var p := Cur(s, c);
    assert CpuInv(s, c) && PlaceInv(s, p);
    LocksMove(s, t, c);
    EnqueueRunq(s, t, p, false);
    FocusKeeps(s, t, c, p);
  }

  lemma BackCore(s: State, c: nat)
    requires Core(s) && c < s.ncpus && s.cpu[c].act.SBack? && s.cpu[c].act.p in s.procs
    ensures Core(DoBack(s, c))
  {
    hide RunqInv;
    var t := DoBack(s, c);
    var p := s.cpu[c].act.p;
    assert CpuInv(s, c) && PlaceInv(s, p);
    LocksMove(s, t, c);
    BackRunq(s, c);
    FocusKeeps(s, t, c, p);
  }

  lemma BackRunq(s: State, c: nat)
    requires Core(s) && c < s.ncpus && s.cpu[c].act.SBack? && s.cpu[c].act.p in s.procs && CpuInv(s, c)
    ensures RunqInv(DoBack(s, c))
  {
    var p := s.cpu[c].act.p;
    assert p !in s.runq;
    EnqueueRunq(s, DoBack(s, c), p, s.procs[p].st == RUNNABLE);
  }

  /** Moving p's place to Queued, or between the other places, matches the run queue. */
  lemma EnqueueRunq(s: State, t: State, p: nat, queued: bool)
    requires RunqInv(s) && p in s.procs && s.procs[p].place != Queued
    requires t.procs.Keys == s.procs.Keys && forall q :: q in s.procs && q != p ==> t.procs[q].place == s.procs[q].place
    requires if queued then t.runq == s.runq + [p] && t.procs[p].place == Queued
             else t.runq == s.runq && t.procs[p].place != Queued
    ensures RunqInv(t)
  {
  }

  lemma DequeueCore(s: State, c: nat)
    requires Core(s) && c < s.ncpus && s.cpu[c].irq.INone? && s.cpu[c].act.SIdle? && |s.runq| > 0
    requires s.runq[0] in s.procs
    ensures Core(DoDequeue(s, c))
  {
    var t := DoDequeue(s, c);
    var p := s.runq[0];
    assert CpuInv(s, c) && PlaceInv(s, p);
    LocksMove(s, t, c);
    FocusKeeps(s, t, c, p);
  }

  lemma DispatchCore(s: State, c: nat)
    requires Core(s) && c < s.ncpus && s.cpu[c].irq.INone? && s.cpu[c].act.SGot? && s.cpu[c].act.p in s.procs
    ensures Core(DoDispatch(s, c))
  {
    var t := DoDispatch(s, c);
    var p := s.cpu[c].act.p;
    assert CpuInv(s, c) && PlaceInv(s, p);
    LocksMove(s, t, c);
    EnqueueRunq(s, t, p, false);
    FocusKeeps(s, t, c, p);
  }

  /* ---- waking ---- */

  lemma WakeCore(s: State, q: nat, anyChan: bool, ch: Chan, self: Option<nat>)
    requires Core(s) && q in s.all && (self == Some(q) || s.procs[q].lock == Free)
    ensures Core(Wake(s, q, anyChan, ch, self))
  {
    var t := Wake(s, q, anyChan, ch, self);
    if t != s {
      assert PlaceInv(s, q);
      UnlockedOnCpu(s, q);
      EnqueueRunq(s, t, q, true);
      forall d | 0 <= d < t.ncpus ensures CpuInv(t, d) {
        assert CpuInv(s, d);
      }
      forall r | r in t.procs ensures PlaceInv(t, r) {
        assert PlaceInv(s, r);
      }
    }
  }

  lemma KilledCore(s: State, q: nat)
    requires Core(s) && q in s.all
    ensures Core(SetProc(s, q, s.procs[q].(killed := true)))
  {
    var t := SetProc(s, q, s.procs[q].(killed := true));
    forall d | 0 <= d < t.ncpus ensures CpuInv(t, d) {
      assert CpuInv(s, d);
    }
    forall r | r in t.procs ensures PlaceInv(t, r) {
      assert PlaceInv(s, r);
    }
  }

  /* ---- interrupts ---- */

  lemma IrqCore(s: State, t: State, c: nat, i: Irq)
    requires Core(s) && c < s.ncpus && Lockless(s.cpu[c].act) && Shape(t)
    requires t == AtIrq(s, c, i).(ptable := t.ptable, cond := t.cond, active := t.active, scheduled := t.scheduled)
    requires Moved(s.ptable, t.ptable, c) && (t.ptable == HeldBy(c) <==> i.ILoop?)
    ensures Core(t)
  {
    LocksMove(s, t, c);
    forall d | 0 <= d < t.ncpus ensures CpuInv(t, d) {
      assert CpuInv(s, d);
    }
    forall r | r in t.procs ensures PlaceInv(t, r) {
      assert PlaceInv(s, r);
    }
  }

  /* ---- changes to fields the scheduler does not look at ---- */

  predicate SameForSched(x: Proc, y: Proc) {
    x.st == y.st && x.lock == y.lock && x.chan == y.chan && x.resume == y.resume && x.place == y.place
  }

  lemma FieldsCore(s: State, t: State)
    requires Core(s) && t == s.(procs := t.procs) && t.procs.Keys == s.procs.Keys
    requires forall p :: p in s.procs ==> SameForSched(s.procs[p], t.procs[p])
    ensures Core(t)
  {
    hide RunqInv, CpuInv, PlaceInv, SameForSched;
    assert Shape(t) && LocksInv(t);
    FieldsRunq(s, t);
    forall d | 0 <= d < t.ncpus ensures CpuInv(t, d) { FieldsCpu(s, t, d); }
    forall r | r in t.procs ensures PlaceInv(t, r) { FieldsPlace(s, t, r); }
  }

  lemma FieldsCpu(s: State, t: State, d: nat)
    requires Shape(s) && Shape(t) && t == s.(procs := t.procs) && t.procs.Keys == s.procs.Keys
    requires forall p :: p in s.procs ==> SameForSched(s.procs[p], t.procs[p])
    requires d < s.ncpus && CpuInv(s, d)
    ensures CpuInv(t, d)
  {
  }

  lemma FieldsPlace(s: State, t: State, r: nat)
    requires Shape(s) && Shape(t) && t == s.(procs := t.procs) && t.procs.Keys == s.procs.Keys
    requires r in s.procs && SameForSched(s.procs[r], t.procs[r]) && PlaceInv(s, r)
    ensures PlaceInv(t, r)
  {
  }

  lemma FieldsRunq(s: State, t: State)
    requires RunqInv(s) && t.runq == s.runq && t.procs.Keys == s.procs.Keys
    requires forall p :: p in s.procs ==> SameForSched(s.procs[p], t.procs[p])
    ensures RunqInv(t)
  {
  }

  lemma ReparentCore(s: State, c: nat)
    requires Core(s) && RunsAt(s, c) && s.cpu[c].act.User? && s.wait == Free
    ensures Core(DoExitBegin(s, c))
  {
    ReparentFields(s, Cur(s, c));
    MoveCore(s.(procs := Reparent(s.procs, s.all, Cur(s, c), s.init)), c, HeldBy(c), s.ptable, ExitW1);
  }

  lemma ReparentFields(s: State, p: nat)
    requires Core(s)
    ensures Core(s.(procs := Reparent(s.procs, s.all, p, s.init)))
  {
    FieldsCore(s, s.(procs := Reparent(s.procs, s.all, p, s.init)));
  }

  /* ---- creating and freeing ---- */

  lemma MakingCore(s: State, p: nat, m: Option<nat>)
    requires Core(s) && p in s.procs
    ensures Core(SetProc(s, p, s.procs[p].(making := m)))
  {
    FieldsCore(s, SetProc(s, p, s.procs[p].(making := m)));
  }

  lemma AllocprocCore(s: State, c: nat, np: nat)
    requires Core(s) && RunsAt(s, c) && s.cpu[c].act.User? && np !in s.procs
    ensures Core(DoAllocproc(s, c, np))
  {
    var u := SetProc(s, Cur(s, c), Me(s, c).(making := Some(np)));
    MakingCore(s, Cur(s, c), Some(np));
    AddCore(u, np);
  }

  lemma AddCore(s: State, np: nat)
    requires Core(s) && np !in s.procs
    ensures Core(SetProc(s, np, Blank))
  {
    var t := SetProc(s, np, Blank);
    forall d | 0 <= d < t.ncpus ensures CpuInv(t, d) {
      assert CpuInv(s, d);
    }
    forall r | r in t.procs ensures PlaceInv(t, r) {
      if r in s.procs { assert PlaceInv(s, r); }
    }
  }

  /** An unpublished or unlinked process can be dropped. */
  lemma DropCore(s: State, t: State, np: nat)
    requires Core(s) && np in s.procs && np !in s.all && Shape(t)
    requires t == s.(procs := s.procs - {np}, freed := t.freed)
    ensures Core(t)
  {
    assert PlaceInv(s, np);
    forall d | 0 <= d < t.ncpus ensures CpuInv(t, d) {
      assert CpuInv(s, d);
    }
    forall r | r in t.procs ensures PlaceInv(t, r) {
      assert PlaceInv(s, r);
    }
  }

  lemma LinkCore(s: State, np: nat, parent: Option<nat>)
    requires Core(s) && np in s.procs && np !in s.all && s.procs[np].st == USED
    ensures Core(s.(procs := s.procs[np := s.procs[np].(st := RUNNABLE, parent := parent, place := Queued)],
                    all := s.all + {np}, runq := s.runq + [np]))
  {
    var t := s.(procs := s.procs[np := s.procs[np].(st := RUNNABLE, parent := parent, place := Queued)],
                all := s.all + {np}, runq := s.runq + [np]);
    assert PlaceInv(s, np);
    EnqueueRunq(s, t, np, true);
    forall d | 0 <= d < t.ncpus ensures CpuInv(t, d) {
      assert CpuInv(s, d);
    }
    forall r | r in t.procs ensures PlaceInv(t, r) {
      assert PlaceInv(s, r);
    }
  }

  lemma ActivateCore(s: State, c: nat, parent: Option<nat>)
    requires Core(s) && RunsAt(s, c) && Me(s, c).making.Some? && Me(s, c).making.value in s.procs
    requires Me(s, c).making.value !in s.all && s.procs[Me(s, c).making.value].st == USED && Cur(s, c) in s.all
    ensures Core(DoActivate(s, c, parent))
  {
    var np := Me(s, c).making.value;
    MakingCore(s, Cur(s, c), None);
    LinkCore(SetProc(s, Cur(s, c), Me(s, c).(making := None)), np, parent);
  }

  lemma UnlinkCore(s: State, c: nat, np: nat)
    requires Core(s) && RunsAt(s, c) && s.cpu[c].act.WaitScan? && np in s.all && np != s.init
    requires s.procs[np].st == ZOMBIE && s.procs[np].lock == Free
    ensures Core(At(s.(all := s.all - {np}, ptable := Free), c, WaitReap(np)))
  {
    hide RunqInv, LocksInv;
    var t := At(s.(all := s.all - {np}, ptable := Free), c, WaitReap(np));
    assert CpuInv(s, c) && PlaceInv(s, np);
    UnlockedOnCpu(s, np);
    UnlinkLocks(s, c, np);
    UnlinkRunq(s, t);
    forall d | 0 <= d < t.ncpus ensures CpuInv(t, d) {
      assert CpuInv(s, d);
    }
    forall r | r in t.procs ensures PlaceInv(t, r) {
      assert PlaceInv(s, r);
    }
  }

  lemma UnlinkLocks(s: State, c: nat, np: nat)
    requires Shape(s) && LocksInv(s) && RunsAt(s, c) && s.cpu[c].act.WaitScan? && CpuInv(s, c)
    requires Shape(At(s.(all := s.all - {np}, ptable := Free), c, WaitReap(np)))
    ensures LocksInv(At(s.(all := s.all - {np}, ptable := Free), c, WaitReap(np)))
  {
    LocksMove(s, At(s.(all := s.all - {np}, ptable := Free), c, WaitReap(np)), c);
  }

  lemma UnlinkRunq(s: State, t: State)
    requires RunqInv(s) && t.runq == s.runq && t.procs == s.procs
    ensures RunqInv(t)
  {
  }
}

/**
 No lost wakeup: a process asleep in wait() never has a zombie child while wait_lock is
 free, and a process asleep on a condition that holds is always still ahead of some waker.
 */
module SchedWakeup {
  import opened Wrappers
  import opened SchedProtocol
  import opened SchedSafety
  import opened SchedFamily

  /** q sleeps on ch, or has dropped the sleep lock and is bound to. */
  ghost predicate Asleep(s: State, q: nat, ch: Chan) {
    && q in s.procs
    && (|| (s.procs[q].st == SLEEPING && s.procs[q].chan == ch)
        || (&& s.procs[q].place.OnCpu? && s.procs[q].place.cpu < |s.cpu|
            && s.cpu[s.procs[q].place.cpu].cur == Some(q) && s.cpu[s.procs[q].place.cpu].act == SleepC(ch)))
  }

  /** z is a zombie child of q that wait() by q would find. */
  ghost predicate HasZombie(s: State, q: nat, z: nat) {
    z in s.all && z in s.procs && s.procs[z].st == ZOMBIE && s.procs[z].parent == Some(q)
  }

  /** exit() has reparented to init and its wakeup(initproc) has not yet reached init. */
  ghost predicate InitWakeDue(s: State) {
    && s.wait.HeldBy? && s.wait.cpu < |s.cpu|
    && (s.cpu[s.wait.cpu].act.ExitW1? || (s.cpu[s.wait.cpu].act.ExitL1? && s.init in s.cpu[s.wait.cpu].act.rest))
  }

  ghost predicate WaitInv(s: State) {
    forall q, z :: HasZombie(s, q, z) && Asleep(s, q, Child(q)) ==> q == s.init && InitWakeDue(s)
  }

  /** CPU c is dispatching condition k's interrupt and will still visit q. */
  ghost predicate CondWakeDue(s: State, c: nat, q: nat, k: nat) {
    && c < |s.cpu|
    && (s.cpu[c].irq == IWant(k) || (s.cpu[c].irq.ILoop? && s.cpu[c].irq.k == k && q in s.cpu[c].irq.rest))
  }

  ghost predicate CondInv(s: State) {
    forall q, k :: 0 <= k < |s.cond| && s.cond[k] && Asleep(s, q, Cond(k)) ==> exists c :: CondWakeDue(s, c, q, k)
  }

  ghost predicate Awake(s: State, q: nat) {
    !Asleep(s, q, Child(q))
  }

  ghost predicate NoZombies(s: State, q: nat) {
    forall z :: !HasZombie(s, q, z)
  }

  /** The parent of the process on CPU c, unless still to be visited, is awake. */
  ghost predicate ParentAwake(s: State, p: nat, rest: set<nat>) {
    p in s.procs && (s.procs[p].parent.Some? && s.procs[p].parent.value !in rest ==> Awake(s, s.procs[p].parent.value))
  }

  ghost predicate WakeCpu(s: State, c: nat)
    requires Shape(s) && c < s.ncpus
  {
    s.cpu[c].cur.Some? ==>
      var p := s.cpu[c].cur.value;
      match s.cpu[c].act
      case ExitL1(rest) => s.init in rest || Awake(s, s.init)
      case ExitW2 => Awake(s, s.init)
      case ExitL2(rest) => Awake(s, s.init) && ParentAwake(s, p, rest)
      case ExitB => Awake(s, s.init) && ParentAwake(s, p, {})
      case WaitScan(rest, _) => forall z :: HasZombie(s, p, z) ==> z in rest
      case WaitDone(_, _) => NoZombies(s, p)
      case SleepB(ch) => (ch.Child? ==> NoZombies(s, p)) && (ch.Cond? && ch.k < s.nk ==> !s.cond[ch.k])
      case _ => true
  }

  ghost predicate WakeCpus(s: State)
    requires Shape(s)
  {
    forall c :: 0 <= c < s.ncpus ==> WakeCpu(s, c)
  }

  ghost predicate Wakeful(s: State) {
    Shape(s) && WaitInv(s) && CondInv(s) && WakeCpus(s)
  }

  lemma InitWakeful(s: State)
    requires Init(s)
    ensures Wakeful(s)
  {
  }

  /* ---- framing ---- */

  /** From s to t nobody falls asleep, no zombie appears, no condition becomes true. */
  ghost predicate Calmer(s: State, t: State) {
    && Quieter(s, t)
    && (forall q, z :: HasZombie(t, q, z) ==> HasZombie(s, q, z))
    && t.init == s.init
  }

  ghost predicate Quieter(s: State, t: State) {
    && (forall q, ch :: Asleep(t, q, ch) ==> Asleep(s, q, ch))
    && |t.cond| == |s.cond| && (forall k :: 0 <= k < |s.cond| && t.cond[k] ==> s.cond[k])
  }

  ghost predicate SameParents(s: State, t: State) {
    forall p :: p in s.procs && s.procs[p].st == RUNNING ==> p in t.procs && t.procs[p].parent == s.procs[p].parent
  }

  lemma WakeCpuFrame(s: State, t: State, d: nat)
    requires Shape(s) && Shape(t) && s.ncpus == t.ncpus && s.nk == t.nk && d < s.ncpus && t.cpu[d] == s.cpu[d]
    requires Calmer(s, t) && WakeCpu(s, d)
    requires s.cpu[d].act.ExitL2? || s.cpu[d].act.ExitB? ==>
               s.cpu[d].cur.Some? ==> t.procs[s.cpu[d].cur.value].parent == s.procs[s.cpu[d].cur.value].parent
    ensures WakeCpu(t, d)
  {
  }

  lemma CondFrame(s: State, t: State)
    requires CondInv(s) && Quieter(s, t) && |t.cpu| == |s.cpu|
    requires forall c :: 0 <= c < |s.cpu| ==> t.cpu[c].irq == s.cpu[c].irq
    ensures CondInv(t)
  {
    forall q, k | 0 <= k < |t.cond| && t.cond[k] && Asleep(t, q, Cond(k)) ensures exists c :: CondWakeDue(t, c, q, k) {
      var c :| CondWakeDue(s, c, q, k);
      assert CondWakeDue(t, c, q, k);
    }
  }

  /** A step of CPU c that wakes, reaps or changes nothing that matters here. */
  lemma CalmStep(s: State, t: State, c: nat)
    requires Core(s) && Wakeful(s) && Shape(t) && s.ncpus == t.ncpus && s.nk == t.nk && c < s.ncpus
    requires t.cpu == s.cpu[c := t.cpu[c]] && t.cpu[c].irq == s.cpu[c].irq
    requires Calmer(s, t) && SameParents(s, t)
    requires WakeCpu(t, c)
    requires InitWakeDue(s) ==> InitWakeDue(t) || Awake(t, s.init)
    ensures Wakeful(t)
  {
    CondFrame(s, t);
    forall d | 0 <= d < t.ncpus ensures WakeCpu(t, d) {
      if d != c {
        assert WakeCpu(s, d) && CpuInv(s, d);
        WakeCpuFrame(s, t, d);
      }
    }
    forall q, z | HasZombie(t, q, z) && Asleep(t, q, Child(q)) ensures q == t.init && InitWakeDue(t) {
      assert HasZombie(s, q, z) && Asleep(s, q, Child(q));
    }
  }

  /** Whether the CPU holding wait_lock owes init a wakeup, told from another CPU's step. */
  lemma DueElsewhere(s: State, t: State, c: nat)
    requires Shape(s) && LocksInv(s) && c < s.ncpus && t.wait == s.wait && t.init == s.init
    requires |s.cpu| == |t.cpu| && t.cpu == s.cpu[c := t.cpu[c]] && !HoldsWait(s.cpu[c].act)
    ensures InitWakeDue(s) ==> InitWakeDue(t)
  {
  }

  /** Calmness of a step that touches only CPU c and process p. */
  lemma FocusCalm(s: State, t: State, c: nat, p: nat)
    requires Shape(s) && ProcsInv(s) && CpusInv(s) && c < s.ncpus && p in s.procs && Focus(s, t, c, p)
    requires t.init == s.init
    requires forall ch :: Asleep(t, p, ch) ==> Asleep(s, p, ch)
    requires t.procs[p].parent == s.procs[p].parent && (t.procs[p].st == ZOMBIE ==> s.procs[p].st == ZOMBIE)
    requires forall k :: 0 <= k < s.nk && t.cond[k] ==> s.cond[k]
    ensures Calmer(s, t) && SameParents(s, t)
  {
    assert CpuInv(s, c);
    forall q, ch | Asleep(t, q, ch) ensures Asleep(s, q, ch) {
      if q != p {
        assert PlaceInv(s, q);
        if s.procs[q].place.OnCpu? && s.procs[q].place.cpu == c { assert false; }
      }
    }
  }

  /** A step of the process on CPU c to a position where it is not about to sleep. */
  lemma LocalWakeful(s: State, t: State, c: nat, x: Proc)
    requires Core(s) && Wakeful(s) && c < s.ncpus && s.cpu[c].cur.Some? && Local(s, t, c, x)
    requires t.cpu[c].irq == s.cpu[c].irq && !t.cpu[c].act.SleepC?
    requires x.parent == s.procs[s.cpu[c].cur.value].parent && x.st == RUNNING && x.place == OnCpu(c)
    requires forall k :: 0 <= k < s.nk && t.cond[k] ==> s.cond[k]
    requires WakeCpu(t, c)
    requires InitWakeDue(s) ==> InitWakeDue(t) || Awake(t, s.init)
    ensures Wakeful(t)
  {
    var p := s.cpu[c].cur.value;
    assert CpuInv(s, c) && PlaceInv(s, p);
    LocalFocus(s, t, c, x);
    FocusCalm(s, t, c, p);
    CalmStep(s, t, c);
  }

  lemma LocalFocus(s: State, t: State, c: nat, x: Proc)
    requires Core(s) && c < s.ncpus && s.cpu[c].cur.Some? && Local(s, t, c, x)
    ensures Focus(s, t, c, s.cpu[c].cur.value)
  {
    assert CpuInv(s, c) && PlaceInv(s, s.cpu[c].cur.value);
  }

  /* ---- scheduler ---- */

  lemma ResumeWakeful(s: State, c: nat)
    requires Core(s) && Wakeful(s) && RunsAt(s, c) && s.cpu[c].act.Resumed?
    ensures Wakeful(DoResume(s, c))
  {
    var t := DoResume(s, c);
    assert CpuInv(s, c) && PlaceInv(s, Cur(s, c));
    DueElsewhere(s, t, c);
    LocalWakeful(s, t, c, t.procs[Cur(s, c)]);
  }

  lemma YieldWakeful(s: State, c: nat)
    requires Core(s) && Wakeful(s) && RunsAt(s, c) && Preemptible(s.cpu[c].act)
    ensures Wakeful(DoYield(s, c))
  {
    var t := DoYield(s, c);
    assert CpuInv(s, c) && PlaceInv(s, Cur(s, c));
    DueElsewhere(s, t, c);
    LocalWakeful(s, t, c, t.procs[Cur(s, c)]);
  }

  /** Leaving the CPU: asleep exactly on the channel announced, if any. */
  lemma SwitchWakeful(s: State, c: nat, x: Proc)
    requires Core(s) && Wakeful(s) && RunsAt(s, c)
    requires s.cpu[c].act.Yielding? || s.cpu[c].act.SleepC? || s.cpu[c].act.ExitZ?
    requires x.place == Me(s, c).place && x.parent == Me(s, c).parent
    requires x.st == SLEEPING ==> s.cpu[c].act == SleepC(x.chan)
    requires x.st == ZOMBIE ==> s.cpu[c].act.ExitZ?
    ensures Wakeful(DoSwitch(s, c, x))
  {
    var t := DoSwitch(s, c, x);
    var p := Cur(s, c);
    assert CpuInv(s, c) && PlaceInv(s, p);
    FocusCalm(s, t, c, p);
    DueElsewhere(s, t, c);
    CalmStep(s, t, c);
  }

  lemma BackWakeful(s: State, c: nat)
    requires Core(s) && Wakeful(s) && c < s.ncpus && s.cpu[c].act.SBack? && s.cpu[c].act.p in s.procs
    ensures Wakeful(DoBack(s, c))
  {
    var t := DoBack(s, c);
    var p := s.cpu[c].act.p;
    assert CpuInv(s, c) && PlaceInv(s, p);
    FocusCalm(s, t, c, p);
    DueElsewhere(s, t, c);
    CalmStep(s, t, c);
  }

  lemma DequeueWakeful(s: State, c: nat)
    requires Core(s) && Wakeful(s) && c < s.ncpus && s.cpu[c].act.SIdle? && |s.runq| > 0 && s.runq[0] in s.procs
    ensures Wakeful(DoDequeue(s, c))
  {
    var t := DoDequeue(s, c);
    var p := s.runq[0];
    assert CpuInv(s, c) && PlaceInv(s, p);
    FocusCalm(s, t, c, p);
    DueElsewhere(s, t, c);
    CalmStep(s, t, c);
  }

  lemma DispatchWakeful(s: State, c: nat)
    requires Core(s) && Wakeful(s) && c < s.ncpus && s.cpu[c].irq.INone? && s.cpu[c].act.SGot?
    requires s.cpu[c].act.p in s.procs
    ensures Wakeful(DoDispatch(s, c))
  {
    var t := DoDispatch(s, c);
    var p := s.cpu[c].act.p;
    assert CpuInv(s, c) && PlaceInv(s, p);
    FocusCalm(s, t, c, p);
    DueElsewhere(s, t, c);
    CalmStep(s, t, c);
  }

  /* ---- sleep ---- */

  lemma AwaitWakeful(s: State, c: nat, k: nat)
    requires Core(s) && Wakeful(s) && RunsAt(s, c) && k < s.nk && (s.cpu[c].act.User? || s.cpu[c].act.Reacq?)
    ensures Wakeful(At(LockCond(s, k, HeldBy(c)), c, Checking(k)))
  {
    var t := At(LockCond(s, k, HeldBy(c)), c, Checking(k));
    assert CpuInv(s, c) && PlaceInv(s, Cur(s, c));
    DueElsewhere(s, t, c);
    assert t.procs == s.procs[Cur(s, c) := Me(s, c)];
    LocalWakeful(s, t, c, Me(s, c));
  }

  lemma ConsumeWakeful(s: State, c: nat)
    requires Core(s) && Wakeful(s) && RunsAt(s, c) && s.cpu[c].act.Checking? && s.cpu[c].act.k < s.nk
    ensures Wakeful(DoConsume(s, c))
  {
    var t := DoConsume(s, c);
    assert CpuInv(s, c) && PlaceInv(s, Cur(s, c));
    DueElsewhere(s, t, c);
    LocalWakeful(s, t, c, t.procs[Cur(s, c)]);
  }

  /** The state acted on is Checking with the condition false, or WaitDone. */
  lemma SleepLockWakeful(s: State, c: nat, ch: Chan)
    requires Core(s) && Wakeful(s) && RunsAt(s, c) && OwnChan(s, Cur(s, c), ch)
    requires || (s.cpu[c].act.Checking? && ch == Cond(s.cpu[c].act.k) && !s.cond[ch.k])
             || (s.cpu[c].act.WaitDone? && ch.Child?)
    ensures Wakeful(DoSleepLock(s, c, ch))
  {
    var t := DoSleepLock(s, c, ch);
    assert CpuInv(s, c) && PlaceInv(s, Cur(s, c)) && WakeCpu(s, c);
    LocalFocus(s, t, c, t.procs[Cur(s, c)]);
    FocusCalm(s, t, c, Cur(s, c));
    assert InitWakeDue(s) ==> InitWakeDue(t);
    LocalWakeful(s, t, c, t.procs[Cur(s, c)]);
  }

  /** Dropping the sleep lock is when the process counts as asleep. */
  lemma SleepReleaseWakeful(s: State, c: nat)
    requires Core(s) && Wakeful(s) && RunsAt(s, c) && s.cpu[c].act.SleepB?
    requires s.cpu[c].act.ch.Cond? ==> s.cpu[c].act.ch.k < s.nk
    ensures Wakeful(DoSleepRelease(s, c))
  {
    var t := DoSleepRelease(s, c);
    var p, ch := Cur(s, c), s.cpu[c].act.ch;
    assert CpuInv(s, c) && PlaceInv(s, p) && WakeCpu(s, c);
    SleepReleaseAsleep(s, c);
    forall q, z | HasZombie(t, q, z) && Asleep(t, q, Child(q)) ensures q == t.init && InitWakeDue(t) {
      assert HasZombie(s, q, z);
      assert Asleep(s, q, Child(q));
    }
    forall q, k | 0 <= k < |t.cond| && t.cond[k] && Asleep(t, q, Cond(k)) ensures exists d :: CondWakeDue(t, d, q, k) {
      var d :| CondWakeDue(s, d, q, k);
      assert CondWakeDue(t, d, q, k);
    }
    forall d | 0 <= d < t.ncpus ensures WakeCpu(t, d) {
      assert WakeCpu(s, d);
      if d != c { SleepReleaseCpu(s, c, d); }
    }
  }

  lemma SleepReleaseAsleep(s: State, c: nat)
    requires Core(s) && RunsAt(s, c) && s.cpu[c].act.SleepB?
    requires s.cpu[c].act.ch.Cond? ==> s.cpu[c].act.ch.k < s.nk
    ensures forall q, ch :: Asleep(DoSleepRelease(s, c), q, ch) ==>
              Asleep(s, q, ch) || (q == Cur(s, c) && ch == s.cpu[c].act.ch)
  {
    assert CpuInv(s, c) && PlaceInv(s, Cur(s, c));
  }

  lemma SleepReleaseCpu(s: State, c: nat, d: nat)
    requires Core(s) && RunsAt(s, c) && s.cpu[c].act.SleepB? && d < s.ncpus && d != c && WakeCpu(s, d)
    requires s.cpu[c].act.ch.Cond? ==> s.cpu[c].act.ch.k < s.nk
    ensures WakeCpu(DoSleepRelease(s, c), d)
  {
    var t := DoSleepRelease(s, c);
    SleepReleaseAsleep(s, c);
    assert CpuInv(s, c);
    assert s.cpu[c].act.ch.Child? ==> !HoldsWait(s.cpu[d].act);
    assert forall q, z :: HasZombie(t, q, z) <==> HasZombie(s, q, z);
    if s.cpu[c].act.ch.Cond? {
      assert forall q :: Awake(s, q) ==> Awake(t, q);
    }
  }

  lemma ReacquireWaitWakeful(s: State, c: nat)
    requires Core(s) && Wakeful(s) && RunsAt(s, c) && (s.cpu[c].act.Reacq? || s.cpu[c].act.User?) && s.wait == Free
    ensures Wakeful(At(s.(wait := HeldBy(c)), c, WaitStart))
  {
    var t := At(s.(wait := HeldBy(c)), c, WaitStart);
    assert CpuInv(s, c) && PlaceInv(s, Cur(s, c));
    assert t.procs == s.procs[Cur(s, c) := Me(s, c)];
    LocalWakeful(s, t, c, Me(s, c));
  }

  /* ---- waking ---- */

  lemma WakeCalm(s: State, q: nat, anyChan: bool, ch: Chan, self: Option<nat>)
    requires Shape(s) && q in s.procs
    ensures Calmer(s, Wake(s, q, anyChan, ch, self)) && SameParents(s, Wake(s, q, anyChan, ch, self))
  {
  }

  /** wakeup(ch) gets q off ch, whether or not q is the caller. */
  lemma WakeWakes(s: State, q: nat, ch: Chan, self: Option<nat>)
    requires Core(s) && q in s.procs && ch != NoChan
    requires self == Some(q) ==>
               s.procs[q].st == RUNNING && s.procs[q].place.OnCpu? && !s.cpu[s.procs[q].place.cpu].act.SleepC?
    requires self != Some(q) ==> s.procs[q].lock == Free
    ensures !Asleep(Wake(s, q, false, ch, self), q, ch)
  {
    assert PlaceInv(s, q);
    UnlockedOrSelf(s, q, self);
  }

  lemma UnlockedOrSelf(s: State, q: nat, self: Option<nat>)
    requires Core(s) && q in s.procs
    requires self != Some(q) ==> s.procs[q].lock == Free
    ensures self != Some(q) && s.procs[q].place.OnCpu? ==> !s.cpu[s.procs[q].place.cpu].act.SleepC?
  {
    assert PlaceInv(s, q);
    if s.procs[q].place.OnCpu? { assert CpuInv(s, s.procs[q].place.cpu); }
  }

  lemma KillCalm(s: State, q: nat)
    requires Shape(s) && q in s.procs
    ensures var t := Wake(SetProc(s, q, s.procs[q].(killed := true)), q, true, NoChan, None);
            Shape(t) && Calmer(s, t) && SameParents(s, t)
  {
    var u := SetProc(s, q, s.procs[q].(killed := true));
    WakeCalm(u, q, true, NoChan, None);
    assert forall r, ch :: Asleep(u, r, ch) <==> Asleep(s, r, ch);
    assert forall r, z :: HasZombie(u, r, z) <==> HasZombie(s, r, z);
  }

  lemma KillWakeful(s: State, c: nat, q: nat)
    requires Core(s) && Wakeful(s) && RunsAt(s, c) && s.cpu[c].act.User? && q in s.all
    ensures Wakeful(Wake(SetProc(s, q, s.procs[q].(killed := true)), q, true, NoChan, None))
  {
    var t := Wake(SetProc(s, q, s.procs[q].(killed := true)), q, true, NoChan, None);
    KillCalm(s, q);
    assert WakeCpu(s, c);
    WakeCpuFrame(s, t, c);
    CalmStep(s, t, c);
  }

  /* ---- exit ---- */

  lemma ExitBeginWakeful(s: State, c: nat)
    requires Core(s) && Wakeful(s) && RunsAt(s, c) && s.cpu[c].act.User? && s.wait == Free
    ensures Wakeful(DoExitBegin(s, c))
  {
    var t := DoExitBegin(s, c);
    assert CpuInv(s, c);
    ExitBeginQuieter(s, c);
    CondFrame(s, t);
    forall q, z | HasZombie(t, q, z) && Asleep(t, q, Child(q)) ensures q == t.init && InitWakeDue(t) {
      if q != t.init { assert HasZombie(s, q, z); }
    }
    forall d | 0 <= d < t.ncpus ensures WakeCpu(t, d) {
      assert WakeCpu(s, d);
      assert !HoldsWait(s.cpu[d].act);
    }
  }

  lemma ExitBeginQuieter(s: State, c: nat)
    requires Shape(s) && RunsAt(s, c) && s.cpu[c].act.User?
    ensures Quieter(s, DoExitBegin(s, c))
  {
    var t := DoExitBegin(s, c);
    forall q, ch | Asleep(t, q, ch) ensures Asleep(s, q, ch) {
      assert SameForSched(s.procs[q], t.procs[q]);
    }
  }

  /** Exit's steps that move on without waking anyone. */
  lemma ExitMoveWakeful(s: State, t: State, c: nat)
    requires Core(s) && Family(s) && Wakeful(s) && RunsAt(s, c) && HoldsWait(s.cpu[c].act)
    requires |t.cpu| == |s.cpu| && t == At(s.(ptable := t.ptable), c, t.cpu[c].act)
    requires || (s.cpu[c].act.ExitW1? && t.cpu[c].act == ExitL1(s.all))
             || (s.cpu[c].act == ExitL1({}) && t.cpu[c].act == if SecondWake(s, c) then ExitW2 else ExitB)
             || (s.cpu[c].act.ExitW2? && t.cpu[c].act == ExitL2(s.all))
             || (s.cpu[c].act == ExitL2({}) && t.cpu[c].act == ExitB)
    ensures Wakeful(t)
  {
    var p := Cur(s, c);
    assert CpuInv(s, c) && PlaceInv(s, p) && WakeCpu(s, c) && FamCpu(s, c);
    assert t.procs == s.procs[p := Me(s, c)];
    LocalFocus(s, t, c, Me(s, c));
    FocusCalm(s, t, c, p);
    assert forall q :: Awake(s, q) ==> Awake(t, q);
    assert s.wait == HeldBy(c);
    LocalWakeful(s, t, c, Me(s, c));
  }

  lemma ExitVisit1Wakeful(s: State, c: nat, q: nat)
    requires Core(s) && Family(s) && Wakeful(s) && RunsAt(s, c) && s.cpu[c].act.ExitL1? && q in s.cpu[c].act.rest
    requires q in s.procs && (q == Cur(s, c) || s.procs[q].lock == Free)
    ensures Wakeful(At(Wake(s, q, false, Child(s.init), s.cpu[c].cur), c, ExitL1(s.cpu[c].act.rest - {q})))
  {
    hide RunqInv, Rests, Kin, Asleep;
    var u := Wake(s, q, false, Child(s.init), s.cpu[c].cur);
    var t := At(u, c, ExitL1(s.cpu[c].act.rest - {q}));
    assert CpuInv(s, c) && WakeCpu(s, c) && FamCpu(s, c) && PlaceInv(s, q);
    WakeCalm(s, q, false, Child(s.init), s.cpu[c].cur);
    MoveCalm(s, u, t, c);
    assert s.wait == HeldBy(c);
    if q == s.init {
      WakeWakes(s, q, Child(s.init), s.cpu[c].cur);
      MoveAwake(u, t, c, q);
    }
    assert Awake(s, s.init) ==> Awake(t, s.init);
    CalmStep(s, t, c);
  }

  /** Moving CPU c off any SleepC position keeps a calm step calm. */
  lemma MoveCalm(s: State, u: State, t: State, c: nat)
    requires Calmer(s, u) && SameParents(s, u) && c < |u.cpu| == |t.cpu| && t == At(u, c, t.cpu[c].act)
    requires !t.cpu[c].act.SleepC?
    ensures Calmer(s, t) && SameParents(s, t)
  {
    assert forall r, ch :: Asleep(t, r, ch) ==> Asleep(u, r, ch);
    assert forall r, z :: HasZombie(t, r, z) <==> HasZombie(u, r, z);
  }

  lemma MoveAwake(u: State, t: State, c: nat, q: nat)
    requires c < |u.cpu| == |t.cpu| && t == At(u, c, t.cpu[c].act) && !t.cpu[c].act.SleepC? && Awake(u, q)
    ensures Awake(t, q)
  {
  }

  lemma ExitVisit2Wakeful(s: State, c: nat, q: nat)
    requires Core(s) && Family(s) && Wakeful(s) && RunsAt(s, c) && s.cpu[c].act.ExitL2? && q in s.cpu[c].act.rest
    requires q in s.procs && (q == Cur(s, c) || s.procs[q].lock == Free) && Me(s, c).parent.Some?
    ensures Wakeful(At(Wake(s, q, false, Child(Me(s, c).parent.value), s.cpu[c].cur), c,
                       ExitL2(s.cpu[c].act.rest - {q})))
  {
    var pa := Me(s, c).parent.value;
    var u := Wake(s, q, false, Child(pa), s.cpu[c].cur);
    var t := At(u, c, ExitL2(s.cpu[c].act.rest - {q}));
    assert WakeCpu(s, c);
    ExitVisit2Calm(s, c, q);
    assert ParentAwake(t, Cur(s, c), t.cpu[c].act.rest) by {
      assert t.procs[Cur(s, c)].parent == Some(pa);
    }
    CalmStep(s, t, c);
  }

  lemma ExitVisit2Calm(s: State, c: nat, q: nat)
    requires Core(s) && RunsAt(s, c) && s.cpu[c].act.ExitL2?
    requires q in s.procs && (q == Cur(s, c) || s.procs[q].lock == Free) && Me(s, c).parent.Some?
    ensures var pa := Me(s, c).parent.value;
            var t := At(Wake(s, q, false, Child(pa), s.cpu[c].cur), c, ExitL2(s.cpu[c].act.rest - {q}));
            && Shape(t) && Calmer(s, t) && SameParents(s, t) && t.procs[Cur(s, c)].parent == Some(pa)
            && (forall r :: Awake(s, r) ==> Awake(t, r)) && (q == pa ==> Awake(t, pa))
  {
    var pa := Me(s, c).parent.value;
    var u := Wake(s, q, false, Child(pa), s.cpu[c].cur);
    var t := At(u, c, ExitL2(s.cpu[c].act.rest - {q}));
    assert CpuInv(s, c);
    WakeCalm(s, q, false, Child(pa), s.cpu[c].cur);
    MoveCalm(s, u, t, c);
    if q == pa {
      WakeWakes(s, q, Child(pa), s.cpu[c].cur);
      MoveAwake(u, t, c, q);
    }
  }

  lemma ExitZombieQuieter(s: State, c: nat)
    requires Shape(s) && RunsAt(s, c) && s.cpu[c].act.ExitB?
    ensures Quieter(s, DoExitZombie(s, c))
    ensures forall q: nat, z: nat :: HasZombie(DoExitZombie(s, c), q, z) ==>
              HasZombie(s, q, z) || (z == Cur(s, c) && Me(s, c).parent == Some(q))
  {
  }

  lemma ExitZombieWakeful(s: State, c: nat)
    requires Core(s) && Family(s) && Wakeful(s) && RunsAt(s, c) && s.cpu[c].act.ExitB?
    ensures Wakeful(DoExitZombie(s, c))
  {
    var t := DoExitZombie(s, c);
    assert WakeCpu(s, c);
    ExitZombieQuieter(s, c);
    forall q, z | HasZombie(t, q, z) ensures Awake(t, q) {
      if HasZombie(s, q, z) { assert Awake(s, q); }
    }
    CondFrame(s, t);
    forall d | 0 <= d < t.ncpus ensures WakeCpu(t, d) {
      assert WakeCpu(s, d);
      assert d != c ==> !HoldsWait(s.cpu[d].act);
    }
  }

  /* ---- wait ---- */

  /** wait()'s moves: the scan's facts carry over to the next position. */
  lemma WaitMoveWakeful(s: State, t: State, c: nat)
    requires Core(s) && Wakeful(s) && RunsAt(s, c) && HoldsWait(s.cpu[c].act)
    requires |t.cpu| == |s.cpu| && t == At(s.(ptable := t.ptable, wait := t.wait), c, t.cpu[c].act)
    requires s.cpu[c].act.WaitStart? || s.cpu[c].act.WaitScan? || s.cpu[c].act.WaitDone?
    requires || (t.cpu[c].act.User?)
             || (s.cpu[c].act.WaitStart? && t.cpu[c].act == WaitScan(s.all, false))
             || (s.cpu[c].act.WaitScan? && t.cpu[c].act.WaitScan?
                 && forall z :: HasZombie(s, Cur(s, c), z) ==> z in t.cpu[c].act.rest)
             || (s.cpu[c].act.WaitScan? && s.cpu[c].act.rest == {} && t.cpu[c].act.WaitDone?)
             || (s.cpu[c].act.WaitDone? && t.cpu[c].act.WaitDone?)
    ensures Wakeful(t)
  {
    var p := Cur(s, c);
    assert CpuInv(s, c) && PlaceInv(s, p) && WakeCpu(s, c);
    assert t.procs == s.procs[p := Me(s, c)];
    assert s.wait == HeldBy(c) && !InitWakeDue(s);
    assert forall z :: HasZombie(t, p, z) <==> HasZombie(s, p, z);
    LocalWakeful(s, t, c, Me(s, c));
  }

  lemma UnlinkWakeful(s: State, c: nat, np: nat)
    requires Core(s) && Family(s) && Wakeful(s) && RunsAt(s, c) && s.cpu[c].act.WaitScan? && np in s.all
    requires s.procs[np].st == ZOMBIE
    ensures Wakeful(At(s.(all := s.all - {np}, ptable := Free), c, WaitReap(np)))
  {
    var t := At(s.(all := s.all - {np}, ptable := Free), c, WaitReap(np));
    assert CpuInv(s, c);
    assert Calmer(s, t);
    CalmStep(s, t, c);
  }

  lemma WaitFreeWakeful(s: State, c: nat)
    requires Core(s) && Family(s) && Wakeful(s) && RunsAt(s, c) && s.cpu[c].act.WaitReap?
    ensures Wakeful(DoWaitFree(s, c))
  {
    var t := DoWaitFree(s, c);
    assert CpuInv(s, c);
    FreedElsewhere(s, c, s.cpu[c].act.np);
    assert Calmer(s, t);
    CalmStep(s, t, c);
  }

  /* ---- fork ---- */

  /** New and removed processes are neither asleep nor zombies in the list. */
  lemma MakeWakeful(s: State, t: State, c: nat)
    requires Core(s) && Wakeful(s) && RunsAt(s, c) && Shape(t) && s.cpu[c].act.User?
    requires t == s.(procs := t.procs, all := t.all, runq := t.runq)
    requires forall q :: q in t.procs && q in s.procs ==>
               || (&& t.procs[q].st == s.procs[q].st && t.procs[q].chan == s.procs[q].chan
                   && t.procs[q].place == s.procs[q].place && t.procs[q].parent == s.procs[q].parent
                   && (q in t.all ==> q in s.all))
               || (t.procs[q].st == RUNNABLE && s.procs[q].st == USED && t.procs[q].place == Queued)
    requires forall q :: q in t.procs && q !in s.procs ==> t.procs[q].st == USED && t.procs[q].place == Off
    requires SameParents(s, t)
    ensures Wakeful(t)
  {
    assert CpuInv(s, c) && WakeCpu(s, c);
    assert Calmer(s, t);
    CalmStep(s, t, c);
  }

  lemma AllocprocWakeful(s: State, c: nat, np: nat)
    requires Core(s) && Wakeful(s) && RunsAt(s, c) && s.cpu[c].act.User? && np !in s.procs
    ensures Wakeful(DoAllocproc(s, c, np))
  {
    MakeWakeful(s, DoAllocproc(s, c, np), c);
  }

  lemma ForkFailWakeful(s: State, c: nat)
    requires Core(s) && Family(s) && Wakeful(s) && RunsAt(s, c) && s.cpu[c].act.User? && Me(s, c).making.Some?
    ensures Wakeful(DoForkFail(s, c))
  {
    ForkFailFamily(s, c);
    MakeWakeful(s, DoForkFail(s, c), c);
  }

  lemma ActivateWakeful(s: State, c: nat, parent: Option<nat>)
    requires Core(s) && Family(s) && Wakeful(s) && RunsAt(s, c) && s.cpu[c].act.User? && Me(s, c).making.Some?
    requires parent == None || (parent == s.cpu[c].cur && s.wait == Free)
    ensures Wakeful(DoActivate(s, c, parent))
  {
    ActivateFamily(s, c, parent);
    assert CpuInv(s, c);
    MakeWakeful(s, DoActivate(s, c, parent), c);
  }

  /* ---- interrupts ---- */

  /** Raising k leaves sleepers and zombies as they were. */
  lemma RaiseSame(s: State, c: nat, k: nat)
    requires Shape(s) && c < s.ncpus && k < s.nk
    ensures forall q, ch :: Asleep(DoRaise(s, c, k), q, ch) <==> Asleep(s, q, ch)
    ensures forall q, z :: HasZombie(DoRaise(s, c, k), q, z) <==> HasZombie(s, q, z)
  {
  }

  lemma RaiseCond(s: State, c: nat, k: nat)
    requires Shape(s) && CondInv(s) && c < s.ncpus && s.cpu[c].irq.INone? && k < s.nk
    ensures CondInv(DoRaise(s, c, k))
  {
    var t := DoRaise(s, c, k);
    RaiseSame(s, c, k);
    forall q, j | 0 <= j < |t.cond| && t.cond[j] && Asleep(t, q, Cond(j)) ensures exists d :: CondWakeDue(t, d, q, j) {
      if j == k {
        assert CondWakeDue(t, c, q, k);
      } else {
        var d :| CondWakeDue(s, d, q, j);
        assert CondWakeDue(t, d, q, j);
      }
    }
  }

  lemma RaiseWakeful(s: State, c: nat, k: nat)
    requires Core(s) && Wakeful(s) && c < s.ncpus && Lockless(s.cpu[c].act) && s.cpu[c].irq.INone? && k < s.nk
    requires s.condLock[k] == Free
    ensures Wakeful(DoRaise(s, c, k))
  {
    hide RunqInv, Rests, ProcsInv, CpusInv;
    var t := DoRaise(s, c, k);
    RaiseSame(s, c, k);
    RaiseCond(s, c, k);
    assert InitWakeDue(s) ==> InitWakeDue(t);
    forall d | 0 <= d < t.ncpus ensures WakeCpu(t, d) {
      assert WakeCpu(s, d);
      assert !HoldsCond(s.cpu[d].act, k);
    }
  }

  /** Progress of a walk: what was due from CPU c is due still, or has been done. */
  lemma IrqWakeful(s: State, t: State, c: nat)
    requires Core(s) && Wakeful(s) && Shape(t) && s.ncpus == t.ncpus && s.nk == t.nk && c < s.ncpus
    requires t.cpu == s.cpu[c := s.cpu[c].(irq := t.cpu[c].irq)] && t.wait == s.wait
    requires Calmer(s, t) && SameParents(s, t)
    requires forall q, k :: CondWakeDue(s, c, q, k) && Asleep(t, q, Cond(k)) ==> CondWakeDue(t, c, q, k)
    ensures Wakeful(t)
  {
    forall q, k | 0 <= k < |t.cond| && t.cond[k] && Asleep(t, q, Cond(k)) ensures exists d :: CondWakeDue(t, d, q, k) {
      var d :| CondWakeDue(s, d, q, k);
      assert CondWakeDue(t, d, q, k);
    }
    assert InitWakeDue(s) ==> InitWakeDue(t);
    forall d | 0 <= d < t.ncpus ensures WakeCpu(t, d) {
      assert WakeCpu(s, d) && CpuInv(s, d);
      WakeCpuIrq(s, t, d);
    }
    forall q, z | HasZombie(t, q, z) && Asleep(t, q, Child(q)) ensures q == t.init && InitWakeDue(t) {
      assert HasZombie(s, q, z) && Asleep(s, q, Child(q));
    }
  }

  lemma WakeCpuIrq(s: State, t: State, d: nat)
    requires Shape(s) && Shape(t) && s.ncpus == t.ncpus && s.nk == t.nk && d < s.ncpus
    requires t.cpu[d].act == s.cpu[d].act && t.cpu[d].cur == s.cpu[d].cur
    requires Calmer(s, t) && SameParents(s, t) && WakeCpu(s, d) && CpuInv(s, d)
    ensures WakeCpu(t, d)
  {
  }

  lemma IrqWalkWakeful(s: State, c: nat)
    requires Core(s) && Wakeful(s) && c < s.ncpus && s.cpu[c].irq.IWant?
    ensures Wakeful(AtIrq(s.(ptable := HeldBy(c)), c, ILoop(s.cpu[c].irq.k, s.all)))
  {
    var t := AtIrq(s.(ptable := HeldBy(c)), c, ILoop(s.cpu[c].irq.k, s.all));
    assert forall q, ch :: Asleep(t, q, ch) <==> Asleep(s, q, ch);
    assert Calmer(s, t);
    forall q, k | CondWakeDue(s, c, q, k) && Asleep(t, q, Cond(k)) ensures CondWakeDue(t, c, q, k) {
      assert PlaceInv(s, q);
    }
    IrqWakeful(s, t, c);
  }

  lemma IrqEndWakeful(s: State, c: nat)
    requires Core(s) && Wakeful(s) && c < s.ncpus && s.cpu[c].irq.ILoop? && s.cpu[c].irq.rest == {}
    ensures Wakeful(AtIrq(s.(ptable := Free), c, INone))
  {
    var t := AtIrq(s.(ptable := Free), c, INone);
    assert forall q, ch :: Asleep(t, q, ch) <==> Asleep(s, q, ch);
    assert Calmer(s, t);
    IrqWakeful(s, t, c);
  }

  lemma IrqVisitWakeful(s: State, c: nat, q: nat)
    requires Core(s) && Wakeful(s) && c < s.ncpus && s.cpu[c].irq.ILoop? && q in s.cpu[c].irq.rest && q in s.procs
    requires s.cpu[c].cur == Some(q) || s.procs[q].lock == Free
    ensures Wakeful(AtIrq(Wake(s, q, false, Cond(s.cpu[c].irq.k), s.cpu[c].cur), c,
                          ILoop(s.cpu[c].irq.k, s.cpu[c].irq.rest - {q})))
  {
    var k := s.cpu[c].irq.k;
    var u := Wake(s, q, false, Cond(k), s.cpu[c].cur);
    var t := AtIrq(u, c, ILoop(k, s.cpu[c].irq.rest - {q}));
    assert CpuInv(s, c);
    WakeCalm(s, q, false, Cond(k), s.cpu[c].cur);
    WakeWakes(s, q, Cond(k), s.cpu[c].cur);
    IrqMoveCalm(s, u, t, c);
    IrqWakeful(s, t, c);
  }

  /** Moving an interrupt walk forward disturbs no sleeper. */
  lemma IrqMoveCalm(s: State, u: State, t: State, c: nat)
    requires Calmer(s, u) && SameParents(s, u) && c < |u.cpu| == |t.cpu| && t == AtIrq(u, c, t.cpu[c].irq)
    ensures Calmer(s, t) && SameParents(s, t)
    ensures forall r, ch :: Asleep(t, r, ch) <==> Asleep(u, r, ch)
  {
    assert forall r, z :: HasZombie(t, r, z) <==> HasZombie(u, r, z);
  }

  lemma JobWakeful(s: State, t: State, c: nat, j: Option<Job>)
    requires Core(s) && Wakeful(s) && RunsAt(s, c) && s.cpu[c].act.User? && Shape(t)
    requires t == SetProc(s, Cur(s, c), Me(s, c).(job := j))
                  .(active := t.active, handled := t.handled, deactivated := t.deactivated)
    ensures Wakeful(t)
  {
    assert CpuInv(s, c) && PlaceInv(s, Cur(s, c));
    DueElsewhere(s, t, c);
    LocalWakeful(s, t, c, t.procs[Cur(s, c)]);
  }
}

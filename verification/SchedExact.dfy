/**
 What the steps of the scheduler do, told from the outside: who leaves sleep and when, whose
 child a process is, what wait knows about children, and that preemption does not show.
 */
module SchedExact {
  import opened Wrappers
  import opened SchedProtocol
  import opened SchedSafety
  import opened SchedFamily
  import opened SchedWakeup
  import opened SchedIntr
  import opened SchedTheorems

  /* ---- sleep ---- */

  /** The step wakes a process that sleeps on this channel: a kill of it, or the visit of it by a wakeup on its channel. */
  predicate Wakes(s: State, l: Step, q: nat, ch: Chan) {
    match l
    case Kill(_, p) => p == q
    case ExitVisit1(_, p) => p == q && ch == Child(s.init)
    case ExitVisit2(c, p) =>
      p == q && c < |s.cpu| && s.cpu[c].cur.Some? && s.cpu[c].cur.value in s.procs
      && s.procs[s.cpu[c].cur.value].parent.Some? && ch == Child(s.procs[s.cpu[c].cur.value].parent.value)
    case IrqVisit(c, p) => p == q && c < |s.cpu| && s.cpu[c].irq.ILoop? && ch == Cond(s.cpu[c].irq.k)
    case _ => false
  }

  /** q, asleep, is made runnable at the end of the queue exactly by such a step, and otherwise stays asleep where it is. */
  ghost predicate SleepsOrWakes(s: State, l: Step, t: State, q: nat) {
    q in s.procs && s.procs[q].st == SLEEPING ==>
      && q in t.procs
      && (Wakes(s, l, q, s.procs[q].chan) ==> t.procs[q].st == RUNNABLE && t.runq == s.runq + [q])
      && (!Wakes(s, l, q, s.procs[q].chan) ==> t.procs[q].st == SLEEPING && t.procs[q].chan == s.procs[q].chan)
  }

  /** Only a process that does so itself falls asleep, and on the channel it chose. */
  ghost predicate FallsAsleep(s: State, l: Step, t: State, q: nat) {
    q in t.procs && t.procs[q].st == SLEEPING && !(q in s.procs && s.procs[q].st == SLEEPING) ==>
      && l.SleepSwitch? && l.c < |s.cpu| && s.cpu[l.c].cur == Some(q) && s.cpu[l.c].act.SleepC?
      && t.procs[q].chan == s.cpu[l.c].act.ch
  }

  lemma SleepDequeue(s: State, c: nat, q: nat)
    requires Shape(s) && c < s.ncpus && |s.runq| > 0 && s.runq[0] in s.procs && s.procs[s.runq[0]].st == RUNNABLE
    ensures SleepsOrWakes(s, Dequeue(c), DoDequeue(s, c), q) && FallsAsleep(s, Dequeue(c), DoDequeue(s, c), q)
  {
  }

  lemma SleepSched(s: State, l: Step, t: State, q: nat)
    requires Shape(s) && SchedNext(s, l, t) && !l.Dequeue? && l.c < s.ncpus && CpuInv(s, l.c)
    ensures SleepsOrWakes(s, l, t, q) && FallsAsleep(s, l, t, q)
  {
    hide SleepsOrWakes, FallsAsleep, CpuInv, SchedNext;
    if l.Dispatch? || l.Back? { SleepPick(s, l, t, q); } else { SleepYield(s, l, t, q); }
  }

  lemma SleepPick(s: State, l: Step, t: State, q: nat)
    requires Shape(s) && SchedNext(s, l, t) && (l.Dispatch? || l.Back?) && l.c < s.ncpus && CpuInv(s, l.c)
    ensures SleepsOrWakes(s, l, t, q) && FallsAsleep(s, l, t, q)
  {
    hide Rests;
  }

  lemma SleepYield(s: State, l: Step, t: State, q: nat)
    requires Shape(s) && SchedNext(s, l, t) && !l.Dequeue? && !l.Dispatch? && !l.Back? && l.c < s.ncpus && CpuInv(s, l.c)
    ensures SleepsOrWakes(s, l, t, q) && FallsAsleep(s, l, t, q)
  {
    hide Rests;
  }

  lemma SleepSleep(s: State, l: Step, t: State, q: nat)
    requires Shape(s) && SleepNext(s, l, t) && l.c < s.ncpus && CpuInv(s, l.c)
    ensures SleepsOrWakes(s, l, t, q) && FallsAsleep(s, l, t, q)
  {
    hide SleepsOrWakes, FallsAsleep, CpuInv, SleepNext;
    if l.SleepRelease? || l.SleepSwitch? { SleepDown(s, l, t, q); } else { SleepAround(s, l, t, q); }
  }

  lemma SleepDown(s: State, l: Step, t: State, q: nat)
    requires Shape(s) && SleepNext(s, l, t) && (l.SleepRelease? || l.SleepSwitch?) && l.c < s.ncpus && CpuInv(s, l.c)
    ensures SleepsOrWakes(s, l, t, q) && FallsAsleep(s, l, t, q)
  {
    hide Rests;
  }

  lemma SleepAround(s: State, l: Step, t: State, q: nat)
    requires Shape(s) && SleepNext(s, l, t) && !l.SleepRelease? && !l.SleepSwitch? && l.c < s.ncpus && CpuInv(s, l.c)
    ensures SleepsOrWakes(s, l, t, q) && FallsAsleep(s, l, t, q)
  {
    hide Rests;
  }

  lemma SleepVisit(s: State, l: Step, t: State, q: nat)
    requires Shape(s) && ExitNext(s, l, t) && (l.ExitVisit1? || l.ExitVisit2?) && l.c < s.ncpus && CpuInv(s, l.c)
    ensures SleepsOrWakes(s, l, t, q) && FallsAsleep(s, l, t, q)
  {
    hide Rests;
  }

  lemma SleepExit(s: State, l: Step, t: State, q: nat)
    requires Shape(s) && ExitNext(s, l, t) && !l.ExitVisit1? && !l.ExitVisit2? && l.c < s.ncpus && CpuInv(s, l.c)
    ensures SleepsOrWakes(s, l, t, q) && FallsAsleep(s, l, t, q)
  {
    hide Rests;
  }

  lemma SleepWait(s: State, l: Step, t: State, q: nat)
    requires Shape(s) && WaitNext(s, l, t) && l.c < s.ncpus && CpuInv(s, l.c) && FamCpu(s, l.c)
    ensures SleepsOrWakes(s, l, t, q) && FallsAsleep(s, l, t, q)
  {
    hide SleepsOrWakes, FallsAsleep, CpuInv, FamCpu, WaitNext;
    if l.WaitVisit? || l.WaitFree? { SleepReap(s, l, t, q); } else { SleepWaitRest(s, l, t, q); }
  }

  lemma SleepReap(s: State, l: Step, t: State, q: nat)
    requires Shape(s) && WaitNext(s, l, t) && (l.WaitVisit? || l.WaitFree?) && l.c < s.ncpus && CpuInv(s, l.c) && FamCpu(s, l.c)
    ensures SleepsOrWakes(s, l, t, q) && FallsAsleep(s, l, t, q)
  {
    hide Rests;
  }

  lemma SleepWaitRest(s: State, l: Step, t: State, q: nat)
    requires Shape(s) && WaitNext(s, l, t) && !l.WaitVisit? && !l.WaitFree? && l.c < s.ncpus && CpuInv(s, l.c)
    ensures SleepsOrWakes(s, l, t, q) && FallsAsleep(s, l, t, q)
  {
    hide Rests;
  }

  lemma SleepFork(s: State, l: Step, t: State, q: nat)
    requires Shape(s) && MakingInv(s) && ForkNext(s, l, t) && l.c < s.ncpus && CpuInv(s, l.c)
    ensures SleepsOrWakes(s, l, t, q) && FallsAsleep(s, l, t, q)
  {
    hide Rests;
  }

  lemma SleepIrq(s: State, l: Step, t: State, q: nat)
    requires Shape(s) && IrqNext(s, l, t) && l.c < s.ncpus && CpuInv(s, l.c)
    ensures SleepsOrWakes(s, l, t, q) && FallsAsleep(s, l, t, q)
  {
    hide Rests;
  }

  lemma StepCpu(s: State, l: Step, t: State)
    requires Shape(s) && Next(s, l, t)
    ensures l.c < s.ncpus
  {
    hide SchedNext, SleepNext, ExitNext, WaitNext, ForkNext, IrqNext;
    if SchedNext(s, l, t) || SleepNext(s, l, t) { StepCpuRun(s, l, t); }
    if ExitNext(s, l, t) { StepCpuExit(s, l, t); }
    if WaitNext(s, l, t) { StepCpuWait(s, l, t); }
    if ForkNext(s, l, t) || IrqNext(s, l, t) { StepCpuFork(s, l, t); }
  }

  lemma StepCpuRun(s: State, l: Step, t: State)
    requires Shape(s) && (SchedNext(s, l, t) || SleepNext(s, l, t))
    ensures l.c < s.ncpus
  {
    hide At, SetProc, DoSwitch, DoDequeue, DoDispatch, DoBack;
  }

  lemma StepCpuExit(s: State, l: Step, t: State)
    requires Shape(s) && ExitNext(s, l, t)
    ensures l.c < s.ncpus
  {
    hide At, SetProc, DoSwitch, Wake;
  }

  lemma StepCpuWait(s: State, l: Step, t: State)
    requires Shape(s) && WaitNext(s, l, t)
    ensures l.c < s.ncpus
  {
    hide At, SetProc, DoSwitch, DoWaitVisit;
  }

  lemma StepCpuFork(s: State, l: Step, t: State)
    requires Shape(s) && (ForkNext(s, l, t) || IrqNext(s, l, t))
    ensures l.c < s.ncpus
  {
    hide AtIrq, SetProc, Wake;
  }

  lemma HeadRunnable(s: State)
    requires Core(s) && |s.runq| > 0
    ensures s.runq[0] in s.procs && s.procs[s.runq[0]].st == RUNNABLE
  {
    hide CpusInv, LocksInv, Rests;
    assert PlaceInv(s, s.runq[0]);
  }

  lemma SleepStepExact(s: State, l: Step, t: State, q: nat)
    requires Core(s) && Family(s) && Next(s, l, t)
    ensures SleepsOrWakes(s, l, t, q) && FallsAsleep(s, l, t, q)
  {
    hide RunqInv, ProcsInv, LocksInv, CpuInv, FamCpu, MakingInv, ParentInv, UnlinkedInv, SleepsOrWakes, FallsAsleep,
         SleepNext, ExitNext, WaitNext, ForkNext, IrqNext;
    StepCpu(s, l, t);
    assert CpuInv(s, l.c) && FamCpu(s, l.c);
    if SchedNext(s, l, t) {
      if l.Dequeue? {
        HeadRunnable(s);
        SleepDequeue(s, l.c, q);
      } else {
        SleepSched(s, l, t, q);
      }
    }
    if SleepNext(s, l, t) { SleepSleep(s, l, t, q); }
    if ExitNext(s, l, t) {
      if l.ExitVisit1? || l.ExitVisit2? { SleepVisit(s, l, t, q); } else { SleepExit(s, l, t, q); }
    }
    if WaitNext(s, l, t) { SleepWait(s, l, t, q); }
    if ForkNext(s, l, t) { SleepFork(s, l, t, q); }
    if IrqNext(s, l, t) { SleepIrq(s, l, t, q); }
  }

  /** Over every run: a sleeper on any channel leaves sleep exactly by a kill or by a wakeup on its channel, and then it is
      runnable behind all others; and nobody falls asleep but by its own doing. */
  lemma SleepExact(run: seq<State>, steps: seq<Step>, i: nat, q: nat)
    requires IsRun(run, steps) && i < |steps|
    ensures SleepsOrWakes(run[i], steps[i], run[i + 1], q) && FallsAsleep(run[i], steps[i], run[i + 1], q)
  {
    hide RunqInv, ProcsInv, CpusInv, LocksInv, Kin, FamCpus, WaitInv, CondInv, WakeCpus, JobsInv, ExitersIdle, Next, SleepsOrWakes, FallsAsleep;
    RunInv(run, steps, i);
    SleepStepExact(run[i], steps[i], run[i + 1], q);
  }

  /** A step that wakes or kills q. */
  predicate Targets(l: Step, q: nat) {
    (l.Kill? || l.ExitVisit1? || l.ExitVisit2? || l.IrqVisit?) && l.q == q
  }

  /** A visit or a kill concerns one process: no other changes, and a visit that does not wake changes none. */
  lemma VisitExact(run: seq<State>, steps: seq<Step>, i: nat, q: nat)
    requires IsRun(run, steps) && i < |steps| && Targets(steps[i], q)
    ensures var s, t := run[i], run[i + 1];
            && q in s.procs && t.procs.Keys == s.procs.Keys && (forall p :: p in s.procs && p != q ==> t.procs[p] == s.procs[p])
            && (s.procs[q].st != SLEEPING || !Wakes(s, steps[i], q, s.procs[q].chan) ==>
                  t.runq == s.runq && t.procs[q].st == s.procs[q].st && (!steps[i].Kill? ==> t.procs == s.procs))
            && (steps[i].Kill? ==> t.procs[q].killed)
  {
    hide RunqInv, ProcsInv, LocksInv, Rests, Kin, FamCpus, WaitInv, CondInv, WakeCpus, JobsInv, ExitersIdle;
    RunInv(run, steps, i);
    assert Next(run[i], steps[i], run[i + 1]);
    StepCpu(run[i], steps[i], run[i + 1]);
    assert CpuInv(run[i], steps[i].c);
  }

  /* ---- parents ---- */

  /** The parent link of q is what it was, or q has just been published by its maker, or its parent has begun to exit. */
  ghost predicate ParentStep(s: State, l: Step, t: State, q: nat) {
    q in t.procs ==>
      && (q !in s.procs ==> t.procs[q].parent == None)
      && (q in s.procs && Published(s, l, q) ==>
            t.procs[q].parent == (if l.ForkPublish? then s.cpu[l.c].cur else None) && q in t.all && q !in s.all && t.procs[q].st == RUNNABLE)
      && (q in s.procs && Orphaned(s, l, q) ==> t.procs[q].parent == Some(s.init))
      && (q in s.procs && !Published(s, l, q) && !Orphaned(s, l, q) ==> t.procs[q].parent == s.procs[q].parent)
  }

  predicate Published(s: State, l: Step, q: nat) {
    && (l.ForkPublish? || l.KthreadPublish?) && l.c < |s.cpu| && s.cpu[l.c].cur.Some? && s.cpu[l.c].cur.value in s.procs
    && s.procs[s.cpu[l.c].cur.value].making == Some(q)
  }

  predicate Orphaned(s: State, l: Step, q: nat) {
    l.ExitBegin? && l.c < |s.cpu| && s.cpu[l.c].cur.Some? && q in s.procs && s.procs[q].parent == s.cpu[l.c].cur
  }

  lemma ParentSched(s: State, l: Step, t: State, q: nat)
    requires Shape(s) && SchedNext(s, l, t)
    ensures ParentStep(s, l, t, q)
  {
    hide ParentStep, SchedNext;
    if l.Dequeue? || l.Dispatch? || l.Back? { ParentPick(s, l, t, q); } else { ParentYield(s, l, t, q); }
  }

  lemma ParentPick(s: State, l: Step, t: State, q: nat)
    requires Shape(s) && SchedNext(s, l, t) && (l.Dequeue? || l.Dispatch? || l.Back?)
    ensures ParentStep(s, l, t, q)
  {
  }

  lemma ParentYield(s: State, l: Step, t: State, q: nat)
    requires Shape(s) && SchedNext(s, l, t) && !l.Dequeue? && !l.Dispatch? && !l.Back?
    ensures ParentStep(s, l, t, q)
  {
  }

  lemma ParentSleep(s: State, l: Step, t: State, q: nat)
    requires Shape(s) && SleepNext(s, l, t)
    ensures ParentStep(s, l, t, q)
  {
    hide ParentStep, SleepNext;
    if l.SleepRelease? || l.SleepSwitch? { ParentDown(s, l, t, q); } else { ParentAround(s, l, t, q); }
  }

  lemma ParentDown(s: State, l: Step, t: State, q: nat)
    requires Shape(s) && SleepNext(s, l, t) && (l.SleepRelease? || l.SleepSwitch?)
    ensures ParentStep(s, l, t, q)
  {
  }

  lemma ParentAround(s: State, l: Step, t: State, q: nat)
    requires Shape(s) && SleepNext(s, l, t) && !l.SleepRelease? && !l.SleepSwitch?
    ensures ParentStep(s, l, t, q)
  {
  }

  lemma ParentWait(s: State, l: Step, t: State, q: nat)
    requires Shape(s) && WaitNext(s, l, t)
    ensures ParentStep(s, l, t, q)
  {
  }

  lemma ParentFork(s: State, l: Step, t: State, q: nat)
    requires Shape(s) && MakingInv(s) && ForkNext(s, l, t)
    ensures ParentStep(s, l, t, q)
  {
  }

  lemma ParentIrq(s: State, l: Step, t: State, q: nat)
    requires Shape(s) && IrqNext(s, l, t)
    ensures ParentStep(s, l, t, q)
  {
  }

  /** While the parent of a process is not exiting, a process with a parent is listed or about to be freed. */
  lemma ChildListed(s: State, l: Step, t: State, q: nat)
    requires Core(s) && Family(s) && ExitNext(s, l, t) && l.ExitBegin? && q in s.procs && s.procs[q].parent.Some?
    ensures q in s.all
  {
    hide RunqInv, CpusInv, FamCpus, Rests;
    assert PlaceInv(s, q);
  }

  lemma ParentStepExact(s: State, l: Step, t: State, q: nat)
    requires Core(s) && Family(s) && Next(s, l, t)
    ensures ParentStep(s, l, t, q)
  {
    hide RunqInv, ProcsInv, CpusInv, LocksInv, FamCpus, MakingInv, ParentInv, UnlinkedInv, ParentStep,
         SchedNext, SleepNext, WaitNext, ForkNext, IrqNext;
    if SchedNext(s, l, t) { ParentSched(s, l, t, q); }
    if SleepNext(s, l, t) { ParentSleep(s, l, t, q); }
    if ExitNext(s, l, t) {
      if l.ExitBegin? && q in s.procs && s.procs[q].parent.Some? { ChildListed(s, l, t, q); }
      ParentExitAny(s, l, t, q);
    }
    if WaitNext(s, l, t) { ParentWait(s, l, t, q); }
    if ForkNext(s, l, t) { ParentFork(s, l, t, q); }
    if IrqNext(s, l, t) { ParentIrq(s, l, t, q); }
  }

  lemma ParentExitAny(s: State, l: Step, t: State, q: nat)
    requires Shape(s) && ExitNext(s, l, t) && (l.ExitBegin? && q in s.procs && s.procs[q].parent.Some? ==> q in s.all)
    ensures ParentStep(s, l, t, q)
  {
    hide ParentStep, ExitNext;
    if l.ExitBegin? { ParentExitBegin(s, l, t, q); } else { ParentExitRest(s, l, t, q); }
  }

  lemma ParentExitBegin(s: State, l: Step, t: State, q: nat)
    requires Shape(s) && ExitNext(s, l, t) && l.ExitBegin? && (q in s.procs && s.procs[q].parent.Some? ==> q in s.all)
    ensures ParentStep(s, l, t, q)
  {
  }

  lemma ParentExitRest(s: State, l: Step, t: State, q: nat)
    requires Shape(s) && ExitNext(s, l, t) && !l.ExitBegin?
    ensures ParentStep(s, l, t, q)
  {
  }

  /** Over every run: a forked child's parent is the process that forked it, a kernel thread has none, and a link changes
      only when the parent exits, and then to init. */
  lemma ParentExact(run: seq<State>, steps: seq<Step>, i: nat, q: nat)
    requires IsRun(run, steps) && i < |steps|
    ensures ParentStep(run[i], steps[i], run[i + 1], q)
  {
    hide RunqInv, ProcsInv, CpusInv, LocksInv, Kin, FamCpus, WaitInv, CondInv, WakeCpus, JobsInv, ExitersIdle, Next, ParentStep;
    RunInv(run, steps, i);
    ParentStepExact(run[i], steps[i], run[i + 1], q);
  }

  /* ---- what wait knows about children ---- */

  predicate IsChild(s: State, np: nat, p: nat) {
    np in s.all && np in s.procs && s.procs[np].parent == Some(p)
  }

  /** While wait scans, its flag says exactly whether a child was among those passed; after the scan, whether there is
      one at all. */
  ghost predicate KidsAt(s: State, u: Cpu) {
    u.cur.Some? ==>
      && (u.act.WaitScan? ==> (u.act.kids <==> exists np :: IsChild(s, np, u.cur.value) && np !in u.act.rest))
      && (u.act.WaitDone? ==> (u.act.kids <==> exists np :: IsChild(s, np, u.cur.value)))
  }

  ghost predicate Kids(s: State) {
    forall c :: 0 <= c < |s.cpu| ==> KidsAt(s, s.cpu[c])
  }

  ghost predicate SameChildren(s: State, t: State) {
    forall np, p :: IsChild(t, np, p) <==> IsChild(s, np, p)
  }

  predicate NotCounting(a: Act) { !a.WaitScan? && !a.WaitDone? }

  /** A step of CPU c that changes the children of nobody whom another CPU counts for. */
  ghost predicate KeepsKids(s: State, t: State, c: nat) {
    && c < |s.cpu| == |t.cpu| && (forall d :: 0 <= d < |s.cpu| && d != c ==> t.cpu[d] == s.cpu[d])
    && (SameChildren(s, t) || s.wait == Free || s.wait == HeldBy(c))
    && (NotCounting(t.cpu[c].act) || (SameChildren(s, t) && t.cpu[c].act == s.cpu[c].act && t.cpu[c].cur == s.cpu[c].cur))
  }

  lemma KidsKept(s: State, t: State, c: nat)
    requires Shape(s) && LocksInv(s) && Kids(s) && KeepsKids(s, t, c)
    ensures Kids(t)
  {
    hide IsChild;
    forall d | 0 <= d < |t.cpu| ensures KidsAt(t, t.cpu[d]) {
      assert KidsAt(s, s.cpu[d]);
      if d != c && !NotCounting(s.cpu[d].act) { assert HoldsWait(s.cpu[d].act); }
    }
  }

  /** ... or that counts right itself. */
  lemma KidsCounted(s: State, t: State, c: nat)
    requires Shape(s) && Kids(s) && c < |s.cpu| == |t.cpu| && (forall d :: 0 <= d < |s.cpu| && d != c ==> t.cpu[d] == s.cpu[d])
    requires SameChildren(s, t) && KidsAt(t, t.cpu[c])
    ensures Kids(t)
  {
    hide IsChild;
    forall d | 0 <= d < |t.cpu| ensures KidsAt(t, t.cpu[d]) {
      assert KidsAt(s, s.cpu[d]);
    }
  }

  lemma KidsSched(s: State, l: Step, t: State)
    requires Shape(s) && SchedNext(s, l, t) && (l.Resume? ==> PlaceInv(s, Cur(s, l.c)))
    ensures KeepsKids(s, t, l.c)
  {
  }

  lemma KidsSleep(s: State, l: Step, t: State)
    requires Shape(s) && SleepNext(s, l, t)
    ensures KeepsKids(s, t, l.c)
  {
  }

  lemma KidsExit(s: State, l: Step, t: State)
    requires Shape(s) && ExitNext(s, l, t)
    ensures KeepsKids(s, t, l.c)
  {
    hide KeepsKids;
    if l.ExitBegin? { KidsExitBegin(s, l, t); }
    else if l.ExitVisit1? || l.ExitVisit2? { KidsExitVisit(s, l, t); }
    else { KidsExitRest(s, l, t); }
  }

  lemma KidsExitBegin(s: State, l: Step, t: State)
    requires Shape(s) && ExitNext(s, l, t) && l.ExitBegin?
    ensures KeepsKids(s, t, l.c)
  {
    hide SameChildren;
  }

  lemma KidsExitVisit(s: State, l: Step, t: State)
    requires Shape(s) && ExitNext(s, l, t) && (l.ExitVisit1? || l.ExitVisit2?)
    ensures KeepsKids(s, t, l.c)
  {
  }

  lemma KidsExitRest(s: State, l: Step, t: State)
    requires Shape(s) && ExitNext(s, l, t) && !l.ExitBegin? && !l.ExitVisit1? && !l.ExitVisit2?
    ensures KeepsKids(s, t, l.c)
  {
  }

  lemma KidsFork(s: State, l: Step, t: State)
    requires Shape(s) && MakingInv(s) && ForkNext(s, l, t)
    ensures KeepsKids(s, t, l.c)
  {
  }

  lemma KidsIrq(s: State, l: Step, t: State)
    requires Shape(s) && IrqNext(s, l, t)
    ensures l.c < |s.cpu| == |t.cpu| && SameChildren(s, t) && (forall d :: 0 <= d < |s.cpu| && d != l.c ==> t.cpu[d] == s.cpu[d])
    ensures t.cpu[l.c].act == s.cpu[l.c].act && t.cpu[l.c].cur == s.cpu[l.c].cur
  {
  }

  /** The steps of wait that do not count: they begin, end, or hold wait_lock while they change the list. */
  lemma KidsWaitEnds(s: State, l: Step, t: State)
    requires Shape(s) && LocksInv(s) && WaitNext(s, l, t) && NotCounting(t.cpu[l.c].act)
    ensures KeepsKids(s, t, l.c)
  {
    assert HoldsWait(s.cpu[l.c].act) ==> s.wait == HeldBy(l.c);
  }

  lemma KidsWaitCounts(s: State, l: Step, t: State)
    requires Shape(s) && WaitNext(s, l, t) && l.c < |s.cpu| == |t.cpu| && !NotCounting(t.cpu[l.c].act) && KidsAt(s, s.cpu[l.c])
    requires FamCpu(s, l.c)
    ensures (forall d :: 0 <= d < |s.cpu| && d != l.c ==> t.cpu[d] == s.cpu[d]) && SameChildren(s, t) && KidsAt(t, t.cpu[l.c])
  {
    assert t.procs == s.procs && t.all == s.all;
    assert SameChildren(s, t);
    if l.WaitVisit? { VisitCounts(s, t, l.c, l.np); }
  }

  lemma VisitCounts(s: State, t: State, c: nat, np: nat)
    requires Shape(s) && RunsAt(s, c) && s.cpu[c].act.WaitScan? && np in s.cpu[c].act.rest && np in s.procs && t == DoWaitVisit(s, c, np)
    requires t.cpu[c].act.WaitScan? && KidsAt(s, s.cpu[c]) && np in s.all
    ensures KidsAt(t, t.cpu[c])
  {
    var p := Cur(s, c);
    var rest := s.cpu[c].act.rest;
    if IsChild(s, np, p) { assert IsChild(t, np, p) && np !in t.cpu[c].act.rest; }
    forall q ensures IsChild(t, q, p) && q !in t.cpu[c].act.rest <==> (IsChild(s, q, p) && q !in rest) || (q == np && IsChild(s, np, p)) {}
  }

  lemma KidsIrqKeeps(s: State, l: Step, t: State)
    requires Shape(s) && Kids(s) && IrqNext(s, l, t)
    ensures Kids(t)
  {
    hide IsChild, IrqNext;
    KidsIrq(s, l, t);
    assert KidsAt(s, s.cpu[l.c]);
    KidsCounted(s, t, l.c);
  }

  lemma KidsWait(s: State, l: Step, t: State)
    requires Shape(s) && LocksInv(s) && FamCpus(s) && Kids(s) && WaitNext(s, l, t) && Shape(t)
    ensures Kids(t)
  {
    hide WaitNext, KeepsKids, FamCpu, LocksInv;
    StepCpuWait(s, l, t);
    WaitSame(s, l, t);
    assert KidsAt(s, s.cpu[l.c]) && FamCpu(s, l.c);
    if NotCounting(t.cpu[l.c].act) {
      KidsWaitEnds(s, l, t);
      KidsKept(s, t, l.c);
    } else {
      KidsWaitCounts(s, l, t);
      KidsCounted(s, t, l.c);
    }
  }

  lemma WaitSame(s: State, l: Step, t: State)
    requires Shape(s) && WaitNext(s, l, t)
    ensures |t.cpu| == |s.cpu|
  {
  }

  lemma KidsStep(s: State, l: Step, t: State)
    requires Core(s) && Family(s) && Kids(s) && Next(s, l, t) && Shape(t)
    ensures Kids(t)
  {
    hide RunqInv, CpusInv, LocksInv, Kids, KeepsKids, SleepNext, ExitNext, WaitNext, ForkNext, IrqNext, ParentInv, UnlinkedInv, MakingInv,
         PlaceInv;
    if SchedNext(s, l, t) {
      if l.Resume? { assert PlaceInv(s, Cur(s, l.c)); }
      KidsSched(s, l, t);
      KidsKept(s, t, l.c);
    }
    if SleepNext(s, l, t) {
      KidsSleep(s, l, t);
      KidsKept(s, t, l.c);
    }
    if ExitNext(s, l, t) {
      KidsExit(s, l, t);
      KidsKept(s, t, l.c);
    }
    if WaitNext(s, l, t) { KidsWait(s, l, t); }
    if ForkNext(s, l, t) {
      KidsFork(s, l, t);
      KidsKept(s, t, l.c);
    }
    if IrqNext(s, l, t) { KidsIrqKeeps(s, l, t); }
  }

  lemma KidsInit(s: State)
    requires Init(s)
    ensures Kids(s)
  {
  }

  /** Over every run, what wait knows about children is exact. */
  lemma {:induction false} KidsExact(run: seq<State>, steps: seq<Step>, i: nat)
    requires IsRun(run, steps) && i < |run|
    ensures Kids(run[i])
  {
    hide RunqInv, ProcsInv, CpusInv, LocksInv, Kin, FamCpus, WaitInv, CondInv, WakeCpus, JobsInv, ExitersIdle, Next, Kids, Init;
    if i == 0 {
      KidsInit(run[0]);
    } else {
      KidsExact(run, steps, i - 1);
      RunInv(run, steps, i - 1);
      RunInv(run, steps, i);
      KidsStep(run[i - 1], steps[i - 1], run[i]);
    }
  }

  /** wait gives up exactly without a child or killed: an unkilled process that gives up has no child, and one that goes
      on to sleep has one. */
  lemma GivesUpChildless(run: seq<State>, steps: seq<Step>, i: nat, c: nat)
    requires IsRun(run, steps) && i < |steps| && (steps[i] == WaitGiveUp(c) || steps[i] == WaitPass(c))
    ensures var s := run[i];
            && c < |s.cpu| && s.cpu[c].cur.Some? && s.cpu[c].cur.value in s.procs
            && var p := s.cpu[c].cur.value;
               && (steps[i] == WaitGiveUp(c) && !s.procs[p].killed ==> forall np :: !IsChild(s, np, p))
               && (steps[i] == WaitPass(c) ==> !s.procs[p].killed && exists np :: IsChild(s, np, p))
  {
    hide IsChild;
    KidsExact(run, steps, i);
    var s := run[i];
    assert Next(s, steps[i], run[i + 1]);
    assert WaitNext(s, steps[i], run[i + 1]);
    assert KidsAt(s, s.cpu[c]);
  }

  /* ---- preemption does not show ---- */

  /** Where p's program stands: the position of the CPU it is on, seen through preemption, or where it will resume. */
  ghost function Standing(s: State, p: nat): Act
    requires p in s.procs
  {
    var x := s.procs[p];
    if x.place.OnCpu? && x.place.cpu < |s.cpu| && s.cpu[x.place.cpu].cur == Some(p) then
      match s.cpu[x.place.cpu].act
      case Yielding(back) => back
      case Resumed => x.resume
      case a => a
    else x.resume
  }

  predicate Scheduling(l: Step) {
    l.Dequeue? || l.Dispatch? || l.Back? || l.Resume? || l.Yield? || l.YieldSwitch? || l.Raise? || l.IrqWalk? || l.IrqVisit? || l.IrqEnd?
  }

  /** A step of p's own program. */
  predicate OwnStep(s: State, l: Step, p: nat) {
    !Scheduling(l) && l.c < |s.cpu| && s.cpu[l.c].cur == Some(p)
  }

  ghost predicate Unmoved(s: State, t: State, p: nat) {
    p in s.procs && p in t.procs ==> Standing(t, p) == Standing(s, p)
  }

  lemma UnmovedDequeue(s: State, c: nat, p: nat)
    requires Shape(s) && c < s.ncpus && |s.runq| > 0 && s.runq[0] in s.procs && s.procs[s.runq[0]].place == Queued && s.cpu[c].cur == None
    ensures Unmoved(s, DoDequeue(s, c), p)
  {
  }

  lemma UnmovedDispatch(s: State, l: Step, t: State, p: nat)
    requires Shape(s) && SchedNext(s, l, t) && (l.Dispatch? || l.Back?) && l.c < s.ncpus && CpuInv(s, l.c)
    ensures Unmoved(s, t, p)
  {
  }

  lemma UnmovedResume(s: State, l: Step, t: State, p: nat)
    requires Shape(s) && SchedNext(s, l, t) && (l.Resume? || l.Yield? || l.YieldSwitch?) && l.c < s.ncpus && CpuInv(s, l.c)
    requires PlaceInv(s, Cur(s, l.c))
    ensures Unmoved(s, t, p)
  {
  }

  lemma UnmovedSched(s: State, l: Step, t: State, p: nat)
    requires Core(s) && SchedNext(s, l, t)
    ensures Unmoved(s, t, p)
  {
    hide LocksInv, Unmoved, PlaceInv;
    assert CpuInv(s, l.c);
    if l.Dequeue? { UnmovedDequeue(s, l.c, p); }
    else if l.Dispatch? || l.Back? { UnmovedDispatch(s, l, t, p); }
    else {
      assert PlaceInv(s, Cur(s, l.c));
      UnmovedResume(s, l, t, p);
    }
  }

  /** A process asleep or not yet published is current nowhere. */
  ghost predicate SleeperOff(s: State, p: nat) {
    p in s.procs && (s.procs[p].st == SLEEPING || s.procs[p].st == USED) ==> forall d :: 0 <= d < |s.cpu| ==> s.cpu[d].cur != Some(p)
  }

  lemma SleeperIsOff(s: State, p: nat)
    requires Shape(s) && CpusInv(s)
    ensures SleeperOff(s, p)
  {
    hide Rests;
    forall d | 0 <= d < |s.cpu| && p in s.procs && (s.procs[p].st == SLEEPING || s.procs[p].st == USED) ensures s.cpu[d].cur != Some(p) {
      assert CpuInv(s, d);
    }
  }

  lemma UnmovedSleep(s: State, l: Step, t: State, p: nat)
    requires Shape(s) && SleepNext(s, l, t) && !OwnStep(s, l, p)
    ensures Unmoved(s, t, p)
  {
  }

  lemma UnmovedExit(s: State, l: Step, t: State, p: nat)
    requires Shape(s) && ExitNext(s, l, t) && !OwnStep(s, l, p) && SleeperOff(s, p)
    ensures Unmoved(s, t, p)
  {
    hide Unmoved;
    if l.ExitBegin? {
      UnmovedBegin(s, l, t, p);
    } else if l.ExitVisit1? || l.ExitVisit2? {
      UnmovedVisit(s, l, t, p);
    } else {
      UnmovedExitRest(s, l, t, p);
    }
  }

  lemma UnmovedBegin(s: State, l: Step, t: State, p: nat)
    requires Shape(s) && ExitNext(s, l, t) && !OwnStep(s, l, p) && l.ExitBegin?
    ensures Unmoved(s, t, p)
  {
    if p in s.procs { BeginFields(s, l.c, p); }
  }

  lemma UnmovedVisit(s: State, l: Step, t: State, p: nat)
    requires Shape(s) && ExitNext(s, l, t) && !OwnStep(s, l, p) && SleeperOff(s, p) && (l.ExitVisit1? || l.ExitVisit2?)
    ensures Unmoved(s, t, p)
  {
  }

  lemma UnmovedExitRest(s: State, l: Step, t: State, p: nat)
    requires Shape(s) && ExitNext(s, l, t) && !OwnStep(s, l, p) && !l.ExitBegin? && !l.ExitVisit1? && !l.ExitVisit2?
    ensures Unmoved(s, t, p)
  {
  }

  lemma BeginFields(s: State, c: nat, p: nat)
    requires Shape(s) && c < s.ncpus && s.cpu[c].cur.Some? && p in s.procs
    ensures p in DoExitBegin(s, c).procs && DoExitBegin(s, c).procs[p].resume == s.procs[p].resume
    ensures DoExitBegin(s, c).procs[p].place == s.procs[p].place
  {
  }

  lemma UnmovedWait(s: State, l: Step, t: State, p: nat)
    requires Shape(s) && WaitNext(s, l, t) && !OwnStep(s, l, p)
    ensures Unmoved(s, t, p)
  {
  }

  lemma UnmovedFork(s: State, l: Step, t: State, p: nat)
    requires Shape(s) && MakingInv(s) && ForkNext(s, l, t) && !OwnStep(s, l, p) && SleeperOff(s, p)
    ensures Unmoved(s, t, p)
  {
  }

  lemma UnmovedIrq(s: State, l: Step, t: State, p: nat)
    requires Shape(s) && IrqNext(s, l, t) && !OwnStep(s, l, p) && SleeperOff(s, p)
    ensures Unmoved(s, t, p)
  {
  }

  lemma UnmovedStep(s: State, l: Step, t: State, p: nat)
    requires Core(s) && Family(s) && Next(s, l, t) && !OwnStep(s, l, p)
    ensures Unmoved(s, t, p)
  {
    hide RunqInv, CpusInv, LocksInv, ProcsInv, FamCpus, MakingInv, ParentInv, UnlinkedInv, Unmoved, OwnStep, SleeperOff,
         SchedNext, SleepNext, ExitNext, WaitNext, ForkNext, IrqNext;
    SleeperIsOff(s, p);
    if SchedNext(s, l, t) { UnmovedSched(s, l, t, p); }
    if SleepNext(s, l, t) { UnmovedSleep(s, l, t, p); }
    if ExitNext(s, l, t) { UnmovedExit(s, l, t, p); }
    if WaitNext(s, l, t) { UnmovedWait(s, l, t, p); }
    if ForkNext(s, l, t) { UnmovedFork(s, l, t, p); }
    if IrqNext(s, l, t) { UnmovedIrq(s, l, t, p); }
  }

  /** Over every run: where a process stands in its program changes only by a step of its own.  Preemption, dispatch,
      interrupts and what other CPUs do leave it alone. */
  lemma SchedulingTransparent(run: seq<State>, steps: seq<Step>, i: nat, p: nat)
    requires IsRun(run, steps) && i < |steps| && !OwnStep(run[i], steps[i], p)
    ensures Unmoved(run[i], run[i + 1], p)
  {
    hide RunqInv, ProcsInv, CpusInv, LocksInv, Kin, FamCpus, WaitInv, CondInv, WakeCpus, JobsInv, ExitersIdle, Next, Unmoved, OwnStep;
    RunInv(run, steps, i);
    UnmovedStep(run[i], steps[i], run[i + 1], p);
  }
}

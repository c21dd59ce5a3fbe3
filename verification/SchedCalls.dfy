/**
 What a process sees of the machine: through which states it passes and by whose doing, when its
 calls of sleep, wait and exit begin and return, and what the process tables hold.
 */
module SchedCalls {
  import opened Wrappers
  import opened SchedProtocol
  import opened SchedSafety
  import opened SchedFamily
  import opened SchedWakeup
  import opened SchedIntr
  import opened SchedTheorems
  import opened SchedExact

  /** The step is taken by q, on the CPU that q is current on. */
  predicate By(s: State, l: Step, q: nat) {
    l.c < |s.cpu| && s.cpu[l.c].cur == Some(q)
  }

  /* ---- process states ---- */

  /** The state of q after step l. */
  function StateAfter(s: State, l: Step, q: nat): ProcState
    requires q in s.procs
  {
    var x := s.procs[q];
    match x.st
    case SLEEPING => if Wakes(s, l, q, x.chan) then RUNNABLE else SLEEPING
    case USED => if Published(s, l, q) then RUNNABLE else USED
    case RUNNABLE => if l.Dispatch? && l.c < |s.cpu| && s.cpu[l.c].act == SGot(q) then RUNNING else RUNNABLE
    case RUNNING =>
      if l.YieldSwitch? && By(s, l, q) then RUNNABLE
      else if l.SleepSwitch? && By(s, l, q) then SLEEPING
      else if l.ExitZombie? && By(s, l, q) then ZOMBIE
      else RUNNING
    case ZOMBIE => ZOMBIE
  }

  ghost predicate Lives(s: State, l: Step, t: State, q: nat) {
    q in s.procs && q in t.procs ==> t.procs[q].st == StateAfter(s, l, q)
  }

  lemma LivesAsleep(s: State, l: Step, t: State, q: nat)
    requires SleepsOrWakes(s, l, t, q) && q in s.procs && s.procs[q].st == SLEEPING
    ensures Lives(s, l, t, q)
  {
  }

  lemma LivesSched(s: State, l: Step, t: State, q: nat)
    requires Shape(s) && SchedNext(s, l, t) && l.c < s.ncpus && CpuInv(s, l.c)
    requires q in s.procs && PlaceInv(s, q) && s.procs[q].st != SLEEPING
    ensures Lives(s, l, t, q)
  {
    hide Rests, OwnChan, Wakes;
  }

  lemma LivesSleep(s: State, l: Step, t: State, q: nat)
    requires Shape(s) && SleepNext(s, l, t) && l.c < s.ncpus && CpuInv(s, l.c) && q in s.procs && s.procs[q].st != SLEEPING
    ensures Lives(s, l, t, q)
  {
    hide Rests, OwnChan, Wakes;
  }

  lemma LivesExit(s: State, l: Step, t: State, q: nat)
    requires Shape(s) && ExitNext(s, l, t) && l.c < s.ncpus && CpuInv(s, l.c) && q in s.procs && s.procs[q].st != SLEEPING
    ensures Lives(s, l, t, q)
  {
    hide Rests, OwnChan, Wakes;
  }

  lemma LivesWait(s: State, l: Step, t: State, q: nat)
    requires Shape(s) && WaitNext(s, l, t) && l.c < s.ncpus && q in s.procs && s.procs[q].st != SLEEPING
    ensures Lives(s, l, t, q)
  {
    hide Wakes;
  }

  lemma LivesFork(s: State, l: Step, t: State, q: nat)
    requires Shape(s) && MakingInv(s) && ForkNext(s, l, t) && q in s.procs && s.procs[q].st != SLEEPING
    ensures Lives(s, l, t, q)
  {
    hide Wakes;
  }

  lemma LivesIrq(s: State, l: Step, t: State, q: nat)
    requires Shape(s) && IrqNext(s, l, t) && q in s.procs && s.procs[q].st != SLEEPING
    ensures Lives(s, l, t, q)
  {
    hide Wakes;
  }

  lemma LivesStep(s: State, l: Step, t: State, q: nat)
    requires Core(s) && Family(s) && Next(s, l, t) && q in s.procs
    ensures Lives(s, l, t, q)
  {
    hide RunqInv, LocksInv, CpuInv, PlaceInv, FamCpus, MakingInv, ParentInv, UnlinkedInv, Lives, SleepsOrWakes, FallsAsleep,
         SchedNext, SleepNext, ExitNext, WaitNext, ForkNext, IrqNext;
    SleepStepExact(s, l, t, q);
    StepCpu(s, l, t);
    assert CpuInv(s, l.c) && PlaceInv(s, q);
    if s.procs[q].st == SLEEPING {
      LivesAsleep(s, l, t, q);
    } else {
      if SchedNext(s, l, t) { LivesSched(s, l, t, q); }
      if SleepNext(s, l, t) { LivesSleep(s, l, t, q); }
      if ExitNext(s, l, t) { LivesExit(s, l, t, q); }
      if WaitNext(s, l, t) { LivesWait(s, l, t, q); }
      if ForkNext(s, l, t) { LivesFork(s, l, t, q); }
      if IrqNext(s, l, t) { LivesIrq(s, l, t, q); }
    }
  }

  /** Over every run: the life of a process follows the state diagram, each arrow by its step and no other. */
  lemma LifeExact(run: seq<State>, steps: seq<Step>, i: nat, q: nat)
    requires IsRun(run, steps) && i < |steps| && q in run[i].procs
    ensures Lives(run[i], steps[i], run[i + 1], q)
  {
    hide RunqInv, ProcsInv, CpusInv, LocksInv, Kin, FamCpus, WaitInv, CondInv, WakeCpus, JobsInv, ExitersIdle, Next, Lives;
    RunInv(run, steps, i);
    LivesStep(run[i], steps[i], run[i + 1], q);
  }

  /* ---- calls ---- */

  /** What a process is in the middle of: waiting for a condition, wait(), exit(), or none of these. */
  datatype Call = Outside | Awaiting(k: nat) | Waiting | Exiting

  function OnChan(ch: Chan): Call {
    match ch
    case Cond(k) => Awaiting(k)
    case Child(_) => Waiting
    case NoChan => Outside
  }

  function CallAt(a: Act): Call {
    match a
    case Checking(k) => Awaiting(k)
    case SleepB(ch) => OnChan(ch)
    case SleepC(ch) => OnChan(ch)
    case Reacq(ch) => OnChan(ch)
    case WaitStart => Waiting
    case WaitScan(_, _) => Waiting
    case WaitReap(_) => Waiting
    case WaitDone(_, _) => Waiting
    case ExitW1 => Exiting
    case ExitL1(_) => Exiting
    case ExitW2 => Exiting
    case ExitL2(_) => Exiting
    case ExitB => Exiting
    case ExitZ => Exiting
    case _ => Outside
  }

  ghost function CallOf(s: State, p: nat): Call
    requires p in s.procs
  {
    if s.procs[p].st == ZOMBIE then Exiting else CallAt(Standing(s, p))
  }

  /** The call p is in after step l: calls begin by their first step, a wait for a condition returns only by taking the
      condition, wait only by freeing a child, by failing to copy its status out, or by giving up, and exit never. */
  ghost function CallAfter(s: State, l: Step, p: nat): Call
    requires p in s.procs
  {
    if !OwnStep(s, l, p) then CallOf(s, p)
    else match l
      case Await(_, k) => Awaiting(k)
      case WaitBegin(_) => Waiting
      case ExitBegin(_) => Exiting
      case Consume(_) => Outside
      case WaitFree(_) => Outside
      case WaitCopyFail(_, _) => Outside
      case WaitGiveUp(_) => Outside
      case _ => CallOf(s, p)
  }

  /** ... and each of these steps finds p in the call it belongs to. */
  ghost predicate CallFits(s: State, l: Step, p: nat) {
    p in s.procs && OwnStep(s, l, p) ==>
      var a := CallOf(s, p);
      && (l.Await? || l.WaitBegin? || l.ExitBegin? ==> a == Outside)
      && (l.Consume? ==> a.Awaiting? && a.k < |s.cond| && s.cond[a.k])
      && (l.WaitFree? || l.WaitCopyFail? || l.WaitGiveUp? ==> a == Waiting)
  }

  ghost predicate Calls(s: State, l: Step, t: State, p: nat) {
    p in s.procs && p in t.procs ==> CallFits(s, l, p) && CallOf(t, p) == CallAfter(s, l, p)
  }

  /** Before a step of its own, p stands where its CPU is. */
  lemma StandsHere(s: State, l: Step, p: nat)
    requires Shape(s) && OwnStep(s, l, p) && CpuInv(s, l.c) && !s.cpu[l.c].act.Resumed? && !s.cpu[l.c].act.Yielding?
    ensures Standing(s, p) == s.cpu[l.c].act && (s.procs[p].st == ZOMBIE <==> s.cpu[l.c].act.ExitZ?) && s.procs[p].place == OnCpu(l.c)
    ensures CallOf(s, p) == CallAt(s.cpu[l.c].act)
  {
  }

  /** ... and afterwards too, unless it left the CPU. */
  lemma StandsThere(t: State, c: nat, p: nat)
    requires p in t.procs && t.procs[p].place == OnCpu(c) && c < |t.cpu| && t.cpu[c].cur == Some(p)
    requires !t.cpu[c].act.Resumed? && !t.cpu[c].act.Yielding?
    ensures Standing(t, p) == t.cpu[c].act
  {
  }

  lemma CallsSleep(s: State, l: Step, t: State, p: nat)
    requires Shape(s) && SleepNext(s, l, t) && OwnStep(s, l, p) && CpuInv(s, l.c)
    ensures Calls(s, l, t, p)
  {
    hide Rests;
    StandsHere(s, l, p);
  }

  lemma CallsExit(s: State, l: Step, t: State, p: nat)
    requires Shape(s) && ExitNext(s, l, t) && OwnStep(s, l, p) && CpuInv(s, l.c)
    ensures Calls(s, l, t, p)
  {
    hide Calls, CpuInv, ExitNext;
    if l.ExitBegin? { CallsBegin(s, l, t, p); }
    else if l.ExitVisit1? || l.ExitVisit2? { CallsVisit(s, l, t, p); }
    else { CallsExitRest(s, l, t, p); }
  }

  lemma CallsBegin(s: State, l: Step, t: State, p: nat)
    requires Shape(s) && ExitNext(s, l, t) && l.ExitBegin? && OwnStep(s, l, p) && CpuInv(s, l.c)
    ensures Calls(s, l, t, p)
  {
    hide Rests, Standing;
    StandsHere(s, l, p);
    BeginFields(s, l.c, p);
    StandsThere(t, l.c, p);
  }

  lemma CallsVisit(s: State, l: Step, t: State, p: nat)
    requires Shape(s) && ExitNext(s, l, t) && (l.ExitVisit1? || l.ExitVisit2?) && OwnStep(s, l, p) && CpuInv(s, l.c)
    ensures Calls(s, l, t, p)
  {
    hide Rests, Standing;
    StandsHere(s, l, p);
    StandsThere(t, l.c, p);
  }

  lemma CallsExitRest(s: State, l: Step, t: State, p: nat)
    requires Shape(s) && ExitNext(s, l, t) && !l.ExitBegin? && !l.ExitVisit1? && !l.ExitVisit2? && OwnStep(s, l, p) && CpuInv(s, l.c)
    ensures Calls(s, l, t, p)
  {
    hide Rests;
    StandsHere(s, l, p);
  }

  lemma CallsWait(s: State, l: Step, t: State, p: nat)
    requires Shape(s) && WaitNext(s, l, t) && OwnStep(s, l, p) && CpuInv(s, l.c)
    ensures Calls(s, l, t, p)
  {
    hide Calls, CpuInv, WaitNext;
    if l.WaitFree? || l.WaitCopyFail? || l.WaitGiveUp? { CallsReturn(s, l, t, p); }
    else if l.WaitVisit? { CallsScan(s, l, t, p); }
    else { CallsWaitRest(s, l, t, p); }
  }

  lemma CallsReturn(s: State, l: Step, t: State, p: nat)
    requires Shape(s) && WaitNext(s, l, t) && (l.WaitFree? || l.WaitCopyFail? || l.WaitGiveUp?) && OwnStep(s, l, p) && CpuInv(s, l.c)
    ensures Calls(s, l, t, p)
  {
    hide Rests;
    StandsHere(s, l, p);
  }

  lemma CallsScan(s: State, l: Step, t: State, p: nat)
    requires Shape(s) && WaitNext(s, l, t) && l.WaitVisit? && OwnStep(s, l, p) && CpuInv(s, l.c)
    ensures Calls(s, l, t, p)
  {
    hide Rests;
    StandsHere(s, l, p);
  }

  lemma CallsWaitRest(s: State, l: Step, t: State, p: nat)
    requires Shape(s) && WaitNext(s, l, t) && !l.WaitFree? && !l.WaitCopyFail? && !l.WaitGiveUp? && !l.WaitVisit?
    requires OwnStep(s, l, p) && CpuInv(s, l.c)
    ensures Calls(s, l, t, p)
  {
    hide Rests;
    StandsHere(s, l, p);
  }

  lemma CallsFork(s: State, l: Step, t: State, p: nat)
    requires Shape(s) && MakingInv(s) && ForkNext(s, l, t) && OwnStep(s, l, p) && CpuInv(s, l.c)
    ensures Calls(s, l, t, p)
  {
    hide Rests;
    StandsHere(s, l, p);
  }

  lemma CallsIrq(s: State, l: Step, t: State, p: nat)
    requires Shape(s) && IrqNext(s, l, t) && OwnStep(s, l, p) && CpuInv(s, l.c)
    ensures Calls(s, l, t, p)
  {
    hide Rests;
    StandsHere(s, l, p);
  }

  lemma CallsOther(s: State, l: Step, t: State, p: nat)
    requires Unmoved(s, t, p) && Lives(s, l, t, p) && !OwnStep(s, l, p)
    ensures Calls(s, l, t, p)
  {
    hide Standing;
  }

  lemma CallsStep(s: State, l: Step, t: State, p: nat)
    requires Core(s) && Family(s) && Next(s, l, t) && p in s.procs
    ensures Calls(s, l, t, p)
  {
    hide RunqInv, ProcsInv, LocksInv, CpuInv, FamCpus, MakingInv, ParentInv, UnlinkedInv, Lives, Calls, Unmoved,
         SleepNext, ExitNext, WaitNext, ForkNext, IrqNext;
    if !OwnStep(s, l, p) {
      LivesStep(s, l, t, p);
      UnmovedStep(s, l, t, p);
      CallsOther(s, l, t, p);
    } else {
      assert CpuInv(s, l.c);
      if SleepNext(s, l, t) { CallsSleep(s, l, t, p); }
      if ExitNext(s, l, t) { CallsExit(s, l, t, p); }
      if WaitNext(s, l, t) { CallsWait(s, l, t, p); }
      if ForkNext(s, l, t) { CallsFork(s, l, t, p); }
      if IrqNext(s, l, t) { CallsIrq(s, l, t, p); }
    }
  }

  /** Over every run: through sleeps, preemption and wakeups, true or spurious, a process stays in its call until the step
      that ends it. */
  lemma CallExact(run: seq<State>, steps: seq<Step>, i: nat, p: nat)
    requires IsRun(run, steps) && i < |steps| && p in run[i].procs
    ensures Calls(run[i], steps[i], run[i + 1], p)
  {
    hide RunqInv, ProcsInv, CpusInv, LocksInv, Kin, FamCpus, WaitInv, CondInv, WakeCpus, JobsInv, ExitersIdle, Next, Calls;
    RunInv(run, steps, i);
    CallsStep(run[i], steps[i], run[i + 1], p);
  }

  /* ---- tables ---- */

  /** The process that the current process of l's CPU is building. */
  function Built(s: State, c: nat): set<nat> {
    if c < |s.cpu| && s.cpu[c].cur.Some? && s.cpu[c].cur.value in s.procs && s.procs[s.cpu[c].cur.value].making.Some?
    then {s.procs[s.cpu[c].cur.value].making.value} else {}
  }

  function Reaped(s: State, l: Step): set<nat> {
    if l.WaitFree? && l.c < |s.cpu| && s.cpu[l.c].act.WaitReap? then {s.cpu[l.c].act.np} else {}
  }

  /** A process comes by allocproc and goes by freeproc, in fork's failure or in wait; it is listed by being published and
      unlisted as a zombie that its parent finds; a condition is set by its interrupt and reset by whom it lets pass. */
  ghost predicate Tables(s: State, l: Step, t: State) {
    && t.procs.Keys == s.procs.Keys + (if l.Allocproc? then {l.np} else {}) - (if l.ForkFail? then Built(s, l.c) else Reaped(s, l))
    && t.freed == s.freed + Reaped(s, l)
    && t.all == s.all + (if l.ForkPublish? || l.KthreadPublish? then Built(s, l.c) else {})
                - (if l.WaitVisit? && l.c < |s.cpu| && l.np in s.procs && s.procs[l.np].st == ZOMBIE && s.procs[l.np].parent == s.cpu[l.c].cur
                   then {l.np} else {})
    && |t.cond| == |s.cond|
    && (forall k :: 0 <= k < |s.cond| ==>
          t.cond[k] == if l.Raise? && l.k == k then true
                       else if l.Consume? && l.c < |s.cpu| && s.cpu[l.c].act == Checking(k) then false
                       else s.cond[k])
  }

  lemma TablesSched(s: State, l: Step, t: State)
    requires Shape(s) && SchedNext(s, l, t)
    ensures Tables(s, l, t)
  {
    hide Tables, SchedNext;
    if l.Dequeue? || l.Dispatch? || l.Back? { TablesPick(s, l, t); } else { TablesYield(s, l, t); }
  }

  lemma TablesPick(s: State, l: Step, t: State)
    requires Shape(s) && SchedNext(s, l, t) && (l.Dequeue? || l.Dispatch? || l.Back?)
    ensures Tables(s, l, t)
  {
  }

  lemma TablesYield(s: State, l: Step, t: State)
    requires Shape(s) && SchedNext(s, l, t) && !l.Dequeue? && !l.Dispatch? && !l.Back?
    ensures Tables(s, l, t)
  {
  }

  lemma TablesSleep(s: State, l: Step, t: State)
    requires Shape(s) && SleepNext(s, l, t)
    ensures Tables(s, l, t)
  {
    hide Tables, SleepNext;
    if l.Consume? || l.SleepSwitch? { TablesTake(s, l, t); } else { TablesSleepRest(s, l, t); }
  }

  lemma TablesTake(s: State, l: Step, t: State)
    requires Shape(s) && SleepNext(s, l, t) && (l.Consume? || l.SleepSwitch?)
    ensures Tables(s, l, t)
  {
  }

  lemma TablesSleepRest(s: State, l: Step, t: State)
    requires Shape(s) && SleepNext(s, l, t) && !(l.Consume? || l.SleepSwitch?)
    ensures Tables(s, l, t)
  {
  }

  lemma TablesExit(s: State, l: Step, t: State)
    requires Shape(s) && ExitNext(s, l, t)
    ensures Tables(s, l, t)
  {
    hide Tables, ExitNext;
    if l.ExitBegin? || l.ExitVisit1? || l.ExitVisit2? { TablesVisit(s, l, t); } else { TablesExitRest(s, l, t); }
  }

  lemma TablesVisit(s: State, l: Step, t: State)
    requires Shape(s) && ExitNext(s, l, t) && (l.ExitBegin? || l.ExitVisit1? || l.ExitVisit2?)
    ensures Tables(s, l, t)
  {
  }

  lemma TablesExitRest(s: State, l: Step, t: State)
    requires Shape(s) && ExitNext(s, l, t) && !(l.ExitBegin? || l.ExitVisit1? || l.ExitVisit2?)
    ensures Tables(s, l, t)
  {
  }

  lemma TablesWait(s: State, l: Step, t: State)
    requires Shape(s) && WaitNext(s, l, t)
    ensures Tables(s, l, t)
  {
    hide Tables, WaitNext;
    if l.WaitVisit? || l.WaitFree? { TablesReap(s, l, t); } else { TablesWaitRest(s, l, t); }
  }

  lemma TablesReap(s: State, l: Step, t: State)
    requires Shape(s) && WaitNext(s, l, t) && (l.WaitVisit? || l.WaitFree?)
    ensures Tables(s, l, t)
  {
  }

  lemma TablesWaitRest(s: State, l: Step, t: State)
    requires Shape(s) && WaitNext(s, l, t) && !(l.WaitVisit? || l.WaitFree?)
    ensures Tables(s, l, t)
  {
  }

  lemma TablesFork(s: State, l: Step, t: State)
    requires Shape(s) && MakingInv(s) && ForkNext(s, l, t)
    ensures Tables(s, l, t)
  {
  }

  lemma TablesIrq(s: State, l: Step, t: State)
    requires Shape(s) && IrqNext(s, l, t)
    ensures Tables(s, l, t)
  {
  }

  /** Over every run, the tables change by exactly these steps. */
  lemma TablesExact(run: seq<State>, steps: seq<Step>, i: nat)
    requires IsRun(run, steps) && i < |steps|
    ensures Tables(run[i], steps[i], run[i + 1])
  {
    hide RunqInv, ProcsInv, CpusInv, LocksInv, MakingInv, ParentInv, UnlinkedInv, FamCpus, WaitInv, CondInv, WakeCpus, JobsInv, ExitersIdle,
         Tables, SchedNext, SleepNext, ExitNext, WaitNext, ForkNext, IrqNext;
    RunInv(run, steps, i);
    var s, l, t := run[i], steps[i], run[i + 1];
    assert Next(s, l, t);
    if SchedNext(s, l, t) { TablesSched(s, l, t); }
    if SleepNext(s, l, t) { TablesSleep(s, l, t); }
    if ExitNext(s, l, t) { TablesExit(s, l, t); }
    if WaitNext(s, l, t) { TablesWait(s, l, t); }
    if ForkNext(s, l, t) { TablesFork(s, l, t); }
    if IrqNext(s, l, t) { TablesIrq(s, l, t); }
  }
}

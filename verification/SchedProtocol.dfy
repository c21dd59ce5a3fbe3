/**
 Process lifecycle and scheduling on many CPUs, as a step system.

 Every section of code that runs under locks it takes and drops itself is one step,
 enabled when those locks are free; a lock that is kept across steps is state.  The
 windows the C code leaves open are kept apart: between dequeuing a process and locking
 it, between dropping the sleep lock and becoming SLEEPING, between changing state and
 leaving the CPU, between the exit wakeups and becoming ZOMBIE, between unlinking and
 freeing a zombie, and between setting an interrupt's pending flag and waking its thread.

 Walks over the process list take the members in any order.
 */
module SchedProtocol {
  import opened Wrappers

  datatype Holder = Free | HeldBy(cpu: nat)

  datatype ProcState = USED | RUNNABLE | RUNNING | SLEEPING | ZOMBIE

  /** A sleep channel: a process's own address (wait), or a condition's address. */
  datatype Chan = NoChan | Child(proc: nat) | Cond(k: nat)

  /** Auxiliary: where a process is being kept.  No step consults it. */
  datatype Where = Off | Queued | GotBy(cpu: nat) | OnCpu(cpu: nat)

  /** A condition consumed by an interrupt thread and how far its handler got. */
  datatype Job = Job(k: nat, ran: bool)

  datatype Proc = Proc(
    st: ProcState,
    lock: Holder,
    chan: Chan,
    killed: bool,
    parent: Option<nat>,
    resume: Act,               // where it continues when next dispatched
    making: Option<nat>,       // a process it has allocated and not yet published
    job: Option<Job>,
    place: Where)

  /** What a CPU is doing, interrupts aside. */
  datatype Act =
    | SIdle                                    // scheduler loop
    | SGot(p: nat)                             // dequeued p, not yet locked
    | SBack(p: nat)                            // p switched back, its lock held
    | Resumed                                  // just switched to, own lock held
    | User                                     // running, no locks
    | Yielding(back: Act)                      // own lock held
    | Checking(k: nat)                         // holds the condition's lock
    | SleepB(ch: Chan)                         // sleep(): both locks held
    | SleepC(ch: Chan)                         // sleep(): condition lock dropped
    | Reacq(ch: Chan)                          // sleep(): woken, wants the lock back
    | ExitW1                                   // wait_lock held, children reparented
    | ExitL1(rest: set<nat>)                   // wakeup(initproc)
    | ExitW2
    | ExitL2(rest: set<nat>)                   // wakeup(p->parent)
    | ExitB                                    // wakeups done
    | ExitZ                                    // ZOMBIE, own lock held
    | WaitStart                                // wait_lock held
    | WaitScan(rest: set<nat>, kids: bool)     // wait_lock and ptable_lock held
    | WaitReap(np: nat)                        // child unlinked, wait_lock held
    | WaitDone(kids: bool, passed: bool)       // scan found no zombie; passed: killed() said no

  /** An interrupt being dispatched on top of that. */
  datatype Irq = INone | IWant(k: nat) | ILoop(k: nat, rest: set<nat>)

  datatype Cpu = Cpu(cur: Option<nat>, act: Act, irq: Irq)

  datatype State = State(
    ncpus: nat,
    nk: nat,                       // conditions
    isIrq: seq<bool>,              // which conditions are interrupt sources
    init: nat,                     // initproc
    cpu: seq<Cpu>,
    procs: map<nat, Proc>,
    all: set<nat>,                 // allproc
    runq: seq<nat>,
    wait: Holder,                  // wait_lock
    ptable: Holder,                // ptable_lock
    condLock: seq<Holder>,
    cond: seq<bool>,
    active: seq<bool>,             // interrupt controller: source active
    scheduled: seq<nat>, handled: seq<nat>, deactivated: seq<nat>,   // ghost counts
    freed: set<nat>)               // ghost: processes handed to freeproc after publication

  predicate HoldsWait(a: Act) {
    a.ExitW1? || a.ExitL1? || a.ExitW2? || a.ExitL2? || a.ExitB? || a.WaitStart? || a.WaitScan? || a.WaitReap?
    || a.WaitDone? || (a.SleepB? && a.ch.Child?)
  }

  predicate HoldsPtable(x: Cpu) {
    x.act.ExitL1? || x.act.ExitL2? || x.act.WaitScan? || x.irq.ILoop?
  }

  predicate HoldsCond(a: Act, k: nat) {
    a == Checking(k) || a == SleepB(Cond(k))
  }

  predicate HoldsSelf(a: Act) {
    a.Resumed? || a.Yielding? || a.SleepB? || a.SleepC? || a.ExitZ?
  }

  /** Positions at which the CPU holds no spinlock, so interrupts are enabled. */
  predicate Lockless(a: Act) {
    a.SIdle? || a.SGot? || a.User? || a.Reacq?
  }

  /** ... and among them, those of a process. */
  predicate Preemptible(a: Act) {
    a.User? || a.Reacq?
  }

  predicate Shape(s: State) {
    && |s.cpu| == s.ncpus
    && |s.isIrq| == |s.condLock| == |s.cond| == |s.active| == |s.scheduled| == |s.handled| == |s.deactivated| == s.nk
    && s.all <= s.procs.Keys
    && s.init in s.all
    && (forall c :: 0 <= c < s.ncpus && s.cpu[c].cur.Some? ==> s.cpu[c].cur.value in s.procs)
  }

  /** CPU c runs process Cur(s, c), with no interrupt in progress. */
  predicate RunsAt(s: State, c: nat)
    requires Shape(s)
  {
    c < s.ncpus && s.cpu[c].irq.INone? && s.cpu[c].cur.Some?
  }

  function Cur(s: State, c: nat): nat
    requires Shape(s) && c < s.ncpus && s.cpu[c].cur.Some?
  {
    s.cpu[c].cur.value
  }

  function Me(s: State, c: nat): Proc
    requires Shape(s) && c < s.ncpus && s.cpu[c].cur.Some?
  {
    s.procs[s.cpu[c].cur.value]
  }

  function At(s: State, c: nat, a: Act): State
    requires c < |s.cpu|
  {
    s.(cpu := s.cpu[c := s.cpu[c].(act := a)])
  }

  function AtIrq(s: State, c: nat, i: Irq): State
    requires c < |s.cpu|
  {
    s.(cpu := s.cpu[c := s.cpu[c].(irq := i)])
  }

  function SetProc(s: State, p: nat, x: Proc): State {
    s.(procs := s.procs[p := x])
  }

  /* ---- scheduler ---- */

  function DoDequeue(s: State, c: nat): State
    requires Shape(s) && c < s.ncpus && |s.runq| > 0 && s.runq[0] in s.procs
  {
    var p := s.runq[0];
    At(SetProc(s, p, s.procs[p].(place := GotBy(c))), c, SGot(p)).(runq := s.runq[1..])
  }

  /** Lock the dequeued process; switch to it if it is RUNNABLE. */
  function DoDispatch(s: State, c: nat): State
    requires Shape(s) && c < s.ncpus && s.cpu[c].act.SGot? && s.cpu[c].act.p in s.procs
  {
    var p := s.cpu[c].act.p;
    if s.procs[p].st != RUNNABLE then
      At(SetProc(s, p, s.procs[p].(place := Off)), c, SIdle)
    else
      s.(procs := s.procs[p := s.procs[p].(st := RUNNING, lock := HeldBy(c), place := OnCpu(c))],
         cpu := s.cpu[c := s.cpu[c].(cur := Some(p), act := Resumed)])
  }

  /** After swtch returns to the scheduler. */
  function DoBack(s: State, c: nat): State
    requires Shape(s) && c < s.ncpus && s.cpu[c].act.SBack? && s.cpu[c].act.p in s.procs
  {
    var p := s.cpu[c].act.p;
    var x := s.procs[p].(lock := Free);
    if x.st == RUNNABLE then
      At(SetProc(s, p, x.(place := Queued)), c, SIdle).(runq := s.runq + [p])
    else
      At(SetProc(s, p, x.(place := Off)), c, SIdle)
  }

  /** forkret, or the tail of yield or sleep: drop the lock handed over. */
  function DoResume(s: State, c: nat): State
    requires Shape(s) && c < s.ncpus && s.cpu[c].cur.Some?
  {
    At(SetProc(s, Cur(s, c), Me(s, c).(lock := Free, chan := NoChan)), c, Me(s, c).resume)
  }

  function DoYield(s: State, c: nat): State
    requires Shape(s) && c < s.ncpus && s.cpu[c].cur.Some?
  {
    At(SetProc(s, Cur(s, c), Me(s, c).(lock := HeldBy(c))), c, Yielding(s.cpu[c].act))
  }

  /** Leave the CPU: sched() with the given state, to continue at `resume`. */
  function DoSwitch(s: State, c: nat, x: Proc): State
    requires Shape(s) && c < s.ncpus && s.cpu[c].cur.Some?
  {
    var p := Cur(s, c);
    s.(procs := s.procs[p := x], cpu := s.cpu[c := s.cpu[c].(cur := None, act := SBack(p))])
  }

  /* ---- sleep and conditions ---- */

  function LockCond(s: State, k: nat, h: Holder): State
    requires Shape(s) && k < s.nk
  {
    s.(condLock := s.condLock[k := h])
  }

  /** Take what the condition announces; an interrupt thread then owes a handler run. */
  function DoConsume(s: State, c: nat): State
    requires Shape(s) && c < s.ncpus && s.cpu[c].cur.Some? && s.cpu[c].act.Checking? && s.cpu[c].act.k < s.nk
  {
    var k := s.cpu[c].act.k;
    var x := if s.isIrq[k] then Me(s, c).(job := Some(Job(k, false))) else Me(s, c);
    At(SetProc(LockCond(s, k, Free).(cond := s.cond[k := false]), Cur(s, c), x), c, User)
  }

  function DoSleepLock(s: State, c: nat, ch: Chan): State
    requires Shape(s) && c < s.ncpus && s.cpu[c].cur.Some?
  {
    At(SetProc(s, Cur(s, c), Me(s, c).(lock := HeldBy(c))), c, SleepB(ch))
  }

  function DoSleepRelease(s: State, c: nat): State
    requires Shape(s) && c < s.ncpus && s.cpu[c].act.SleepB? && (s.cpu[c].act.ch.Cond? ==> s.cpu[c].act.ch.k < s.nk)
  {
    var ch := s.cpu[c].act.ch;
    match ch
    case Cond(k) => At(LockCond(s, k, Free), c, SleepC(ch))
    case _ => At(s.(wait := Free), c, SleepC(ch))
  }

  function DoSleepSwitch(s: State, c: nat): State
    requires Shape(s) && c < s.ncpus && s.cpu[c].cur.Some? && s.cpu[c].act.SleepC?
  {
    var ch := s.cpu[c].act.ch;
    DoSwitch(s, c, Me(s, c).(st := SLEEPING, chan := ch, resume := Reacq(ch)))
  }

  /** One process of wakeup(ch)'s walk, called by `self`; kill() ignores the channel. */
  function Wake(s: State, q: nat, anyChan: bool, ch: Chan, self: Option<nat>): State
    requires q in s.procs
  {
    if self != Some(q) && s.procs[q].st == SLEEPING && (anyChan || s.procs[q].chan == ch) then
      SetProc(s, q, s.procs[q].(st := RUNNABLE, place := Queued)).(runq := s.runq + [q])
    else s
  }

  /* ---- exit and wait ---- */

  function Reparent(procs: map<nat, Proc>, all: set<nat>, p: nat, init: nat): (r: map<nat, Proc>)
    ensures r.Keys == procs.Keys
    ensures forall q :: q in procs ==>
              r[q] == if q in all && procs[q].parent == Some(p) then procs[q].(parent := Some(init)) else procs[q]
  {
    map q | q in procs ::
      if q in all && procs[q].parent == Some(p) then procs[q].(parent := Some(init)) else procs[q]
  }

  function DoExitBegin(s: State, c: nat): State
    requires Shape(s) && c < s.ncpus && s.cpu[c].cur.Some?
  {
    At(s.(wait := HeldBy(c), procs := Reparent(s.procs, s.all, Cur(s, c), s.init)), c, ExitW1)
  }

  /** Whether exit calls wakeup a second time. */
  predicate SecondWake(s: State, c: nat)
    requires Shape(s) && c < s.ncpus && s.cpu[c].cur.Some?
  {
    Me(s, c).parent.Some? && Me(s, c).parent.value != s.init
  }

  function DoExitZombie(s: State, c: nat): State
    requires Shape(s) && c < s.ncpus && s.cpu[c].cur.Some?
  {
    At(SetProc(s, Cur(s, c), Me(s, c).(st := ZOMBIE, lock := HeldBy(c))).(wait := Free), c, ExitZ)
  }

  /** wait()'s loop body for one list member. */
  function DoWaitVisit(s: State, c: nat, np: nat): State
    requires Shape(s) && c < s.ncpus && s.cpu[c].cur.Some? && s.cpu[c].act.WaitScan? && np in s.procs
  {
    var WaitScan(rest, kids) := s.cpu[c].act;
    if s.procs[np].parent != Some(Cur(s, c)) then At(s, c, WaitScan(rest - {np}, kids))
    else if s.procs[np].st == ZOMBIE then At(s.(all := s.all - {np}, ptable := Free), c, WaitReap(np))
    else At(s, c, WaitScan(rest - {np}, true))
  }

  /** copyout failed: give up with everything as it was. */
  function DoWaitCopyFail(s: State, c: nat): State
    requires Shape(s) && c < s.ncpus
  {
    At(s.(ptable := Free, wait := Free), c, User)
  }

  function DoWaitFree(s: State, c: nat): State
    requires Shape(s) && c < s.ncpus && s.cpu[c].act.WaitReap?
  {
    var np := s.cpu[c].act.np;
    At(s.(procs := s.procs - {np}, freed := s.freed + {np}, wait := Free), c, User)
  }

  /* ---- fork and kthread_add ---- */

  const Blank := Proc(USED, Free, NoChan, false, None, User, None, None, Off)

  function DoAllocproc(s: State, c: nat, np: nat): State
    requires Shape(s) && c < s.ncpus && s.cpu[c].cur.Some?
  {
    s.(procs := s.procs[Cur(s, c) := Me(s, c).(making := Some(np))][np := Blank])
  }

  function DoForkFail(s: State, c: nat): State
    requires Shape(s) && c < s.ncpus && s.cpu[c].cur.Some? && Me(s, c).making.Some?
  {
    var np := Me(s, c).making.value;
    s.(procs := s.procs[Cur(s, c) := Me(s, c).(making := None)] - {np})
  }

  /** proc_activate */
  function DoActivate(s: State, c: nat, parent: Option<nat>): State
    requires Shape(s) && c < s.ncpus && s.cpu[c].cur.Some? && Me(s, c).making.Some? && Me(s, c).making.value in s.procs
  {
    var np := Me(s, c).making.value;
    s.(procs := s.procs[Cur(s, c) := Me(s, c).(making := None)]
                       [np := s.procs[np].(st := RUNNABLE, parent := parent, place := Queued)],
       all := s.all + {np}, runq := s.runq + [np])
  }

  /* ---- interrupts ---- */

  /** intr_dispatch under ithread_lock, for a source whose filter asks for its thread. */
  function DoRaise(s: State, c: nat, k: nat): State
    requires Shape(s) && c < s.ncpus && k < s.nk
  {
    var t := AtIrq(s, c, IWant(k)).(cond := s.cond[k := true]);
    if s.isIrq[k] then t.(active := s.active[k := true], scheduled := s.scheduled[k := s.scheduled[k] + 1]) else t
  }

  function DoHandler(s: State, c: nat, k: nat): State
    requires Shape(s) && c < s.ncpus && s.cpu[c].cur.Some? && k < s.nk
  {
    SetProc(s, Cur(s, c), Me(s, c).(job := Some(Job(k, true)))).(handled := s.handled[k := s.handled[k] + 1])
  }

  function DoDeactivate(s: State, c: nat, k: nat): State
    requires Shape(s) && c < s.ncpus && s.cpu[c].cur.Some? && k < s.nk
  {
    SetProc(s, Cur(s, c), Me(s, c).(job := None))
      .(active := s.active[k := false], deactivated := s.deactivated[k := s.deactivated[k] + 1])
  }

  datatype Step =
    | Dequeue(c: nat) | Dispatch(c: nat) | Back(c: nat)
    | Resume(c: nat) | Yield(c: nat) | YieldSwitch(c: nat)
    | Await(c: nat, k: nat) | Consume(c: nat) | SleepLock(c: nat) | SleepRelease(c: nat) | SleepSwitch(c: nat)
    | Reacquire(c: nat)
    | ExitBegin(c: nat) | ExitWalk1(c: nat) | ExitVisit1(c: nat, q: nat) | ExitEnd1(c: nat)
    | ExitWalk2(c: nat) | ExitVisit2(c: nat, q: nat) | ExitEnd2(c: nat) | ExitZombie(c: nat) | ExitSwitch(c: nat)
    | WaitBegin(c: nat) | WaitWalk(c: nat) | WaitVisit(c: nat, np: nat) | WaitCopyFail(c: nat, np: nat)
    | WaitEnd(c: nat) | WaitFree(c: nat) | WaitGiveUp(c: nat) | WaitPass(c: nat) | WaitSleep(c: nat)
    | Allocproc(c: nat, np: nat) | ForkFail(c: nat) | ForkPublish(c: nat) | KthreadPublish(c: nat)
    | Kill(c: nat, q: nat)
    | Raise(c: nat, k: nat) | IrqWalk(c: nat) | IrqVisit(c: nat, q: nat) | IrqEnd(c: nat)
    | RunHandler(c: nat) | Deactivate(c: nat)

  /** Steps of the scheduler loop and of a process entering or leaving a CPU. */
  ghost predicate SchedNext(s: State, l: Step, s': State)
    requires Shape(s)
  {
    match l
    case Dequeue(c) =>
      c < s.ncpus && s.cpu[c].irq.INone? && s.cpu[c].act.SIdle? && |s.runq| > 0 && s.runq[0] in s.procs
      && s' == DoDequeue(s, c)
    case Dispatch(c) =>
      c < s.ncpus && s.cpu[c].irq.INone? && s.cpu[c].act.SGot? && s.cpu[c].act.p in s.procs
      && s.procs[s.cpu[c].act.p].lock == Free && s' == DoDispatch(s, c)
    case Back(c) => c < s.ncpus && s.cpu[c].act.SBack? && s.cpu[c].act.p in s.procs && s' == DoBack(s, c)
    case Resume(c) => RunsAt(s, c) && s.cpu[c].act.Resumed? && s' == DoResume(s, c)
    case Yield(c) => RunsAt(s, c) && Preemptible(s.cpu[c].act) && Me(s, c).lock == Free && s' == DoYield(s, c)
    case YieldSwitch(c) =>
      RunsAt(s, c) && s.cpu[c].act.Yielding? && s' == DoSwitch(s, c, Me(s, c).(st := RUNNABLE, resume := s.cpu[c].act.back))
    case _ => false
  }

  ghost predicate SleepNext(s: State, l: Step, s': State)
    requires Shape(s)
  {
    match l
    case Await(c, k) =>
      RunsAt(s, c) && s.cpu[c].act.User? && k < s.nk && s.condLock[k] == Free
      && s' == At(LockCond(s, k, HeldBy(c)), c, Checking(k))
    // an interrupt thread looks at its source only between handler runs
    case Consume(c) =>
      RunsAt(s, c) && s.cpu[c].act.Checking? && s.cpu[c].act.k < s.nk && s.cond[s.cpu[c].act.k]
      && (s.isIrq[s.cpu[c].act.k] ==> Me(s, c).job.None?) && s' == DoConsume(s, c)
    case SleepLock(c) =>
      RunsAt(s, c) && s.cpu[c].act.Checking? && s.cpu[c].act.k < s.nk && !s.cond[s.cpu[c].act.k]
      && Me(s, c).lock == Free && s' == DoSleepLock(s, c, Cond(s.cpu[c].act.k))
    case SleepRelease(c) =>
      RunsAt(s, c) && s.cpu[c].act.SleepB? && (s.cpu[c].act.ch.Cond? ==> s.cpu[c].act.ch.k < s.nk)
      && s' == DoSleepRelease(s, c)
    case SleepSwitch(c) => RunsAt(s, c) && s.cpu[c].act.SleepC? && s' == DoSleepSwitch(s, c)
    case Reacquire(c) =>
      RunsAt(s, c) && s.cpu[c].act.Reacq?
      && (match s.cpu[c].act.ch
          case Cond(k) => k < s.nk && s.condLock[k] == Free && s' == At(LockCond(s, k, HeldBy(c)), c, Checking(k))
          case _ => s.wait == Free && s' == At(s.(wait := HeldBy(c)), c, WaitStart))
    case _ => false
  }

  ghost predicate ExitNext(s: State, l: Step, s': State)
    requires Shape(s)
  {
    match l
    case ExitBegin(c) =>
      RunsAt(s, c) && s.cpu[c].act.User? && Cur(s, c) != s.init && Me(s, c).making.None? && Me(s, c).job.None?
      && s.wait == Free && s.ptable == Free && s' == DoExitBegin(s, c)
    case ExitWalk1(c) =>
      RunsAt(s, c) && s.cpu[c].act.ExitW1? && s.ptable == Free && s' == At(s.(ptable := HeldBy(c)), c, ExitL1(s.all))
    case ExitVisit1(c, q) =>
      RunsAt(s, c) && s.cpu[c].act.ExitL1? && q in s.cpu[c].act.rest && q in s.procs
      && (q == Cur(s, c) || s.procs[q].lock == Free)
      && s' == At(Wake(s, q, false, Child(s.init), s.cpu[c].cur), c, ExitL1(s.cpu[c].act.rest - {q}))
    case ExitEnd1(c) =>
      RunsAt(s, c) && s.cpu[c].act.ExitL1? && s.cpu[c].act.rest == {}
      && s' == At(s.(ptable := Free), c, if SecondWake(s, c) then ExitW2 else ExitB)
    case ExitWalk2(c) =>
      RunsAt(s, c) && s.cpu[c].act.ExitW2? && s.ptable == Free && s' == At(s.(ptable := HeldBy(c)), c, ExitL2(s.all))
    case ExitVisit2(c, q) =>
      RunsAt(s, c) && s.cpu[c].act.ExitL2? && q in s.cpu[c].act.rest && q in s.procs && Me(s, c).parent.Some?
      && (q == Cur(s, c) || s.procs[q].lock == Free)
      && s' == At(Wake(s, q, false, Child(Me(s, c).parent.value), s.cpu[c].cur), c, ExitL2(s.cpu[c].act.rest - {q}))
    case ExitEnd2(c) =>
      RunsAt(s, c) && s.cpu[c].act.ExitL2? && s.cpu[c].act.rest == {} && s' == At(s.(ptable := Free), c, ExitB)
    case ExitZombie(c) => RunsAt(s, c) && s.cpu[c].act.ExitB? && Me(s, c).lock == Free && s' == DoExitZombie(s, c)
    case ExitSwitch(c) => RunsAt(s, c) && s.cpu[c].act.ExitZ? && s' == DoSwitch(s, c, Me(s, c))
    case _ => false
  }

  ghost predicate WaitNext(s: State, l: Step, s': State)
    requires Shape(s)
  {
    match l
    case WaitBegin(c) =>
      RunsAt(s, c) && s.cpu[c].act.User? && s.wait == Free && s' == At(s.(wait := HeldBy(c)), c, WaitStart)
    case WaitWalk(c) =>
      RunsAt(s, c) && s.cpu[c].act.WaitStart? && s.ptable == Free
      && s' == At(s.(ptable := HeldBy(c)), c, WaitScan(s.all, false))
    case WaitVisit(c, np) =>
      RunsAt(s, c) && s.cpu[c].act.WaitScan? && np in s.cpu[c].act.rest && np in s.procs
      && (s.procs[np].parent == s.cpu[c].cur ==> s.procs[np].lock == Free) && s' == DoWaitVisit(s, c, np)
    case WaitCopyFail(c, np) =>
      RunsAt(s, c) && s.cpu[c].act.WaitScan? && np in s.cpu[c].act.rest && np in s.procs
      && s.procs[np].parent == s.cpu[c].cur && s.procs[np].lock == Free && s.procs[np].st == ZOMBIE
      && s' == DoWaitCopyFail(s, c)
    case WaitEnd(c) =>
      RunsAt(s, c) && s.cpu[c].act.WaitScan? && s.cpu[c].act.rest == {}
      && s' == At(s.(ptable := Free), c, WaitDone(s.cpu[c].act.kids, false))
    case WaitFree(c) => RunsAt(s, c) && s.cpu[c].act.WaitReap? && s' == DoWaitFree(s, c)
    case WaitGiveUp(c) =>
      RunsAt(s, c) && s.cpu[c].act.WaitDone? && !s.cpu[c].act.passed && Me(s, c).lock == Free
      && (!s.cpu[c].act.kids || Me(s, c).killed) && s' == At(s.(wait := Free), c, User)
    // killed(p) takes and drops p->lock, and sleep() takes it again
    case WaitPass(c) =>
      RunsAt(s, c) && s.cpu[c].act == WaitDone(true, false) && Me(s, c).lock == Free && !Me(s, c).killed
      && s' == At(s, c, WaitDone(true, true))
    case WaitSleep(c) =>
      RunsAt(s, c) && s.cpu[c].act == WaitDone(true, true) && Me(s, c).lock == Free
      && s' == DoSleepLock(s, c, Child(Cur(s, c)))
    case _ => false
  }

  ghost predicate ForkNext(s: State, l: Step, s': State)
    requires Shape(s)
  {
    match l
    case Allocproc(c, np) =>
      RunsAt(s, c) && s.cpu[c].act.User? && Me(s, c).making.None? && np !in s.procs && np !in s.freed
      && s' == DoAllocproc(s, c, np)
    case ForkFail(c) => RunsAt(s, c) && s.cpu[c].act.User? && Me(s, c).making.Some? && s' == DoForkFail(s, c)
    case ForkPublish(c) =>
      RunsAt(s, c) && s.cpu[c].act.User? && Me(s, c).making.Some? && Me(s, c).making.value in s.procs
      && s.wait == Free && s.ptable == Free && s' == DoActivate(s, c, s.cpu[c].cur)
    case KthreadPublish(c) =>
      RunsAt(s, c) && s.cpu[c].act.User? && Me(s, c).making.Some? && Me(s, c).making.value in s.procs
      && s.ptable == Free && s' == DoActivate(s, c, None)
    case _ => false
  }

  ghost predicate IrqNext(s: State, l: Step, s': State)
    requires Shape(s)
  {
    match l
    case Kill(c, q) =>
      RunsAt(s, c) && s.cpu[c].act.User? && q in s.all && s.ptable == Free && s.procs[q].lock == Free
      && s' == Wake(SetProc(s, q, s.procs[q].(killed := true)), q, true, NoChan, None)
    case Raise(c, k) =>
      c < s.ncpus && s.cpu[c].irq.INone? && Lockless(s.cpu[c].act) && k < s.nk && s.condLock[k] == Free
      && (s.isIrq[k] ==> !s.active[k]) && s' == DoRaise(s, c, k)
    case IrqWalk(c) =>
      c < s.ncpus && s.cpu[c].irq.IWant? && s.ptable == Free
      && s' == AtIrq(s.(ptable := HeldBy(c)), c, ILoop(s.cpu[c].irq.k, s.all))
    case IrqVisit(c, q) =>
      c < s.ncpus && s.cpu[c].irq.ILoop? && q in s.cpu[c].irq.rest && q in s.procs
      && (s.cpu[c].cur == Some(q) || s.procs[q].lock == Free)
      && s' == AtIrq(Wake(s, q, false, Cond(s.cpu[c].irq.k), s.cpu[c].cur), c,
                     ILoop(s.cpu[c].irq.k, s.cpu[c].irq.rest - {q}))
    case IrqEnd(c) =>
      c < s.ncpus && s.cpu[c].irq.ILoop? && s.cpu[c].irq.rest == {} && s' == AtIrq(s.(ptable := Free), c, INone)
    case RunHandler(c) =>
      RunsAt(s, c) && s.cpu[c].act.User? && Me(s, c).job.Some? && !Me(s, c).job.value.ran && Me(s, c).job.value.k < s.nk
      && s' == DoHandler(s, c, Me(s, c).job.value.k)
    case Deactivate(c) =>
      RunsAt(s, c) && s.cpu[c].act.User? && Me(s, c).job.Some? && Me(s, c).job.value.ran && Me(s, c).job.value.k < s.nk
      && s' == DoDeactivate(s, c, Me(s, c).job.value.k)
    case _ => false
  }

  /** One atomic step of the machine. */
  ghost predicate Next(s: State, l: Step, s': State)
    requires Shape(s)
  {
    SchedNext(s, l, s') || SleepNext(s, l, s') || ExitNext(s, l, s') || WaitNext(s, l, s') || ForkNext(s, l, s')
    || IrqNext(s, l, s')
  }

  /** After userinit: init is published and queued, every CPU is in its scheduler loop. */
  ghost predicate Init(s: State) {
    && Shape(s)
    && s.procs == map[s.init := Blank.(st := RUNNABLE, place := Queued)] && s.all == {s.init} && s.runq == [s.init]
    && (forall c :: 0 <= c < s.ncpus ==> s.cpu[c] == Cpu(None, SIdle, INone))
    && s.wait == Free && s.ptable == Free && s.freed == {}
    && (forall k :: 0 <= k < s.nk ==> s.condLock[k] == Free && !s.cond[k] && !s.active[k])
    && (forall k :: 0 <= k < s.nk ==> s.scheduled[k] == 0 && s.handled[k] == 0 && s.deactivated[k] == 0)
  }
}

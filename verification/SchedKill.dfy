/**
 kill against wait: wait() asks killed(), which takes and drops the process's lock, and
 then sleeps, which takes it again.  A kill that comes in between finds the process
 running, only marks it, and the process sleeps although it was killed.  The theorem says
 that this is the only way: a killed process is asleep in wait exactly when such a kill
 fell into the window of its current sleep.
 */
module SchedKill {
  import opened Wrappers
  import opened SchedProtocol
  import opened SchedSafety
  import opened SchedFamily
  import opened SchedWakeup
  import opened SchedIntr
  import opened SchedTheorems

  /** CPU u has p past the killed() test and not yet asleep. */
  predicate Window(u: Cpu, p: nat) {
    u.cur == Some(p) && (u.act == WaitDone(true, true) || u.act == SleepB(Child(p)) || u.act == SleepC(Child(p)))
  }

  /** p is between the killed() test and sleep()'s acquisition of its lock. */
  ghost predicate Tested(s: State, p: nat) {
    exists d :: 0 <= d < |s.cpu| && s.cpu[d].cur == Some(p) && s.cpu[d].act == WaitDone(true, true)
  }

  ghost predicate OnTheWay(s: State, p: nat) {
    exists d :: 0 <= d < |s.cpu| && Window(s.cpu[d], p)
  }

  predicate AsleepInWait(s: State, p: nat) {
    p in s.procs && s.procs[p].st == SLEEPING && s.procs[p].chan == Child(p)
  }

  /** p has passed the test and has not been woken since. */
  ghost predicate Dozing(s: State, p: nat) {
    p in s.procs && (OnTheWay(s, p) || AsleepInWait(s, p))
  }

  predicate IsKilled(s: State, p: nat) {
    p in s.procs && s.procs[p].killed
  }

  /** What a step other than a kill of p may do to p, as far as this matters. */
  ghost predicate Quiet(s: State, t: State, p: nat) {
    && (IsKilled(s, p) && p in t.procs ==> IsKilled(t, p))
    && (IsKilled(t, p) ==> IsKilled(s, p))
    && (IsKilled(t, p) && Dozing(t, p) ==> Dozing(s, p))
  }

  predicate KillsOf(l: Step, p: nat) { l.Kill? && l.q == p }

  /** What a step has to be, on CPU c and on p, to be quiet. */
  ghost predicate Mild(s: State, t: State, c: nat, p: nat) {
    && c < |s.cpu| == |t.cpu|
    && (forall d :: 0 <= d < |s.cpu| && d != c ==> t.cpu[d] == s.cpu[d])
    && (Window(t.cpu[c], p) ==> Window(s.cpu[c], p) || (p in s.procs && !s.procs[p].killed))
    && (p in s.procs && p in t.procs ==> t.procs[p].killed == s.procs[p].killed)
    && (p in t.procs && p !in s.procs ==> !t.procs[p].killed)
    && (AsleepInWait(t, p) ==> AsleepInWait(s, p) || Window(s.cpu[c], p))
  }

  lemma MildQuiet(s: State, t: State, c: nat, p: nat)
    requires Mild(s, t, c, p)
    ensures Quiet(s, t, p)
  {
    if IsKilled(t, p) && OnTheWay(t, p) {
      var d :| 0 <= d < |t.cpu| && Window(t.cpu[d], p);
      if d != c { assert Window(s.cpu[d], p); }
    }
  }

  lemma QuietSched(s: State, l: Step, t: State, p: nat)
    requires Core(s) && SchedNext(s, l, t)
    ensures Quiet(s, t, p)
  {
    hide Quiet, RunqInv, LocksInv, CpusInv, Mild, PlaceInv;
    if l.Resume? {
      assert PlaceInv(s, Cur(s, l.c));
      MildResume(s, l.c, p);
    } else {
      MildSched(s, l, t, p);
    }
    MildQuiet(s, t, l.c, p);
  }

  lemma MildResume(s: State, c: nat, p: nat)
    requires Shape(s) && RunsAt(s, c) && PlaceInv(s, Cur(s, c))
    ensures Mild(s, DoResume(s, c), c, p)
  {
  }

  lemma MildSched(s: State, l: Step, t: State, p: nat)
    requires Shape(s) && SchedNext(s, l, t) && !l.Resume?
    ensures Mild(s, t, l.c, p)
  {
  }

  lemma QuietSleep(s: State, l: Step, t: State, p: nat)
    requires Shape(s) && SleepNext(s, l, t)
    ensures Quiet(s, t, p)
  {
    hide Quiet;
    assert Mild(s, t, l.c, p);
    MildQuiet(s, t, l.c, p);
  }

  lemma QuietExit(s: State, l: Step, t: State, p: nat)
    requires Shape(s) && ExitNext(s, l, t)
    ensures Quiet(s, t, p)
  {
    hide Quiet, Mild;
    if l.ExitVisit1? || l.ExitVisit2? { MildVisit(s, l, t, p); } else { MildExit(s, l, t, p); }
    MildQuiet(s, t, l.c, p);
  }

  lemma MildVisit(s: State, l: Step, t: State, p: nat)
    requires Shape(s) && ExitNext(s, l, t) && (l.ExitVisit1? || l.ExitVisit2?)
    ensures Mild(s, t, l.c, p)
  {
  }

  lemma MildExit(s: State, l: Step, t: State, p: nat)
    requires Shape(s) && ExitNext(s, l, t) && !l.ExitVisit1? && !l.ExitVisit2?
    ensures Mild(s, t, l.c, p)
  {
  }

  lemma QuietWait(s: State, l: Step, t: State, p: nat)
    requires Shape(s) && WaitNext(s, l, t)
    ensures Quiet(s, t, p)
  {
    hide Quiet;
    assert Mild(s, t, l.c, p);
    MildQuiet(s, t, l.c, p);
  }

  lemma QuietFork(s: State, l: Step, t: State, p: nat)
    requires Shape(s) && ForkNext(s, l, t)
    ensures Quiet(s, t, p)
  {
    hide Quiet;
    assert Mild(s, t, l.c, p);
    MildQuiet(s, t, l.c, p);
  }

  lemma QuietIrq(s: State, l: Step, t: State, p: nat)
    requires Shape(s) && IrqNext(s, l, t) && !KillsOf(l, p)
    ensures Quiet(s, t, p)
  {
    hide Quiet;
    assert Mild(s, t, l.c, p);
    MildQuiet(s, t, l.c, p);
  }

  lemma QuietStep(s: State, l: Step, t: State, p: nat)
    requires Core(s) && Next(s, l, t) && !KillsOf(l, p)
    ensures Quiet(s, t, p)
  {
    hide SchedNext, SleepNext, ExitNext, WaitNext, ForkNext, IrqNext, Quiet, RunqInv, ProcsInv, CpusInv, LocksInv;
    if SchedNext(s, l, t) { QuietSched(s, l, t, p); }
    if SleepNext(s, l, t) { QuietSleep(s, l, t, p); }
    if ExitNext(s, l, t) { QuietExit(s, l, t, p); }
    if WaitNext(s, l, t) { QuietWait(s, l, t, p); }
    if ForkNext(s, l, t) { QuietFork(s, l, t, p); }
    if IrqNext(s, l, t) { QuietIrq(s, l, t, p); }
  }

  /** A kill marks p; p goes on dozing only if it was in the window, and then it was past the test
      with its lock not yet taken. */
  lemma KillStep(s: State, l: Step, t: State, p: nat)
    requires Core(s) && Next(s, l, t) && KillsOf(l, p)
    ensures IsKilled(t, p) && (Dozing(t, p) <==> Tested(s, p)) && (Tested(s, p) ==> Dozing(s, p))
  {
    hide RunqInv, LocksInv, CpusInv, ProcsInv, Tested, OnTheWay;
    assert IrqNext(s, l, t);
    KillOnTheWay(s, t, p);
    if Tested(s, p) { TestedDozes(s, p); }
  }

  lemma TestedDozes(s: State, p: nat)
    requires Shape(s) && Tested(s, p)
    ensures Dozing(s, p)
  {
    var d :| 0 <= d < |s.cpu| && s.cpu[d].cur == Some(p) && s.cpu[d].act == WaitDone(true, true);
    assert Window(s.cpu[d], p);
  }

  /** With its lock free, a process in the window is at the start of it. */
  lemma KillOnTheWay(s: State, t: State, p: nat)
    requires Shape(s) && CpusInv(s) && t.cpu == s.cpu && p in s.procs && s.procs[p].lock == Free
    ensures OnTheWay(t, p) <==> Tested(s, p)
  {
    if OnTheWay(t, p) {
      var d :| 0 <= d < |t.cpu| && Window(t.cpu[d], p);
      assert CpuInv(s, d);
      assert s.cpu[d].act == WaitDone(true, true);
    }
    if Tested(s, p) {
      var d :| 0 <= d < |s.cpu| && s.cpu[d].cur == Some(p) && s.cpu[d].act == WaitDone(true, true);
      assert Window(t.cpu[d], p);
    }
  }

  /** Step j is a kill of p in its window, and p has been dozing from then on. */
  ghost predicate MissedAt(run: seq<State>, steps: seq<Step>, j: nat, i: nat, p: nat)
    requires j < i < |run| && j < |steps|
  {
    KillsOf(steps[j], p) && Tested(run[j], p) && forall m :: j <= m <= i ==> Dozing(run[m], p)
  }

  ghost predicate Missed(run: seq<State>, steps: seq<Step>, i: nat, p: nat)
    requires i < |run| && |run| == |steps| + 1
  {
    exists j :: 0 <= j < i && MissedAt(run, steps, j, i, p)
  }

  /** If it dozes marked, the mark came in the window. */
  lemma {:induction false} MarkedThenMissed(run: seq<State>, steps: seq<Step>, i: nat, p: nat)
    requires IsRun(run, steps) && i < |run| && IsKilled(run[i], p) && Dozing(run[i], p)
    ensures Missed(run, steps, i, p)
  {
    hide Core, Family, Wakeful, Jobs, Dozing, Tested, IsKilled, Next, Init;
    if i == 0 {
      Fresh(run[0], p);
    } else {
      var s, l, t := run[i - 1], steps[i - 1], run[i];
      RunInv(run, steps, i - 1);
      if KillsOf(l, p) {
        KillStep(s, l, t, p);
        assert MissedAt(run, steps, i - 1, i, p);
      } else {
        QuietStep(s, l, t, p);
        MarkedThenMissed(run, steps, i - 1, p);
        var j :| 0 <= j < i - 1 && MissedAt(run, steps, j, i - 1, p);
        assert MissedAt(run, steps, j, i, p);
      }
    }
  }

  lemma Fresh(s: State, p: nat)
    requires Init(s)
    ensures !Dozing(s, p)
  {
  }

  /** If a kill came in the window, it dozes marked for as long as it dozes. */
  lemma {:induction false} MissedThenMarked(run: seq<State>, steps: seq<Step>, j: nat, i: nat, p: nat)
    requires IsRun(run, steps) && j < i < |run| && MissedAt(run, steps, j, i, p)
    ensures IsKilled(run[i], p) && Dozing(run[i], p)
  {
    hide Core, Family, Wakeful, Jobs, Dozing, Tested, IsKilled, Next, Init;
    var s, l, t := run[i - 1], steps[i - 1], run[i];
    RunInv(run, steps, i - 1);
    assert Dozing(t, p);
    DozingLives(t, p);
    if KillsOf(l, p) {
      KillStep(s, l, t, p);
    } else {
      assert j < i - 1;
      MissedThenMarked(run, steps, j, i - 1, p);
      QuietStep(s, l, t, p);
    }
  }

  lemma DozingLives(s: State, p: nat)
    requires Dozing(s, p)
    ensures p in s.procs
  {
  }

  lemma WasDozing(s: State, p: nat)
    requires AsleepInWait(s, p)
    ensures Dozing(s, p)
  {
  }

  /** A killed process is asleep in wait exactly when the kill fell between the killed() test and
      the sleep it is still in. */
  lemma KilledAsleepIff(run: seq<State>, steps: seq<Step>, i: nat, p: nat)
    requires IsRun(run, steps) && i < |run| && AsleepInWait(run[i], p)
    ensures run[i].procs[p].killed <==> Missed(run, steps, i, p)
  {
    hide Init, Next, Dozing, Tested;
    WasDozing(run[i], p);
    if run[i].procs[p].killed {
      MarkedThenMissed(run, steps, i, p);
    }
    if Missed(run, steps, i, p) {
      var j :| 0 <= j < i && MissedAt(run, steps, j, i, p);
      MissedThenMarked(run, steps, j, i, p);
    }
  }

  /* ---- a run in which it happens ---- */

  /** Two CPUs, no conditions, init is process 0. */
  function Two(c0: Act, u0: Option<nat>, c1: Act, u1: Option<nat>, procs: map<nat, Proc>, all: set<nat>, runq: seq<nat>,
               wait: Holder, ptable: Holder): State
  {
    State(2, 0, [], 0, [Cpu(u0, c0, INone), Cpu(u1, c1, INone)], procs, all, runq, wait, ptable, [], [], [], [], [], [], {})
  }

  const Queue0 := Blank.(st := RUNNABLE, place := Queued)
  const Run0 := Blank.(st := RUNNING, place := OnCpu(0))
  const Queue1 := Queue0.(parent := Some(0))
  const Run1 := Blank.(st := RUNNING, place := OnCpu(1), parent := Some(0))
  const Killed0 := Run0.(killed := true)

  const B0 := Two(SIdle, None, SIdle, None, map[0 := Queue0], {0}, [0], Free, Free)
  const B1 := Two(SGot(0), None, SIdle, None, map[0 := Queue0.(place := GotBy(0))], {0}, [], Free, Free)
  const B2 := Two(Resumed, Some(0), SIdle, None, map[0 := Run0.(lock := HeldBy(0))], {0}, [], Free, Free)
  const B3 := Two(User, Some(0), SIdle, None, map[0 := Run0], {0}, [], Free, Free)
  const B4 := Two(User, Some(0), SIdle, None, map[0 := Run0.(making := Some(1)), 1 := Blank], {0}, [], Free, Free)
  const B5 := Two(User, Some(0), SIdle, None, map[0 := Run0, 1 := Queue1], {0, 1}, [1], Free, Free)
  const B6 := Two(User, Some(0), SGot(1), None, map[0 := Run0, 1 := Queue1.(place := GotBy(1))], {0, 1}, [], Free, Free)
  const B7 := Two(User, Some(0), Resumed, Some(1), map[0 := Run0, 1 := Run1.(lock := HeldBy(1))], {0, 1}, [], Free, Free)

  /** Both run; the parent is at position a of wait. */
  function InWait(a: Act, x: Proc, wait: Holder, ptable: Holder): State {
    Two(a, Some(0), User, Some(1), map[0 := x, 1 := Run1], {0, 1}, [], wait, ptable)
  }

  const B8 := InWait(User, Run0, Free, Free)
  const B9 := InWait(WaitStart, Run0, HeldBy(0), Free)
  const B10 := InWait(WaitScan({0, 1}, false), Run0, HeldBy(0), HeldBy(0))
  const B11 := InWait(WaitScan({1}, false), Run0, HeldBy(0), HeldBy(0))
  const B12 := InWait(WaitScan({}, true), Run0, HeldBy(0), HeldBy(0))
  const B13 := InWait(WaitDone(true, false), Run0, HeldBy(0), Free)
  const B14 := InWait(WaitDone(true, true), Run0, HeldBy(0), Free)
  const B15 := InWait(WaitDone(true, true), Killed0, HeldBy(0), Free)
  const B16 := InWait(SleepB(Child(0)), Killed0.(lock := HeldBy(0)), HeldBy(0), Free)
  const B17 := InWait(SleepC(Child(0)), Killed0.(lock := HeldBy(0)), Free, Free)
  const B18 := Two(SBack(0), None, User, Some(1),
                   map[0 := Killed0.(lock := HeldBy(0), st := SLEEPING, chan := Child(0), resume := Reacq(Child(0))), 1 := Run1],
                   {0, 1}, [], Free, Free)

  lemma Boots()
    ensures Init(B0) && Shape(B1) && Next(B0, Dequeue(0), B1)
  {
    assert SchedNext(B0, Dequeue(0), B1);
  }

  lemma InitRuns()
    ensures Shape(B1) && Shape(B2) && Next(B1, Dispatch(0), B2) && Next(B2, Resume(0), B3)
  {
    assert SchedNext(B1, Dispatch(0), B2);
    assert SchedNext(B2, Resume(0), B3);
  }

  lemma Forks()
    ensures Shape(B3) && Next(B3, Allocproc(0, 1), B4)
  {
    assert ForkNext(B3, Allocproc(0, 1), B4);
  }

  lemma Publishes()
    ensures Shape(B4) && Next(B4, ForkPublish(0), B5)
  {
    assert ForkNext(B4, ForkPublish(0), B5);
  }

  lemma ChildRuns()
    ensures Shape(B5) && Shape(B6) && Shape(B7)
    ensures Next(B5, Dequeue(1), B6) && Next(B6, Dispatch(1), B7) && Next(B7, Resume(1), B8)
  {
    assert SchedNext(B5, Dequeue(1), B6);
    assert SchedNext(B6, Dispatch(1), B7);
    assert SchedNext(B7, Resume(1), B8);
  }

  lemma BeginsWait()
    ensures Shape(B8) && Shape(B9) && Next(B8, WaitBegin(0), B9) && Next(B9, WaitWalk(0), B10)
  {
    assert WaitNext(B8, WaitBegin(0), B9);
    assert WaitNext(B9, WaitWalk(0), B10);
  }

  lemma Visits()
    ensures Shape(B10) && Shape(B11) && Next(B10, WaitVisit(0, 0), B11) && Next(B11, WaitVisit(0, 1), B12)
  {
    assert {0, 1} - {0} == {1} && {1} - {1} == {};
    assert WaitNext(B10, WaitVisit(0, 0), B11);
    assert WaitNext(B11, WaitVisit(0, 1), B12);
  }

  lemma FindsNoZombie()
    ensures Shape(B12) && Next(B12, WaitEnd(0), B13)
  {
    assert WaitNext(B12, WaitEnd(0), B13);
  }

  lemma PassesTest()
    ensures Shape(B13) && Next(B13, WaitPass(0), B14)
  {
    assert WaitNext(B13, WaitPass(0), B14);
  }

  lemma KilledThere()
    ensures Shape(B14) && Next(B14, Kill(1, 0), B15)
  {
    assert IrqNext(B14, Kill(1, 0), B15);
  }

  lemma LocksItself()
    ensures Shape(B15) && Next(B15, WaitSleep(0), B16)
  {
    assert WaitNext(B15, WaitSleep(0), B16);
  }

  lemma FallsAsleep()
    ensures Shape(B16) && Shape(B17) && Next(B16, SleepRelease(0), B17) && Next(B17, SleepSwitch(0), B18)
  {
    assert SleepNext(B16, SleepRelease(0), B17);
    assert SleepNext(B17, SleepSwitch(0), B18);
  }

  /** The window is real: a run that ends with a killed process asleep in wait. */
  lemma KillCanBeMissed() returns (run: seq<State>, steps: seq<Step>)
    ensures IsRun(run, steps) && |run| == 19 && AsleepInWait(run[18], 0) && run[18].procs[0].killed
  {
    hide Next, Init, Shape;
    Boots();
    InitRuns();
    Forks();
    Publishes();
    ChildRuns();
    BeginsWait();
    Visits();
    FindsNoZombie();
    PassesTest();
    KilledThere();
    LocksItself();
    FallsAsleep();
    run := [B0, B1, B2, B3, B4, B5, B6, B7, B8, B9, B10, B11, B12, B13, B14, B15, B16, B17, B18];
    steps := [Dequeue(0), Dispatch(0), Resume(0), Allocproc(0, 1), ForkPublish(0), Dequeue(1), Dispatch(1), Resume(1),
              WaitBegin(0), WaitWalk(0), WaitVisit(0, 0), WaitVisit(0, 1), WaitEnd(0), WaitPass(0), Kill(1, 0),
              WaitSleep(0), SleepRelease(0), SleepSwitch(0)];
  }
}

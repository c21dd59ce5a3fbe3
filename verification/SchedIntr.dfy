/**
 The interrupt handoff: a source that asked for its thread stays active until the thread
 has run the handler and deactivated it, so each scheduled interrupt gets exactly one of each.
 */
module SchedIntr {
  import opened Wrappers
  import opened SchedProtocol
  import opened SchedSafety
  import opened SchedFamily

  /** Process p has taken interrupt k and not yet deactivated it. */
  ghost predicate Serves(s: State, p: nat, k: nat) {
    p in s.procs && s.procs[p].job.Some? && s.procs[p].job.value.k == k
  }

  ghost predicate Ran(s: State, k: nat) {
    exists p :: Serves(s, p, k) && s.procs[p].job.value.ran
  }

  /** The account of one interrupt source. */
  ghost predicate SourceInv(s: State, k: nat)
    requires Shape(s) && k < s.nk
  {
    s.isIrq[k] ==>
      && s.scheduled[k] == s.deactivated[k] + (if s.active[k] then 1 else 0)
      && s.handled[k] == s.deactivated[k] + (if Ran(s, k) then 1 else 0)
      && (s.active[k] <==> s.cond[k] || exists p :: Serves(s, p, k))
      && (s.cond[k] ==> forall p :: !Serves(s, p, k))
  }

  ghost predicate JobsInv(s: State)
    requires Shape(s)
  {
    && (forall k :: 0 <= k < s.nk ==> SourceInv(s, k))
    && (forall p: nat, k: nat :: Serves(s, p, k) ==>
          k < s.nk && s.isIrq[k] && s.procs[p].st != USED && s.procs[p].st != ZOMBIE)
    && (forall p: nat, q: nat, k: nat :: Serves(s, p, k) && Serves(s, q, k) ==> p == q)
  }

  predicate Exiting(a: Act) {
    a.ExitW1? || a.ExitL1? || a.ExitW2? || a.ExitL2? || a.ExitB? || a.ExitZ?
  }

  ghost predicate ExitersIdle(s: State)
    requires Shape(s)
  {
    forall c :: 0 <= c < s.ncpus && s.cpu[c].cur.Some? && Exiting(s.cpu[c].act) ==>
      s.procs[s.cpu[c].cur.value].job == None
  }

  ghost predicate Jobs(s: State) {
    Shape(s) && JobsInv(s) && ExitersIdle(s)
  }

  lemma InitJobs(s: State)
    requires Init(s)
    ensures Jobs(s)
  {
  }

  /** Steps that leave conditions, sources and jobs alone. */
  ghost predicate SameJobs(s: State, t: State)
  {
    && t.nk == s.nk && t.isIrq == s.isIrq && t.cond == s.cond && t.active == s.active
    && t.scheduled == s.scheduled && t.handled == s.handled && t.deactivated == s.deactivated
    && (forall p :: p in t.procs && p in s.procs ==> t.procs[p].job == s.procs[p].job)
    && (forall p :: p in t.procs && p !in s.procs ==> t.procs[p].job == None)
    && (forall p :: p in s.procs && p !in t.procs ==> s.procs[p].job == None)
    && (forall p :: p in t.procs && (t.procs[p].st == USED || t.procs[p].st == ZOMBIE) ==>
          t.procs[p].job == None)
  }

  lemma JobsFrame(s: State, t: State)
    requires Jobs(s) && Shape(t) && SameJobs(s, t) && ExitersIdle(t)
    ensures Jobs(t)
  {
    assert forall p, k :: Serves(t, p, k) <==> Serves(s, p, k);
    forall k | 0 <= k < t.nk ensures SourceInv(t, k) {
      assert SourceInv(s, k);
      assert Ran(t, k) <==> Ran(s, k) by {
        if Ran(s, k) { var p :| Serves(s, p, k) && s.procs[p].job.value.ran; assert Serves(t, p, k); }
        if Ran(t, k) { var p :| Serves(t, p, k) && t.procs[p].job.value.ran; assert Serves(s, p, k); }
      }
    }
  }

  /** A process neither USED nor ZOMBIE, or one that was so already, keeps its job. */
  lemma CpuStepJobs(s: State, t: State, c: nat)
    requires Core(s) && Jobs(s) && Shape(t) && t.ncpus == s.ncpus && c < s.ncpus && t.cpu == s.cpu[c := t.cpu[c]]
    requires SameJobs(s, t)
    requires t.cpu[c].cur.Some? && Exiting(t.cpu[c].act) ==> t.procs[t.cpu[c].cur.value].job == None
    ensures Jobs(t)
  {
    forall d | 0 <= d < t.ncpus && t.cpu[d].cur.Some? && Exiting(t.cpu[d].act)
      ensures t.procs[t.cpu[d].cur.value].job == None
    {
      if d != c { assert s.cpu[d] == t.cpu[d]; }
    }
    JobsFrame(s, t);
  }

  /** Idle (USED) and dead (ZOMBIE) processes have no job. */
  lemma NoJob(s: State, p: nat)
    requires Jobs(s) && p in s.procs && (s.procs[p].st == USED || s.procs[p].st == ZOMBIE)
    ensures s.procs[p].job == None
  {
    if s.procs[p].job.Some? { assert Serves(s, p, s.procs[p].job.value.k); }
  }

  lemma RaiseJobs(s: State, c: nat, k: nat)
    requires Core(s) && Jobs(s) && c < s.ncpus && k < s.nk && (s.isIrq[k] ==> !s.active[k])
    ensures Jobs(DoRaise(s, c, k))
  {
    var t := DoRaise(s, c, k);
    assert forall p, j :: Serves(t, p, j) <==> Serves(s, p, j);
    forall j | 0 <= j < t.nk ensures SourceInv(t, j) {
      assert SourceInv(s, j);
      assert Ran(t, j) <==> Ran(s, j);
    }
  }

  lemma ConsumeJobs(s: State, c: nat)
    requires Core(s) && Jobs(s) && RunsAt(s, c) && s.cpu[c].act.Checking? && s.cpu[c].act.k < s.nk
    requires s.cond[s.cpu[c].act.k] && (s.isIrq[s.cpu[c].act.k] ==> Me(s, c).job.None?)
    ensures Jobs(DoConsume(s, c))
  {
    var t := DoConsume(s, c);
    var k, me := s.cpu[c].act.k, Cur(s, c);
    assert CpuInv(s, c);
    assert forall p, j :: p != me ==> (Serves(t, p, j) <==> Serves(s, p, j));
    if s.isIrq[k] {
      assert Serves(t, me, k);
      assert SourceInv(s, k);
    }
    forall j | 0 <= j < t.nk ensures SourceInv(t, j) {
      assert SourceInv(s, j);
      OthersRan(s, t, me, j);
      if j != k || !s.isIrq[k] { assert Serves(t, me, j) <==> Serves(s, me, j); }
    }
    ConsumeExit(s, c);
    ConsumeServers(s, c);
  }

  lemma ConsumeServers(s: State, c: nat)
    requires Core(s) && Jobs(s) && RunsAt(s, c) && s.cpu[c].act.Checking? && s.cpu[c].act.k < s.nk
    requires s.cond[s.cpu[c].act.k] && (s.isIrq[s.cpu[c].act.k] ==> Me(s, c).job.None?)
    ensures var t := DoConsume(s, c);
            && (forall p: nat, k: nat :: Serves(t, p, k) ==>
                  k < t.nk && t.isIrq[k] && t.procs[p].st != USED && t.procs[p].st != ZOMBIE)
            && (forall p: nat, q: nat, k: nat :: Serves(t, p, k) && Serves(t, q, k) ==> p == q)
  {
    var t := DoConsume(s, c);
    assert CpuInv(s, c);
    assert SourceInv(s, s.cpu[c].act.k);
    forall p: nat, k: nat | Serves(t, p, k) ensures Serves(s, p, k) || (p == Cur(s, c) && k == s.cpu[c].act.k && s.isIrq[k]) {}
  }

  lemma ConsumeExit(s: State, c: nat)
    requires Core(s) && Jobs(s) && RunsAt(s, c) && s.cpu[c].act.Checking? && s.cpu[c].act.k < s.nk
    ensures ExitersIdle(DoConsume(s, c))
  {
    var t := DoConsume(s, c);
    assert CpuInv(s, c);
    forall d | 0 <= d < t.ncpus && t.cpu[d].cur.Some? && Exiting(t.cpu[d].act)
      ensures t.procs[t.cpu[d].cur.value].job == None
    {
      assert CpuInv(s, d);
    }
  }

  /** A handler has run for j, seen from a step that touches only process `me`. */
  lemma OthersRan(s: State, t: State, me: nat, j: nat)
    requires t.procs.Keys == s.procs.Keys && forall p :: p in s.procs && p != me ==> t.procs[p].job == s.procs[p].job
    ensures Ran(t, j) && !Ran(s, j) ==> Serves(t, me, j) && t.procs[me].job.value.ran
    ensures Ran(s, j) && !Ran(t, j) ==> Serves(s, me, j) && s.procs[me].job.value.ran
  {
    if Ran(t, j) { var p :| Serves(t, p, j) && t.procs[p].job.value.ran; assert p != me ==> Serves(s, p, j); }
    if Ran(s, j) { var p :| Serves(s, p, j) && s.procs[p].job.value.ran; assert p != me ==> Serves(t, p, j); }
  }

  lemma HandlerJobs(s: State, c: nat, k: nat)
    requires Core(s) && Jobs(s) && RunsAt(s, c) && s.cpu[c].act.User? && k < s.nk
    requires Me(s, c).job == Some(Job(k, false))
    ensures Jobs(DoHandler(s, c, k))
  {
    var t := DoHandler(s, c, k);
    var me := Cur(s, c);
    assert Serves(s, me, k) && Serves(t, me, k);
    assert forall p, j :: Serves(t, p, j) <==> Serves(s, p, j);
    assert Ran(t, k);
    assert !Ran(s, k);
    forall j | 0 <= j < t.nk ensures SourceInv(t, j) {
      assert SourceInv(s, j);
      OthersRan(s, t, me, j);
    }
    forall d | 0 <= d < t.ncpus && t.cpu[d].cur.Some? && Exiting(t.cpu[d].act)
      ensures t.procs[t.cpu[d].cur.value].job == None
    {
      assert CpuInv(s, d) && CpuInv(s, c);
    }
  }

  lemma DeactivateJobs(s: State, c: nat, k: nat)
    requires Core(s) && Jobs(s) && RunsAt(s, c) && s.cpu[c].act.User? && k < s.nk
    requires Me(s, c).job == Some(Job(k, true))
    ensures Jobs(DoDeactivate(s, c, k))
  {
    var t := DoDeactivate(s, c, k);
    var me := Cur(s, c);
    assert Serves(s, me, k) && Ran(s, k) && SourceInv(s, k);
    assert forall p, j :: Serves(t, p, j) <==> Serves(s, p, j) && p != me;
    assert forall p :: !Serves(t, p, k);
    forall j | 0 <= j < t.nk ensures SourceInv(t, j) {
      assert SourceInv(s, j);
      OthersRan(s, t, me, j);
      assert j != k ==> forall p :: Serves(t, p, j) <==> Serves(s, p, j);
    }
    forall d | 0 <= d < t.ncpus && t.cpu[d].cur.Some? && Exiting(t.cpu[d].act)
      ensures t.procs[t.cpu[d].cur.value].job == None
    {
      assert CpuInv(s, d) && CpuInv(s, c);
    }
  }
}

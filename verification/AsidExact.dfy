/**
 What asid_switch gives a process, step by step and without reference to how it is computed:
 which context, when without the lock, and what is left behind.
 */
module AsidExact {
  import opened AsidProtocol
  import opened AsidSafety

  /** a is the number a scan finds: the first clear one from the hint on, else the first from 1 on. */
  predicate ScanFinds(bitmap: set<nat>, n: nat, hint: nat, a: nat) {
    && 1 <= a < n && a !in bitmap
    && (forall i :: hint <= i < n && (i < a || a < hint) ==> i in bitmap)
    && (a < hint ==> forall i :: 1 <= i < a ==> i in bitmap)
  }

  predicate NoneClear(bitmap: set<nat>, n: nat) {
    forall i :: 1 <= i < n ==> i in bitmap
  }

  /** Every slot that held was holds now, and no other slot changed. */
  predicate Renews(r: seq<Ctx>, r': seq<Ctx>, was: Ctx, now: Ctx) {
    |r'| == |r| && forall c :: 0 <= c < |r| ==> r'[c] == if r[c] == was then now else r[c]
  }

  /** The process can keep its number: a CPU carried its context over the rollover, or the number is free. */
  predicate CanKeep(s: State, w: Ctx) {
    w != ZERO && (w in s.reserved || w.num !in s.bitmap)
  }

  /** What the step under the lock leaves: a current context stays; a stale one keeps its number if it can;
      otherwise the scan decides, and a rollover starts only when no number is clear. */
  ghost predicate Examined(s: State, t: State, c: nat)
    requires c < |s.pc| && s.pc[c].Locked? && s.pc[c].proc in s.ctxOf
  {
    var p := s.pc[c].proc;
    var w := s.ctxOf[p];
    && t.n == s.n && t.gen == s.gen && t.lock == s.lock && t.active == s.active && t.pending == s.pending && t.tlb == s.tlb
    && (forall q :: q in s.ctxOf && q != p ==> q in t.ctxOf && t.ctxOf[q] == s.ctxOf[q])
    && p in t.ctxOf && c < |t.pc|
    && (w.gen == s.gen ==>
          t.ctxOf[p] == w && t.bitmap == s.bitmap && t.next == s.next && t.reserved == s.reserved && t.pc[c] == Assigned(p, w))
    && (w.gen != s.gen && CanKeep(s, w) ==>
          var x := Ctx(s.gen, w.num);
          && t.ctxOf[p] == x && t.pc[c] == Assigned(p, x) && t.next == s.next && Renews(s.reserved, t.reserved, w, x)
          && t.bitmap == if w in s.reserved then s.bitmap else s.bitmap + {w.num})
    && (w.gen != s.gen && !CanKeep(s, w) && !NoneClear(s.bitmap, s.n) ==>
          exists a :: ScanFinds(s.bitmap, s.n, s.next, a) && t.ctxOf[p] == Ctx(s.gen, a) && t.pc[c] == Assigned(p, Ctx(s.gen, a))
                      && t.bitmap == s.bitmap + {a} && t.next == a + 1 && t.reserved == s.reserved)
    && (w.gen != s.gen && !CanKeep(s, w) && NoneClear(s.bitmap, s.n) ==>
          t.ctxOf[p] == w && t.pc[c] == Rolling(p, 0) && t.bitmap == {0} && t.reserved == s.reserved)
  }

  lemma ExamineExact(run: seq<State>, steps: seq<Step>, i: nat, c: nat)
    requires IsRun(run, steps) && i < |steps| && steps[i] == Examine(c)
    ensures c < |run[i].pc| && run[i].pc[c].Locked? && run[i].pc[c].proc in run[i].ctxOf && Examined(run[i], run[i + 1], c)
  {
    var s, t := run[i], run[i + 1];
    var p := s.pc[c].proc;
    assert Next(s, steps[i], t);
    var w := s.ctxOf[p];
    if w.gen != s.gen && !CanKeep(s, w) {
      var a := FindZero(s.bitmap, s.n, s.next);
      if a < s.n { assert ScanFinds(s.bitmap, s.n, s.next, a); }
    }
  }

  /** One turn of the rollover: the slot is emptied, and what it held, or else the old reservation, is reserved and
      marked. */
  lemma ExchangeExact(run: seq<State>, steps: seq<Step>, i: nat, c: nat)
    requires IsRun(run, steps) && i < |steps| && steps[i] == Exchange(c)
    ensures var s, t := run[i], run[i + 1];
            && c < |s.pc| && s.pc[c].Rolling? && s.pc[c].k < |s.active| == |s.reserved|
            && var k := s.pc[c].k;
               var x := if s.active[k] != ZERO then s.active[k] else s.reserved[k];
               t == s.(active := s.active[k := ZERO], reserved := s.reserved[k := x],
                       bitmap := if x != ZERO then s.bitmap + {x.num} else s.bitmap, pc := s.pc[c := Rolling(s.pc[c].proc, k + 1)])
  {
    assert Next(run[i], steps[i], run[i + 1]);
  }

  /** The end of it: every CPU owes a flush, the generation is the next one, the hint starts over. */
  lemma BumpExact(run: seq<State>, steps: seq<Step>, i: nat, c: nat)
    requires IsRun(run, steps) && i < |steps| && steps[i] == Bump(c)
    ensures var s, t := run[i], run[i + 1];
            && c < |s.pc| && s.pc[c].Rolling? && s.pc[c].k == s.ncpus
            && |t.pending| == s.ncpus && (forall d :: 0 <= d < s.ncpus ==> t.pending[d])
            && t == s.(pending := t.pending, gen := s.gen + 1, next := 1, pc := s.pc[c := Rolled(s.pc[c].proc)])
  {
    assert Next(run[i], steps[i], run[i + 1]);
  }

  /** The number taken after a rollover is the least one that no CPU carried over. */
  lemma AfterRolloverExact(run: seq<State>, steps: seq<Step>, i: nat, c: nat)
    requires IsRun(run, steps) && i < |steps| && steps[i] == TakeAfterRollover(c)
    ensures var s, t := run[i], run[i + 1];
            && c < |s.pc| && s.pc[c].Rolled?
            && var p := s.pc[c].proc;
               exists a :: ScanFinds(s.bitmap, s.n, 1, a) && t == s.(ctxOf := s.ctxOf[p := Ctx(s.gen, a)], bitmap := s.bitmap + {a},
                                                                     next := a + 1, pc := s.pc[c := Assigned(p, Ctx(s.gen, a))])
  {
    var s, t := run[i], run[i + 1];
    assert Next(s, steps[i], t);
    var a := FindZero(s.bitmap, s.n, 1);
    assert ScanFinds(s.bitmap, s.n, 1, a);
  }

  /** Undisturbed, a switch to p takes the lockless path exactly when CPU c's slot is in use and p's context is
      current, and then it touches nothing but that slot. */
  lemma FastPathExact(s0: State, s1: State, s2: State, s3: State, c: nat, p: nat)
    requires Shape(s0) && Next(s0, Begin(c, p), s1) && Shape(s1) && Next(s1, ReadGeneration(c), s2)
    requires Shape(s2) && Next(s2, ReadActiveSlot(c), s3)
    ensures c < |s3.pc| == |s0.active| && p in s0.ctxOf
    ensures s3.pc[c].TryCas? <==> s0.active[c] != ZERO && s0.ctxOf[p].gen == s0.gen
    ensures !s3.pc[c].TryCas? ==> s3 == s0.(pc := s0.pc[c := WantLock(p)])
    ensures s3.pc[c].TryCas? ==> forall s4 :: Shape(s3) && Next(s3, CompareExchange(c), s4) ==>
              s4 == s0.(active := s0.active[c := s0.ctxOf[p]], pc := s0.pc[c := Load(p, s0.ctxOf[p])])
  {
  }

  /** Disturbed, the exchange wins exactly if the slot still holds what was read. */
  lemma ExchangeWins(run: seq<State>, steps: seq<Step>, i: nat, c: nat)
    requires IsRun(run, steps) && i < |steps| && steps[i] == CompareExchange(c)
    ensures var s, t := run[i], run[i + 1];
            && c < |s.pc| == |s.active| && s.pc[c].TryCas?
            && (s.active[c] == s.pc[c].seen ==>
                  t == s.(active := s.active[c := s.pc[c].ctx], pc := s.pc[c := Load(s.pc[c].proc, s.pc[c].ctx)]))
            && (s.active[c] != s.pc[c].seen ==> t == s.(pc := s.pc[c := WantLock(s.pc[c].proc)]))
  {
    assert Next(run[i], steps[i], run[i + 1]);
  }

  /** From the context to the running process on the slow path: the flush this CPU owed is done, and only then, the
      slot holds the context, the lock is free, and TTBR0 has number and tables. */
  lemma SlowPathExact(s0: State, s1: State, s2: State, s3: State, s4: State, c: nat)
    requires Shape(s0) && c < s0.ncpus && s0.pc[c].Assigned?
    requires Next(s0, DrainPending(c), s1) && Shape(s1) && Next(s1, Publish(c), s2) && Shape(s2) && Next(s2, Release(c), s3)
    requires Shape(s3) && Next(s3, LoadTtbr(c), s4)
    ensures var p, x := s0.pc[c].proc, s0.pc[c].ctx;
            s4 == s0.(pending := s0.pending[c := false], tlb := s0.tlb[c := if s0.pending[c] then {} else s0.tlb[c]],
                      active := s0.active[c := x], lock := Free, ttbr := s0.ttbr[c := User(x.num, p)], pc := s0.pc[c := Running(p, x)])
  {
    assert s0.tlb[c := s0.tlb[c]] == s0.tlb;
  }
}

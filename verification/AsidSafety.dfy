/**
 The inductive invariant of the ASID protocol and what it gives over every run.
 */
module AsidSafety {
  import opened AsidProtocol

  /** Some process holds exactly this context. */
  ghost predicate Holds(s: State, x: Ctx) {
    exists p :: p in s.ctxOf && s.ctxOf[p] == x
  }

  /** Contexts are unassigned or well formed, and no two processes share one. */
  ghost predicate CtxInv(s: State) {
    && (forall p :: p in s.ctxOf ==>
          s.ctxOf[p] == ZERO || (1 <= s.ctxOf[p].gen <= s.gen && 1 <= s.ctxOf[p].num < s.n))
    && (forall p, q :: p in s.ctxOf && q in s.ctxOf && p != q && s.ctxOf[p] != ZERO ==>
          s.ctxOf[p] != s.ctxOf[q])
  }

  /** A non-empty active slot is a context of the current generation. */
  ghost predicate ActiveInv(s: State)
    requires Shape(s)
  {
    forall c :: 0 <= c < s.ncpus && s.active[c] != ZERO ==> s.active[c].gen == s.gen && Holds(s, s.active[c])
  }

  predicate Agree(x: Ctx, y: Ctx) {
    x != ZERO && y != ZERO && x.num == y.num ==> x == y
  }

  /** A number carried from an older generation has no owner in the current one, and
      slots that carry the same number carry the same context. */
  ghost predicate ReservedInv(s: State)
    requires Shape(s)
  {
    && (forall c :: 0 <= c < s.ncpus && s.reserved[c] != ZERO ==>
          && 1 <= s.reserved[c].gen <= s.gen && 1 <= s.reserved[c].num < s.n
          && (s.reserved[c].gen < s.gen ==> !Holds(s, Ctx(s.gen, s.reserved[c].num))))
    && (forall c, d :: 0 <= c < s.ncpus && 0 <= d < s.ncpus ==> Agree(s.reserved[c], s.reserved[d]))
  }

  predicate LockPc(pc: Pc) {
    pc.Locked? || pc.Rolling? || pc.Rolled? || pc.Assigned? || pc.Flushed? || pc.Published?
  }

  ghost predicate LockInv(s: State)
    requires Shape(s)
  {
    && (forall c :: 0 <= c < s.ncpus ==> (LockPc(s.pc[c]) <==> s.lock == HeldBy(c)))
    && (forall c, d :: 0 <= c < s.ncpus && 0 <= d < s.ncpus && c != d && s.pc[c] != Idle ==>
          !InProgress(s.pc[d], s.pc[c].proc))
  }

  ghost predicate NoRolling(s: State)
    requires Shape(s)
  {
    forall c :: 0 <= c < s.ncpus ==> !s.pc[c].Rolling?
  }

  /** Every number owned in this generation or carried into it has its bit set. */
  ghost predicate BitmapInv(s: State)
    requires Shape(s)
  {
    NoRolling(s) ==>
      && (forall p :: p in s.ctxOf && s.ctxOf[p].gen == s.gen ==> s.ctxOf[p].num in s.bitmap)
      && (forall c :: 0 <= c < s.ncpus && s.reserved[c] != ZERO ==> s.reserved[c].num in s.bitmap)
  }

  /** The bits the first k CPUs carry over, and the reserved number 0. */
  function Carried(reserved: seq<Ctx>, k: nat): (r: set<nat>)
    requires k <= |reserved|
    ensures |r| <= k + 1
    ensures forall c :: 0 <= c < k && reserved[c] != ZERO ==> reserved[c].num in r
  {
    if k == 0 then {0} else WithBit(Carried(reserved, k - 1), reserved[k - 1])
  }

  /** Cached translations tagged `a` on CPU c all belong to p and postdate its last flush. */
  ghost predicate Clean(s: State, c: nat, a: nat, p: nat)
    requires c < |s.tlb|
  {
    p in s.epoch && forall e :: e in s.tlb[c] && e.num == a ==> e.proc == p && e.epoch == s.epoch[p]
  }

  /** A CPU that owes no flush caches only current contexts; one that does has an empty slot. */
  ghost predicate TlbInv(s: State)
    requires Shape(s)
  {
    && (forall c :: 0 <= c < s.ncpus && s.pending[c] ==> s.active[c] == ZERO)
    && (forall c, e :: 0 <= c < s.ncpus && !s.pending[c] && e in s.tlb[c] ==>
          e.proc in s.ctxOf && s.ctxOf[e.proc] == Ctx(s.gen, e.num) && e.epoch == s.epoch[e.proc])
  }

  /** The context CPU c runs under is protected: live in its active slot, or carried. */
  ghost predicate Guarded(s: State, c: nat, x: Ctx)
    requires Shape(s) && c < s.ncpus
  {
    && x != ZERO
    && ((s.active[c] == x && x.gen == s.gen) || (s.active[c] == ZERO && s.reserved[c] == x))
    && (x.gen < s.gen ==> s.pending[c])
  }

  /** What a CPU's position in asid_switch says about the shared state. */
  ghost predicate PcInv(s: State, c: nat)
    requires Shape(s) && c < s.ncpus
  {
    && (s.ttbr[c] == match s.pc[c] case Running(p, x) => User(x.num, p) case _ => Reserved)
    && match s.pc[c]
       case Idle => true
       case ReadGen(p, x) => x == s.ctxOf[p]
       case ReadActive(p, x, g) => x == s.ctxOf[p] && 1 <= g <= s.gen && (g < s.gen ==> s.active[c] == ZERO)
       case TryCas(p, x, seen) =>
         x == s.ctxOf[p] && seen != ZERO && 1 <= x.gen && (x.gen < s.gen ==> s.active[c] == ZERO)
       case WantLock(p) => true
       case Locked(p) => true
       case Rolling(p, k) =>
         && k <= s.ncpus && s.bitmap == Carried(s.reserved, k) && s.ctxOf[p].gen < s.gen
         && (forall d :: 0 <= d < k ==> s.active[d] == ZERO)
       case Rolled(p) =>
         && s.bitmap == Carried(s.reserved, s.ncpus) && s.next == 1
         && s.ctxOf[p].gen < s.gen
       case Assigned(p, x) => x == s.ctxOf[p] && x.gen == s.gen
       case Flushed(p, x) => x == s.ctxOf[p] && x.gen == s.gen && !s.pending[c]
       case Published(p, x) => x == s.ctxOf[p] && x.gen == s.gen && !s.pending[c] && s.active[c] == x
       case Load(p, x) => x == s.ctxOf[p] && Guarded(s, c, x) && Clean(s, c, x.num, p)
       case Running(p, x) => x == s.ctxOf[p] && Guarded(s, c, x) && Clean(s, c, x.num, p)
  }

  ghost predicate PcsInv(s: State)
    requires Shape(s)
  {
    forall c :: 0 <= c < s.ncpus ==> PcInv(s, c)
  }

  /** The part of the invariant that speaks of shared memory only. */
  ghost predicate Shared(s: State) {
    && Shape(s)
    && CtxInv(s)
    && ActiveInv(s)
    && ReservedInv(s)
    && BitmapInv(s)
    && TlbInv(s)
  }

  ghost predicate Inv(s: State) {
    && Shared(s)
    && LockInv(s)
    && PcsInv(s)
  }

  lemma InitInv(s: State)
    requires Init(s)
    ensures Inv(s)
  {
  }

  /* ---- framing ---- */

  /** Nothing that CPU d's position speaks of differs between s and t. */
  ghost predicate SameView(s: State, t: State, d: nat)
    requires Shape(s) && Shape(t) && s.ncpus == t.ncpus && d < s.ncpus
  {
    && t.n == s.n && t.gen == s.gen
    && t.pc[d] == s.pc[d] && t.ttbr[d] == s.ttbr[d]
    && t.active[d] == s.active[d] && t.pending[d] == s.pending[d]
    && (s.pc[d].Load? || s.pc[d].Running? ==> s.active[d] != ZERO || t.reserved[d] == s.reserved[d])
    && t.tlb[d] <= s.tlb[d]
    && (s.pc[d] != Idle ==>
          && t.ctxOf[s.pc[d].proc] == s.ctxOf[s.pc[d].proc]
          && t.epoch[s.pc[d].proc] == s.epoch[s.pc[d].proc])
    && (s.pc[d].Rolling? || s.pc[d].Rolled? ==>
          t.bitmap == s.bitmap && t.reserved == s.reserved && t.next == s.next
          && forall k :: 0 <= k < s.ncpus && s.active[k] == ZERO ==> t.active[k] == ZERO)
  }

  lemma PcFrame(s: State, t: State, d: nat)
    requires Shape(s) && Shape(t) && s.ncpus == t.ncpus && d < s.ncpus
    requires SameView(s, t, d) && PcInv(s, d)
    ensures PcInv(t, d)
  {
  }

  lemma PcsFrame(s: State, t: State, c: nat)
    requires Shape(s) && Shape(t) && s.ncpus == t.ncpus && c < s.ncpus
    requires PcsInv(s)
    requires PcInv(t, c)
    requires forall d :: 0 <= d < s.ncpus && d != c ==> SameView(s, t, d)
    ensures PcsInv(t)
  {
    forall d | 0 <= d < t.ncpus ensures PcInv(t, d) {
      if d != c { assert PcInv(s, d); PcFrame(s, t, d); }
    }
  }

  /** Moving CPU c, in or out of no rollover, leaves the shared facts alone. */
  lemma MoveShared(s: State, c: nat, pc: Pc)
    requires Shared(s) && c < s.ncpus && s.pc[c].Rolling? == pc.Rolling?
    requires pc != Idle ==> pc.proc in s.ctxOf
    ensures Shared(s.(pc := s.pc[c := pc]))
  {
    var t := s.(pc := s.pc[c := pc]);
    assert forall x :: Holds(t, x) <==> Holds(s, x);
    if NoRolling(t) {
      assert forall d :: 0 <= d < s.ncpus && d != c ==> t.pc[d] == s.pc[d];
      assert !t.pc[c].Rolling?;
      assert NoRolling(s);
    }
  }

  /** Moving CPU c keeps the lock facts when the lock word moves with it. */
  lemma MoveLock(s: State, t: State, c: nat, pc: Pc)
    requires Shape(s) && Shape(t) && t.ncpus == s.ncpus && LockInv(s) && c < s.ncpus && t.pc == s.pc[c := pc]
    requires pc != Idle ==> InProgress(s.pc[c], pc.proc) || OnNoCpu(s, pc.proc)
    requires LockPc(pc) <==> t.lock == HeldBy(c)
    requires t.lock == s.lock || (s.lock == Free && t.lock == HeldBy(c)) || (s.lock == HeldBy(c) && t.lock == Free)
    ensures LockInv(t)
  {
  }

  /** A step that only moves CPU c between positions that hold no lock. */
  lemma MoveKeeps(s: State, c: nat, pc: Pc)
    requires Inv(s) && c < s.ncpus && !LockPc(s.pc[c]) && !LockPc(pc)
    requires pc != Idle ==> pc.proc in s.ctxOf && (InProgress(s.pc[c], pc.proc) || OnNoCpu(s, pc.proc))
    requires PcInv(s.(pc := s.pc[c := pc]), c)
    ensures Inv(s.(pc := s.pc[c := pc]))
  {
    var t := s.(pc := s.pc[c := pc]);
    MoveShared(s, c, pc);
    MoveLock(s, t, c, pc);
    PcsFrame(s, t, c);
  }

  lemma BeginKeeps(s: State, c: nat, p: nat)
    requires Inv(s) && c < s.ncpus && s.pc[c].Idle? && p in s.ctxOf && OnNoCpu(s, p)
    ensures Inv(DoBegin(s, c, p))
  {
    assert PcInv(s, c);
    MoveKeeps(s, c, ReadGen(p, s.ctxOf[p]));
  }

  lemma ReadGenerationKeeps(s: State, c: nat)
    requires Inv(s) && c < s.ncpus && s.pc[c].ReadGen?
    ensures Inv(DoReadGeneration(s, c))
  {
    assert PcInv(s, c);
    MoveKeeps(s, c, ReadActive(s.pc[c].proc, s.pc[c].ctx, s.gen));
  }

  lemma ReadActiveSlotKeeps(s: State, c: nat)
    requires Inv(s) && c < s.ncpus && s.pc[c].ReadActive?
    ensures Inv(DoReadActiveSlot(s, c))
  {
    assert PcInv(s, c);
    MoveKeeps(s, c, DoReadActiveSlot(s, c).pc[c]);
  }

  /** A CPU with no flush owed that has p's current context caches only p under it. */
  lemma CleanWhenCurrent(s: State, c: nat, p: nat)
    requires Shape(s) && CtxInv(s) && TlbInv(s)
    requires c < s.ncpus && !s.pending[c] && p in s.ctxOf && s.ctxOf[p].gen == s.gen
    ensures Clean(s, c, s.ctxOf[p].num, p)
  {
    forall e | e in s.tlb[c] && e.num == s.ctxOf[p].num ensures e.proc == p && e.epoch == s.epoch[p] {
      assert s.ctxOf[e.proc] == Ctx(s.gen, e.num);
    }
  }

  /** Publishing p's current context in c's own slot keeps the shared facts. */
  lemma PublishShared(s: State, c: nat, p: nat)
    requires Shared(s) && c < s.ncpus && !s.pending[c] && p in s.ctxOf && s.ctxOf[p].gen == s.gen
    ensures Shared(s.(active := s.active[c := s.ctxOf[p]]))
  {
    var t := s.(active := s.active[c := s.ctxOf[p]]);
    assert forall x :: Holds(t, x) <==> Holds(s, x);
    assert Holds(s, s.ctxOf[p]);
    assert NoRolling(t) <==> NoRolling(s);
  }

  lemma FastPathKeeps(s: State, c: nat)
    requires Inv(s) && c < s.ncpus && s.pc[c].TryCas? && s.active[c] == s.pc[c].seen
    ensures Inv(DoCompareExchange(s, c))
  {
    var me := s.pc[c];
    assert PcInv(s, c);
    PublishShared(s, c, me.proc);
    CleanWhenCurrent(s, c, me.proc);
    var u := s.(active := s.active[c := me.ctx]);
    var t := DoCompareExchange(s, c);
    assert t == u.(pc := u.pc[c := Load(me.proc, me.ctx)]);
    MoveShared(u, c, Load(me.proc, me.ctx));
    MoveLock(s, t, c, Load(me.proc, me.ctx));
    FastPathPcs(s, c);
  }

  lemma FastPathPcs(s: State, c: nat)
    requires Inv(s) && c < s.ncpus && s.pc[c].TryCas? && s.active[c] == s.pc[c].seen
    requires Shape(DoCompareExchange(s, c)) && Clean(s, c, s.pc[c].ctx.num, s.pc[c].proc)
    ensures PcsInv(DoCompareExchange(s, c))
  {
    assert PcInv(s, c);
    PcsFrame(s, DoCompareExchange(s, c), c);
  }

  lemma CompareExchangeKeeps(s: State, c: nat)
    requires Inv(s) && c < s.ncpus && s.pc[c].TryCas?
    ensures Inv(DoCompareExchange(s, c))
  {
    if s.active[c] == s.pc[c].seen {
      FastPathKeeps(s, c);
    } else {
      assert PcInv(s, c);
      MoveKeeps(s, c, WantLock(s.pc[c].proc));
    }
  }

  lemma AcquireKeeps(s: State, c: nat)
    requires Inv(s) && c < s.ncpus && s.pc[c].WantLock? && s.lock.Free?
    ensures Inv(DoAcquire(s, c))
  {
    var t := DoAcquire(s, c);
    var u := s.(lock := HeldBy(c));
    SharedIgnoresLock(s, HeldBy(c));
    MoveShared(u, c, Locked(s.pc[c].proc));
    MoveLock(s, t, c, Locked(s.pc[c].proc));
    assert PcInv(s, c);
    PcsFrame(s, t, c);
  }

  lemma SharedIgnoresLock(s: State, h: Holder)
    requires Shared(s)
    ensures Shared(s.(lock := h))
  {
    var t := s.(lock := h);
    assert forall x :: Holds(t, x) <==> Holds(s, x);
    assert NoRolling(t) <==> NoRolling(s);
  }

  lemma ReleaseKeeps(s: State, c: nat)
    requires Inv(s) && c < s.ncpus && s.pc[c].Published?
    ensures Inv(DoRelease(s, c))
  {
    var t := DoRelease(s, c);
    var me := s.pc[c];
    var u := s.(lock := Free);
    SharedIgnoresLock(s, Free);
    MoveShared(u, c, Load(me.proc, me.ctx));
    MoveLock(s, t, c, Load(me.proc, me.ctx));
    assert PcInv(s, c);
    CleanWhenCurrent(s, c, me.proc);
    PcsFrame(s, t, c);
  }

  lemma PublishKeeps(s: State, c: nat)
    requires Inv(s) && c < s.ncpus && s.pc[c].Flushed?
    ensures Inv(DoPublish(s, c))
  {
    var me := s.pc[c];
    assert PcInv(s, c);
    PublishShared(s, c, me.proc);
    var u := s.(active := s.active[c := me.ctx]);
    MoveShared(u, c, Published(me.proc, me.ctx));
    assert DoPublish(s, c) == u.(pc := u.pc[c := Published(me.proc, me.ctx)]);
    MoveLock(s, DoPublish(s, c), c, Published(me.proc, me.ctx));
    PublishPcs(s, c);
  }

  lemma PublishPcs(s: State, c: nat)
    requires Inv(s) && c < s.ncpus && s.pc[c].Flushed? && Shape(DoPublish(s, c))
    ensures PcsInv(DoPublish(s, c))
  {
    assert PcInv(s, c);
    assert s.lock == HeldBy(c);
    assert forall d :: 0 <= d < s.ncpus && d != c ==> !LockPc(s.pc[d]);
    PcsFrame(s, DoPublish(s, c), c);
  }

  lemma DrainPendingKeeps(s: State, c: nat)
    requires Inv(s) && c < s.ncpus && s.pc[c].Assigned?
    ensures Inv(DoDrainPending(s, c))
  {
    var me := s.pc[c];
    var t := DoDrainPending(s, c);
    DrainShared(s, c);
    MoveShared(s.(pending := t.pending, tlb := t.tlb), c, Flushed(me.proc, me.ctx));
    assert t == s.(pending := t.pending, tlb := t.tlb).(pc := s.pc[c := Flushed(me.proc, me.ctx)]);
    MoveLock(s, t, c, Flushed(me.proc, me.ctx));
    DrainPcs(s, c);
  }

  lemma DrainShared(s: State, c: nat)
    requires Shared(s) && c < s.ncpus && s.pc[c].Assigned?
    ensures var t := DoDrainPending(s, c);
            Shared(s.(pending := t.pending, tlb := t.tlb))
  {
    var t := DoDrainPending(s, c);
    var u := s.(pending := t.pending, tlb := t.tlb);
    assert forall x :: Holds(u, x) <==> Holds(s, x);
    assert NoRolling(u) <==> NoRolling(s);
  }

  lemma DrainPcs(s: State, c: nat)
    requires Shape(s) && PcsInv(s) && c < s.ncpus && s.pc[c].Assigned? && Shape(DoDrainPending(s, c))
    ensures PcsInv(DoDrainPending(s, c))
  {
    assert PcInv(s, c);
    PcsFrame(s, DoDrainPending(s, c), c);
  }

  lemma LoadTtbrKeeps(s: State, c: nat)
    requires Inv(s) && c < s.ncpus && s.pc[c].Load?
    ensures Inv(DoLoadTtbr(s, c))
  {
    var me := s.pc[c];
    TtbrKeepsShared(s, c, User(me.ctx.num, me.proc));
    MoveShared(s.(ttbr := s.ttbr[c := User(me.ctx.num, me.proc)]), c, Running(me.proc, me.ctx));
    MoveLock(s, DoLoadTtbr(s, c), c, Running(me.proc, me.ctx));
    LoadTtbrPcs(s, c);
  }

  lemma LoadTtbrPcs(s: State, c: nat)
    requires Shape(s) && PcsInv(s) && c < s.ncpus && s.pc[c].Load? && Shape(DoLoadTtbr(s, c))
    ensures PcsInv(DoLoadTtbr(s, c))
  {
    assert PcInv(s, c);
    PcsFrame(s, DoLoadTtbr(s, c), c);
  }

  lemma TtbrKeepsShared(s: State, c: nat, r: Ttbr)
    requires Shared(s) && c < s.ncpus
    ensures Shared(s.(ttbr := s.ttbr[c := r]))
  {
    var t := s.(ttbr := s.ttbr[c := r]);
    assert forall x :: Holds(t, x) <==> Holds(s, x);
    assert NoRolling(t) <==> NoRolling(s);
  }

  lemma SwitchOutKeeps(s: State, c: nat)
    requires Inv(s) && c < s.ncpus && s.pc[c].Running?
    ensures Inv(DoSwitchOut(s, c))
  {
    TtbrKeepsShared(s, c, Reserved);
    MoveShared(s.(ttbr := s.ttbr[c := Reserved]), c, Idle);
    MoveLock(s, DoSwitchOut(s, c), c, Idle);
    SwitchOutPcs(s, c);
  }

  lemma SwitchOutPcs(s: State, c: nat)
    requires Shape(s) && PcsInv(s) && c < s.ncpus && s.pc[c].Running? && Shape(DoSwitchOut(s, c))
    ensures PcsInv(DoSwitchOut(s, c))
  {
    PcsFrame(s, DoSwitchOut(s, c), c);
  }

  lemma FillKeeps(s: State, c: nat)
    requires Inv(s) && c < s.ncpus && s.ttbr[c].User? && s.ttbr[c].proc in s.epoch
    ensures Inv(DoFill(s, c))
  {
    var t := DoFill(s, c);
    assert PcInv(s, c);
    assert s.pc[c].Running?;
    assert Shared(t) by {
      assert forall x :: Holds(t, x) <==> Holds(s, x);
      assert NoRolling(t) <==> NoRolling(s);
      FillTlb(s, c);
    }
    PcsFrame(s, t, c);
  }

  lemma FillTlb(s: State, c: nat)
    requires Inv(s) && c < s.ncpus && s.pc[c].Running? && PcInv(s, c)
    requires s.ttbr[c].User? && s.ttbr[c].proc in s.epoch && Shape(DoFill(s, c))
    ensures TlbInv(DoFill(s, c))
  {
  }

  lemma AsidFlushKeeps(s: State, c: nat)
    requires Inv(s) && c < s.ncpus && s.pc[c].Running?
    ensures Inv(DoAsidFlush(s, c))
  {
    var t := DoAsidFlush(s, c);
    var p := s.pc[c].proc;
    assert PcInv(s, c);
    assert Shared(t) by {
      assert forall x :: Holds(t, x) <==> Holds(s, x);
      assert NoRolling(t) <==> NoRolling(s);
    }
    assert LockInv(t);
    forall d | 0 <= d < s.ncpus && d != c ensures SameView(s, t, d) {
      assert !InProgress(s.pc[d], p);
      assert t.tlb[d] == DropNum(s.tlb[d], s.ctxOf[p].num);
    }
    PcsFrame(s, t, c);
  }

  lemma CreateKeeps(s: State, p: nat)
    requires Inv(s) && p !in s.ctxOf
    ensures Inv(DoCreate(s, p))
  {
    var t := DoCreate(s, p);
    CreateShared(s, p);
    assert LockInv(t);
    forall d | 0 <= d < s.ncpus ensures PcInv(t, d) {
      assert PcInv(s, d);
      PcFrame(s, t, d);
    }
  }

  lemma CreateShared(s: State, p: nat)
    requires Shared(s) && p !in s.ctxOf
    ensures Shared(DoCreate(s, p))
  {
    hide TlbInv, CtxInv;
    var t := DoCreate(s, p);
    forall x | x != ZERO ensures Holds(t, x) <==> Holds(s, x) { SameHolders(s, t, x, p); }
    assert NoRolling(t) <==> NoRolling(s);
    CreateTlb(s, p);
    CreateCtx(s, p);
  }

  lemma CreateTlb(s: State, p: nat)
    requires Shape(s) && TlbInv(s) && p !in s.ctxOf
    ensures TlbInv(DoCreate(s, p))
  {
  }

  lemma CreateCtx(s: State, p: nat)
    requires Shape(s) && CtxInv(s) && p !in s.ctxOf
    ensures CtxInv(DoCreate(s, p))
  {
  }

  /** Changing only p's context changes who holds x only if p gained or lost x. */
  lemma SameHolders(s: State, t: State, x: Ctx, p: nat)
    requires t.ctxOf.Keys == s.ctxOf.Keys + {p}
    requires forall q :: q in s.ctxOf && q != p ==> t.ctxOf[q] == s.ctxOf[q]
    requires t.ctxOf[p] != x && (p in s.ctxOf ==> s.ctxOf[p] != x)
    ensures Holds(t, x) <==> Holds(s, x)
  {
    if Holds(s, x) {
      var q :| q in s.ctxOf && s.ctxOf[q] == x;
      assert q in t.ctxOf && t.ctxOf[q] == x;
    }
  }

  /* ---- assigning a number ---- */

  /** Giving p a number whose bit was clear. */
  lemma TakeShared(s: State, p: nat, a: nat, next: nat)
    requires Shared(s) && NoRolling(s) && p in s.ctxOf && s.ctxOf[p].gen < s.gen
    requires 1 <= a < s.n && a !in s.bitmap && 1 <= next <= s.n
    ensures Shared(s.(bitmap := s.bitmap + {a}, next := next, ctxOf := s.ctxOf[p := Ctx(s.gen, a)]))
  {
    hide TlbInv;
    var x := Ctx(s.gen, a);
    var t := s.(bitmap := s.bitmap + {a}, next := next, ctxOf := s.ctxOf[p := x]);
    assert !Holds(s, x);
    forall y: Ctx | y.gen == s.gen && y != x ensures Holds(t, y) <==> Holds(s, y) { SameHolders(s, t, y, p); }
    assert NoRolling(t);
    TakeCtx(s, p, a, next);
    TakeTlb(s, p, a, next);
  }

  lemma TakeCtx(s: State, p: nat, a: nat, next: nat)
    requires CtxInv(s) && p in s.ctxOf && 1 <= a < s.n && 1 <= s.gen && !Holds(s, Ctx(s.gen, a))
    ensures CtxInv(s.(bitmap := s.bitmap + {a}, next := next, ctxOf := s.ctxOf[p := Ctx(s.gen, a)]))
  {
  }

  lemma TakeTlb(s: State, p: nat, a: nat, next: nat)
    requires Shape(s) && TlbInv(s) && p in s.ctxOf && s.ctxOf[p].gen < s.gen && a !in s.bitmap && 1 <= next <= s.n && a < s.n
    requires BitmapInv(s) && NoRolling(s)
    ensures TlbInv(s.(bitmap := s.bitmap + {a}, next := next, ctxOf := s.ctxOf[p := Ctx(s.gen, a)]))
  {
  }

  /** Keeping the number that some CPU carried across the rollover. */
  lemma KeepShared(s: State, p: nat)
    requires Shared(s) && NoRolling(s) && p in s.ctxOf && s.ctxOf[p].gen < s.gen
    requires s.ctxOf[p] != ZERO && s.ctxOf[p] in s.reserved
    ensures var x := Ctx(s.gen, s.ctxOf[p].num);
            Shared(s.(reserved := Rebind(s.reserved, s.ctxOf[p], x), ctxOf := s.ctxOf[p := x]))
  {
    var was := s.ctxOf[p];
    var x := Ctx(s.gen, was.num);
    var t := s.(reserved := Rebind(s.reserved, was, x), ctxOf := s.ctxOf[p := x]);
    var c :| 0 <= c < s.ncpus && s.reserved[c] == was;
    RenewedHolders(s, t, p, x);
    KeepReserved(s, t, p, c);
    KeepBitmap(s, t, p, c);
  }

  /** Giving p an unheld current context x changes no other current holder. */
  lemma RenewedHolders(s: State, t: State, p: nat, x: Ctx)
    requires p in s.ctxOf && s.ctxOf[p].gen < s.gen && x.gen == s.gen && t.ctxOf == s.ctxOf[p := x]
    ensures forall y: Ctx :: y.gen == s.gen && y != x ==> (Holds(t, y) <==> Holds(s, y))
  {
    forall y: Ctx | y.gen == s.gen && y != x ensures Holds(t, y) <==> Holds(s, y) { SameHolders(s, t, y, p); }
  }

  lemma KeepBitmap(s: State, t: State, p: nat, c: nat)
    requires Shape(s) && BitmapInv(s) && NoRolling(s) && p in s.ctxOf && s.ctxOf[p] != ZERO && Shape(t)
    requires c < s.ncpus && s.reserved[c] == s.ctxOf[p]
    requires var x := Ctx(s.gen, s.ctxOf[p].num);
             t == s.(reserved := Rebind(s.reserved, s.ctxOf[p], x), ctxOf := s.ctxOf[p := x])
    ensures BitmapInv(t)
  {
  }

  lemma KeepReserved(s: State, t: State, p: nat, c: nat)
    requires Shared(s) && p in s.ctxOf && s.ctxOf[p].gen < s.gen && s.ctxOf[p] != ZERO
    requires c < s.ncpus && s.reserved[c] == s.ctxOf[p] && Shape(t)
    requires var x := Ctx(s.gen, s.ctxOf[p].num);
             t == s.(reserved := Rebind(s.reserved, s.ctxOf[p], x), ctxOf := s.ctxOf[p := x])
    requires forall y: Ctx :: y.gen == s.gen && y != Ctx(s.gen, s.ctxOf[p].num) ==> (Holds(t, y) <==> Holds(s, y))
    ensures ReservedInv(t)
  {
    forall d | 0 <= d < s.ncpus && s.reserved[d] != ZERO && s.reserved[d].num == s.ctxOf[p].num
      ensures s.reserved[d] == s.ctxOf[p]
    {
      assert Agree(s.reserved[c], s.reserved[d]);
    }
    forall d, e | 0 <= d < s.ncpus && 0 <= e < s.ncpus ensures Agree(t.reserved[d], t.reserved[e]) {
      assert Agree(s.reserved[d], s.reserved[e]);
    }
  }

  /** The facts a NewContext result is known to satisfy. */
  ghost predicate Granted(s: State, p: nat, o: Outcome)
    requires Shape(s) && p in s.ctxOf
  {
    && o.Got? && o.ctx.gen == s.gen
    && Shape(s.(bitmap := o.bitmap, next := o.next, reserved := o.reserved, ctxOf := s.ctxOf[p := o.ctx]))
    && Shared(s.(bitmap := o.bitmap, next := o.next, reserved := o.reserved, ctxOf := s.ctxOf[p := o.ctx]))
    && (forall d :: 0 <= d < s.ncpus && s.reserved[d] != s.ctxOf[p] ==> o.reserved[d] == s.reserved[d])
    && (s.ctxOf[p] == ZERO ==> o.reserved == s.reserved)
  }

  lemma TakeFreeGrants(s: State, p: nat, start: nat)
    requires Shared(s) && NoRolling(s) && p in s.ctxOf && s.ctxOf[p].gen < s.gen && 1 <= start <= s.n
    ensures var o := TakeFree(s.n, s.gen, s.bitmap, start, s.reserved);
            o.Rollover? || Granted(s, p, o)
  {
    var a := FindZero(s.bitmap, s.n, start);
    if a < s.n {
      TakeShared(s, p, a, a + 1);
      assert s.reserved == s.(bitmap := s.bitmap + {a}).reserved;
    }
  }

  lemma NewContextGrants(s: State, p: nat)
    requires Shared(s) && NoRolling(s) && p in s.ctxOf && s.ctxOf[p].gen < s.gen
    ensures var o := NewContext(s.n, s.gen, s.bitmap, s.next, s.reserved, s.ctxOf[p]);
            o.Rollover? || Granted(s, p, o)
  {
    var was := s.ctxOf[p];
    if was != ZERO && was in s.reserved {
      KeepShared(s, p);
    } else if was != ZERO && was.num !in s.bitmap {
      TakeShared(s, p, was.num, s.next);
    } else {
      TakeFreeGrants(s, p, s.next);
    }
  }

  /** Recording a granted context for the lock holder's process keeps the invariant. */
  lemma TakeKeeps(s: State, c: nat, p: nat, o: Outcome)
    requires Inv(s) && c < s.ncpus && LockPc(s.pc[c]) && !s.pc[c].Rolling? && s.pc[c].proc == p
    requires Granted(s, p, o)
    ensures Inv(DoTake(s, c, p, o))
  {
    hide CtxInv, ActiveInv, ReservedInv, BitmapInv, TlbInv;
    var u := s.(bitmap := o.bitmap, next := o.next, reserved := o.reserved, ctxOf := s.ctxOf[p := o.ctx]);
    var t := DoTake(s, c, p, o);
    assert t == u.(pc := u.pc[c := Assigned(p, o.ctx)]);
    MoveShared(u, c, Assigned(p, o.ctx));
    MoveLock(s, t, c, Assigned(p, o.ctx));
    forall d | 0 <= d < s.ncpus && d != c ensures SameView(s, t, d) {
      assert PcInv(s, d);
      assert !InProgress(s.pc[d], p);
      assert !LockPc(s.pc[d]);
      if s.pc[d].Load? || s.pc[d].Running? { GuardedElsewhere(s, d, p, o); }
    }
    assert PcInv(s, c);
    PcsFrame(s, t, c);
  }

  /** A CPU running another process does not lose its reservation to p. */
  lemma GuardedElsewhere(s: State, d: nat, p: nat, o: Outcome)
    requires Shared(s) && d < s.ncpus && p in s.ctxOf && PcInv(s, d) && Granted(s, p, o)
    requires (s.pc[d].Load? || s.pc[d].Running?) && s.pc[d].proc != p
    ensures s.active[d] != ZERO || o.reserved[d] == s.reserved[d]
  {
    if s.reserved[d] == s.ctxOf[p] && s.ctxOf[p] != ZERO {
      assert s.pc[d].ctx == s.ctxOf[s.pc[d].proc];
    }
  }

  lemma HolderNotRolling(s: State, c: nat)
    requires Shape(s) && LockInv(s) && c < s.ncpus && LockPc(s.pc[c]) && !s.pc[c].Rolling?
    ensures NoRolling(s)
  {
    assert forall d :: 0 <= d < s.ncpus && d != c ==> !LockPc(s.pc[d]);
  }

  lemma ExamineKeeps(s: State, c: nat)
    requires Inv(s) && c < s.ncpus && s.pc[c].Locked?
    ensures Inv(DoExamine(s, c))
  {
    var p := s.pc[c].proc;
    var x := s.ctxOf[p];
    HolderNotRolling(s, c);
    if x.gen == s.gen {
      MoveShared(s, c, Assigned(p, x));
      MoveLock(s, DoExamine(s, c), c, Assigned(p, x));
      assert PcInv(s, c);
      PcsFrame(s, DoExamine(s, c), c);
    } else {
      var o := NewContext(s.n, s.gen, s.bitmap, s.next, s.reserved, x);
      NewContextGrants(s, p);
      if o.Got? {
        TakeKeeps(s, c, p, o);
      } else {
        StartRollover(s, c);
      }
    }
  }

  lemma StartRollover(s: State, c: nat)
    requires Inv(s) && c < s.ncpus && s.pc[c].Locked? && s.ctxOf[s.pc[c].proc].gen < s.gen
    ensures Inv(s.(bitmap := {0}, pc := s.pc[c := Rolling(s.pc[c].proc, 0)]))
  {
    var t := s.(bitmap := {0}, pc := s.pc[c := Rolling(s.pc[c].proc, 0)]);
    assert Shared(t) by {
      assert forall x :: Holds(t, x) <==> Holds(s, x);
      assert t.pc[c].Rolling?;
    }
    MoveLock(s, t, c, t.pc[c]);
    assert PcInv(s, c);
    assert forall d :: 0 <= d < s.ncpus && d != c ==> !LockPc(s.pc[d]);
    PcsFrame(s, t, c);
  }

  /* ---- the rollover ---- */

  lemma {:induction false} CarriedPrefix(r: seq<Ctx>, r': seq<Ctx>, k: nat)
    requires k <= |r| == |r'| && forall c :: 0 <= c < k ==> r[c] == r'[c]
    ensures Carried(r, k) == Carried(r', k)
  {
    if k > 0 { CarriedPrefix(r, r', k - 1); }
  }

  /** Renewing a carried context in the current generation frees no number and takes none: what the
      reservations mark is the same, the stale context is reserved nowhere, and the renewed one is
      exactly if the stale one was. */
  lemma {:induction false} RebindCarries(r: seq<Ctx>, was: Ctx, now: Ctx, k: nat)
    requires k <= |r| && was != ZERO && now != ZERO && now.num == was.num && now != was && now !in r
    ensures Carried(Rebind(r, was, now), k) == Carried(r, k)
    ensures was !in Rebind(r, was, now)
    ensures now in Rebind(r, was, now) <==> was in r
  {
    var r' := Rebind(r, was, now);
    if k > 0 { RebindCarries(r, was, now, k - 1); }
    if was in r {
      var c :| 0 <= c < |r| && r[c] == was;
      assert r'[c] == now;
    }
  }

  lemma ExchangeShared(s: State, c: nat)
    requires Shared(s) && c < s.ncpus && s.pc[c].Rolling? && s.pc[c].k < s.ncpus
    ensures Shared(DoExchange(s, c))
  {
    var t := DoExchange(s, c);
    var k := s.pc[c].k;
    assert forall x :: Holds(t, x) <==> Holds(s, x);
    assert t.pc[c].Rolling?;
    if s.active[k] != ZERO {
      assert Holds(s, s.active[k]);
      forall d | 0 <= d < s.ncpus ensures Agree(s.active[k], s.reserved[d]) {
      }
    }
    forall d, e | 0 <= d < s.ncpus && 0 <= e < s.ncpus ensures Agree(t.reserved[d], t.reserved[e]) {
      assert Agree(s.reserved[d], s.reserved[e]);
    }
  }

  lemma ExchangeKeeps(s: State, c: nat)
    requires Inv(s) && c < s.ncpus && s.pc[c].Rolling? && s.pc[c].k < s.ncpus
    ensures Inv(DoExchange(s, c))
  {
    var t := DoExchange(s, c);
    var k := s.pc[c].k;
    ExchangeShared(s, c);
    MoveLock(s, t, c, t.pc[c]);
    forall d | 0 <= d < s.ncpus ensures PcInv(t, d) {
      assert PcInv(s, d);
      if d == c {
        CarriedPrefix(s.reserved, t.reserved, k);
      } else {
        assert !LockPc(s.pc[d]);
        ExchangePc(s, c, d);
      }
    }
  }

  lemma ExchangePc(s: State, c: nat, d: nat)
    requires Shape(s) && c < s.ncpus && s.pc[c].Rolling? && s.pc[c].k < s.ncpus && Shape(DoExchange(s, c))
    requires d < s.ncpus && d != c && PcInv(s, d) && !LockPc(s.pc[d])
    ensures PcInv(DoExchange(s, c), d)
  {
  }

  lemma BumpShared(s: State, c: nat)
    requires Shared(s) && c < s.ncpus && s.pc[c].Rolling? && s.pc[c].k == s.ncpus && PcInv(s, c)
    requires forall d :: 0 <= d < s.ncpus && d != c ==> !LockPc(s.pc[d])
    ensures Shared(DoBump(s, c))
  {
    var t := DoBump(s, c);
    assert forall x :: Holds(t, x) <==> Holds(s, x);
    assert forall p :: p in s.ctxOf ==> s.ctxOf[p].gen != t.gen;
  }

  lemma BumpKeeps(s: State, c: nat)
    requires Inv(s) && c < s.ncpus && s.pc[c].Rolling? && s.pc[c].k == s.ncpus
    ensures Inv(DoBump(s, c))
  {
    var t := DoBump(s, c);
    assert PcInv(s, c);
    assert forall d :: 0 <= d < s.ncpus && d != c ==> !LockPc(s.pc[d]);
    BumpShared(s, c);
    MoveLock(s, t, c, t.pc[c]);
    forall d | 0 <= d < s.ncpus ensures PcInv(t, d) {
      assert PcInv(s, d);
      assert s.active[d] == ZERO;
      if d != c { BumpPc(s, c, d); }
    }
  }

  lemma BumpPc(s: State, c: nat, d: nat)
    requires Shape(s) && c < s.ncpus && s.pc[c].Rolling? && Shape(DoBump(s, c))
    requires d < s.ncpus && d != c && PcInv(s, d) && !LockPc(s.pc[d]) && s.active[d] == ZERO
    ensures PcInv(DoBump(s, c), d)
  {
  }

  lemma TakeAfterRolloverKeeps(s: State, c: nat)
    requires Inv(s) && c < s.ncpus && s.pc[c].Rolled? && AfterRollover(s).Got?
    ensures Inv(DoTake(s, c, s.pc[c].proc, AfterRollover(s)))
  {
    assert PcInv(s, c);
    HolderNotRolling(s, c);
    TakeFreeGrants(s, s.pc[c].proc, 1);
    TakeKeeps(s, c, s.pc[c].proc, AfterRollover(s));
  }

  /* ---- main theorems ---- */

  /** Every atomic step of every CPU keeps the invariant. */
  lemma StepKeeps(s: State, l: Step, s': State)
    requires Inv(s) && Next(s, l, s')
    ensures Inv(s')
  {
    match l
    case Create(p) => CreateKeeps(s, p);
    case Begin(c, p) => BeginKeeps(s, c, p);
    case ReadGeneration(c) => ReadGenerationKeeps(s, c);
    case ReadActiveSlot(c) => ReadActiveSlotKeeps(s, c);
    case CompareExchange(c) => CompareExchangeKeeps(s, c);
    case Acquire(c) => AcquireKeeps(s, c);
    case Examine(c) => ExamineKeeps(s, c);
    case Exchange(c) => ExchangeKeeps(s, c);
    case Bump(c) => BumpKeeps(s, c);
    case TakeAfterRollover(c) => TakeAfterRolloverKeeps(s, c);
    case DrainPending(c) => DrainPendingKeeps(s, c);
    case Publish(c) => PublishKeeps(s, c);
    case Release(c) => ReleaseKeeps(s, c);
    case LoadTtbr(c) => LoadTtbrKeeps(s, c);
    case Fill(c) => FillKeeps(s, c);
    case AsidFlush(c) => AsidFlushKeeps(s, c);
    case SwitchOut(c) => SwitchOutKeeps(s, c);
  }

  /** A run: a boot state and any interleaving of steps. */
  ghost predicate IsRun(run: seq<State>, steps: seq<Step>) {
    && |run| == |steps| + 1
    && Init(run[0])
    && forall i :: 0 <= i < |steps| ==> Shape(run[i]) && Next(run[i], steps[i], run[i + 1])
  }

  lemma {:induction false} RunInv(run: seq<State>, steps: seq<Step>, i: nat)
    requires IsRun(run, steps) && i < |run|
    ensures Inv(run[i])
  {
    if i == 0 {
      InitInv(run[0]);
    } else {
      RunInv(run, steps, i - 1);
      StepKeeps(run[i - 1], steps[i - 1], run[i]);
    }
  }

  /** No two processes hold the same generation and number. */
  ghost predicate DistinctContexts(s: State) {
    forall p, q :: p in s.ctxOf && q in s.ctxOf && p != q && s.ctxOf[p] != ZERO ==> s.ctxOf[p] != s.ctxOf[q]
  }

  /** No two CPUs have user address spaces installed under one number. */
  ghost predicate DistinctNumbers(s: State) {
    forall c, d :: 0 <= c < |s.ttbr| && 0 <= d < |s.ttbr| && c != d && s.ttbr[c].User? && s.ttbr[d].User? ==>
      s.ttbr[c].num != s.ttbr[d].num && s.ttbr[c].proc != s.ttbr[d].proc
  }

  /** Whatever a CPU can translate with under its current number was walked from its
      current process's tables, after that process's latest asid_flush. */
  ghost predicate Isolated(s: State) {
    forall c :: 0 <= c < |s.ttbr| && c < |s.tlb| && s.ttbr[c].User? ==>
      forall e :: e in s.tlb[c] && e.num == s.ttbr[c].num ==>
        e.proc == s.ttbr[c].proc && e.proc in s.epoch && e.epoch == s.epoch[e.proc]
  }

  lemma InvDistinctNumbers(s: State)
    requires Inv(s)
    ensures DistinctNumbers(s)
  {
    forall c, d | 0 <= c < s.ncpus && 0 <= d < s.ncpus && c != d && s.ttbr[c].User? && s.ttbr[d].User?
      ensures s.ttbr[c].num != s.ttbr[d].num && s.ttbr[c].proc != s.ttbr[d].proc
    {
      assert PcInv(s, c) && PcInv(s, d);
      assert s.pc[c].Running? && s.pc[d].Running?;
      assert !InProgress(s.pc[d], s.pc[c].proc);
      assert Agree(s.reserved[c], s.reserved[d]);
      GuardedApart(s, c, d);
    }
  }

  lemma GuardedApart(s: State, c: nat, d: nat)
    requires Shared(s) && c < s.ncpus && d < s.ncpus && s.pc[c].Running? && s.pc[d].Running?
    requires PcInv(s, c) && PcInv(s, d) && s.pc[c].proc != s.pc[d].proc && Agree(s.reserved[c], s.reserved[d])
    ensures s.pc[c].ctx.num != s.pc[d].ctx.num
  {
    var x, y := s.pc[c].ctx, s.pc[d].ctx;
    assert Holds(s, x) && Holds(s, y);
    assert x == Ctx(x.gen, x.num) && y == Ctx(y.gen, y.num);
  }

  /** Uniqueness and TLB isolation in every state of every interleaving. */
  lemma AsidSafe(run: seq<State>, steps: seq<Step>, i: nat)
    requires IsRun(run, steps) && i < |run|
    ensures DistinctContexts(run[i])
    ensures DistinctNumbers(run[i])
    ensures Isolated(run[i])
  {
    RunInv(run, steps, i);
    var s := run[i];
    InvDistinctNumbers(s);
    forall c | 0 <= c < |s.ttbr| && s.ttbr[c].User?
      ensures forall e :: e in s.tlb[c] && e.num == s.ttbr[c].num ==>
                e.proc == s.ttbr[c].proc && e.proc in s.epoch && e.epoch == s.epoch[e.proc]
    {
      assert PcInv(s, c);
    }
  }

  lemma {:induction false} FullNeedsN(b: set<nat>, n: nat)
    requires forall i :: 0 <= i < n ==> i in b
    ensures |b| >= n
  {
    if n > 0 {
      FullNeedsN(b - {n - 1}, n - 1);
    }
  }

  /** A rollover always leaves a free number: `pool exhausted after rollover` is dead. */
  lemma NeverExhausted(run: seq<State>, steps: seq<Step>, i: nat, c: nat)
    requires IsRun(run, steps) && i < |run| && c < run[i].ncpus
    requires |run[i].pc| == run[i].ncpus && run[i].pc[c].Rolled? && 1 <= run[i].n
    ensures AfterRollover(run[i]).Got?
  {
    RunInv(run, steps, i);
    var s := run[i];
    assert PcInv(s, c);
    if FindZero(s.bitmap, s.n, 1) == s.n {
      FullNeedsN(s.bitmap, s.n);
    }
  }
}

/**
 The rolling-generation ASID allocator as a concurrent step system.

 Every CPU may be anywhere inside `asid_switch`: each atomic read, the compare-exchange
 of the per-CPU active slot, each exchange of the rollover loop, each section that only
 the holder of `asid_lock` can observe, and the TTBR0 write are separate steps.  The TLB
 of each CPU is ghost state: entries are tagged with the ASID, with the process whose
 tables were walked, and with that process's flush epoch.

 A packed context `generation | number` is kept as the pair its two masks select.
 */
module AsidProtocol {

  datatype Ctx = Ctx(gen: nat, num: nat)

  const ZERO := Ctx(0, 0)

  datatype Holder = Free | HeldBy(cpu: nat)

  datatype Ttbr = Reserved | User(num: nat, proc: nat)

  /** One cached translation: its ASID tag, whose table it came from, and how many
      times that process had flushed its ASID when it was cached. */
  datatype Entry = Entry(num: nat, proc: nat, epoch: nat)

  /** Where a CPU stands in `asid_switch(proc)`; the payload is its local variables. */
  datatype Pc =
    | Idle                                        // no user address space
    | ReadGen(proc: nat, ctx: Ctx)                // has read p->asid_ctx
    | ReadActive(proc: nat, ctx: Ctx, gen: nat)   // has also read asid_generation
    | TryCas(proc: nat, ctx: Ctx, seen: Ctx)      // guard passed, about to cmpxchg
    | WantLock(proc: nat)                         // fell to the slow path
    | Locked(proc: nat)                           // holds asid_lock
    | Rolling(proc: nat, k: nat)                  // in flush_context, slot k is next
    | Rolled(proc: nat)                           // generation bumped, no number yet
    | Assigned(proc: nat, ctx: Ctx)               // p->asid_ctx is current
    | Flushed(proc: nat, ctx: Ctx)                // owes no local TLB flush
    | Published(proc: nat, ctx: Ctx)              // active slot written, lock still held
    | Load(proc: nat, ctx: Ctx)                   // lock dropped or fast path won
    | Running(proc: nat, ctx: Ctx)                // TTBR0 written

  datatype State = State(
    n: nat,                    // asid_num_total
    ncpus: nat,
    gen: nat,                  // asid_generation, in units of n
    bitmap: set<nat>,          // set bits of asid_bitmap
    next: nat,                 // asid_next
    lock: Holder,              // asid_lock
    active: seq<Ctx>,          // cpus[c].asid_active
    reserved: seq<Ctx>,        // cpus[c].asid_reserved
    pending: seq<bool>,        // tlb_pending
    ctxOf: map<nat, Ctx>,      // p->asid_ctx of every process ever created
    pc: seq<Pc>,
    ttbr: seq<Ttbr>,
    epoch: map<nat, nat>,      // ghost: completed asid_flush calls per process
    tlb: seq<set<Entry>>)      // ghost: cached user translations per CPU

  /* ---- the computations made under asid_lock ---- */

  /** First number in [lo, hi) whose bit is clear, or hi. */
  function FirstFree(bitmap: set<nat>, lo: nat, hi: nat): (r: nat)
    requires lo <= hi
    ensures lo <= r <= hi
    ensures forall i :: lo <= i < r ==> i in bitmap
    ensures r < hi ==> r !in bitmap
    decreases hi - lo
  {
    if lo == hi || lo !in bitmap then lo else FirstFree(bitmap, lo + 1, hi)
  }

  /** `bitmap_find_zero`: search [start, n), then [1, start); n when every bit is set. */
  function FindZero(bitmap: set<nat>, n: nat, start: nat): (r: nat)
    requires 1 <= start <= n
    ensures 1 <= r <= n
    ensures r < n ==> r !in bitmap
    ensures r == n ==> forall i :: 1 <= i < n ==> i in bitmap
    ensures forall i :: start <= i < n && (i < r || r < start) ==> i in bitmap
    ensures r < start ==> forall i :: 1 <= i < r ==> i in bitmap
  {
    var i := FirstFree(bitmap, start, n);
    if i < n then i
    else
      var b := FirstFree(bitmap, 1, start);
      if b < start then b else n
  }

  /** `check_update_reserved_asid`: every slot holding `was` takes `now`. */
  function Rebind(reserved: seq<Ctx>, was: Ctx, now: Ctx): (r: seq<Ctx>)
    ensures |r| == |reserved|
    ensures forall c :: 0 <= c < |r| ==> r[c] == if reserved[c] == was then now else reserved[c]
  {
    seq(|reserved|, c requires 0 <= c < |reserved| => if reserved[c] == was then now else reserved[c])
  }

  datatype Outcome =
    | Got(ctx: Ctx, bitmap: set<nat>, next: nat, reserved: seq<Ctx>)
    | Rollover

  /** `new_context` up to the point where it needs a new generation. */
  function NewContext(n: nat, gen: nat, bitmap: set<nat>, next: nat, reserved: seq<Ctx>, was: Ctx): Outcome
    requires 1 <= next <= n
  {
    var kept := Ctx(gen, was.num);
    if was != ZERO && was in reserved then
      Got(kept, bitmap, next, Rebind(reserved, was, kept))
    else if was != ZERO && was.num !in bitmap then
      Got(kept, bitmap + {was.num}, next, reserved)
    else
      TakeFree(n, gen, bitmap, next, reserved)
  }

  /** The tail of `new_context`: the next clear bit, or a rollover. */
  function TakeFree(n: nat, gen: nat, bitmap: set<nat>, next: nat, reserved: seq<Ctx>): Outcome
    requires 1 <= next <= n
  {
    var a := FindZero(bitmap, n, next);
    if a == n then Rollover
    else Got(Ctx(gen, a), bitmap + {a}, a + 1, reserved)
  }

  /** What `flush_context` carries over for one CPU. */
  function Carry(active: Ctx, reserved: Ctx): Ctx {
    if active == ZERO then reserved else active
  }

  function WithBit(bitmap: set<nat>, x: Ctx): set<nat> {
    if x == ZERO then bitmap else bitmap + {x.num}
  }

  /* ---- atomic steps ---- */

  datatype Step =
    | Create(p: nat)
    | Begin(c: nat, p: nat)
    | ReadGeneration(c: nat)
    | ReadActiveSlot(c: nat)
    | CompareExchange(c: nat)
    | Acquire(c: nat)
    | Examine(c: nat)
    | Exchange(c: nat)
    | Bump(c: nat)
    | TakeAfterRollover(c: nat)
    | DrainPending(c: nat)
    | Publish(c: nat)
    | Release(c: nat)
    | LoadTtbr(c: nat)
    | Fill(c: nat)
    | AsidFlush(c: nat)
    | SwitchOut(c: nat)

  /** allocproc: a new process starts with asid_ctx == 0. */
  function DoCreate(s: State, p: nat): State {
    s.(ctxOf := s.ctxOf[p := ZERO], epoch := s.epoch[p := 0])
  }

  predicate InProgress(pc: Pc, p: nat) {
    pc != Idle && pc.proc == p
  }

  ghost predicate OnNoCpu(s: State, p: nat) {
    forall c :: 0 <= c < |s.pc| ==> !InProgress(s.pc[c], p)
  }

  function DoBegin(s: State, c: nat, p: nat): State
    requires c < |s.pc| && p in s.ctxOf
  {
    s.(pc := s.pc[c := ReadGen(p, s.ctxOf[p])])
  }

  function DoReadGeneration(s: State, c: nat): State
    requires c < |s.pc| && s.pc[c].ReadGen?
  {
    s.(pc := s.pc[c := ReadActive(s.pc[c].proc, s.pc[c].ctx, s.gen)])
  }

  /** Reads the slot and evaluates the guard of the fast path. */
  function DoReadActiveSlot(s: State, c: nat): State
    requires c < |s.pc| == |s.active| && s.pc[c].ReadActive?
  {
    var me := s.pc[c];
    if s.active[c] != ZERO && me.ctx.gen == me.gen then
      s.(pc := s.pc[c := TryCas(me.proc, me.ctx, s.active[c])])
    else
      s.(pc := s.pc[c := WantLock(me.proc)])
  }

  function DoCompareExchange(s: State, c: nat): State
    requires c < |s.pc| == |s.active| && s.pc[c].TryCas?
  {
    var me := s.pc[c];
    if s.active[c] == me.seen then
      s.(active := s.active[c := me.ctx], pc := s.pc[c := Load(me.proc, me.ctx)])
    else
      s.(pc := s.pc[c := WantLock(me.proc)])
  }

  function DoAcquire(s: State, c: nat): State
    requires c < |s.pc| && s.pc[c].WantLock?
  {
    s.(lock := HeldBy(c), pc := s.pc[c := Locked(s.pc[c].proc)])
  }

  function DoTake(s: State, c: nat, p: nat, o: Outcome): State
    requires c < |s.pc| && o.Got?
  {
    s.(bitmap := o.bitmap, next := o.next, reserved := o.reserved,
       ctxOf := s.ctxOf[p := o.ctx], pc := s.pc[c := Assigned(p, o.ctx)])
  }

  /** The re-check under the lock and, if stale, new_context. */
  function DoExamine(s: State, c: nat): State
    requires c < |s.pc| && s.pc[c].Locked? && s.pc[c].proc in s.ctxOf && 1 <= s.next <= s.n
  {
    var p := s.pc[c].proc;
    if s.ctxOf[p].gen == s.gen then
      s.(pc := s.pc[c := Assigned(p, s.ctxOf[p])])
    else
      match NewContext(s.n, s.gen, s.bitmap, s.next, s.reserved, s.ctxOf[p])
      case Got(x, b, nx, r) => DoTake(s, c, p, Got(x, b, nx, r))
      case Rollover => s.(bitmap := {0}, pc := s.pc[c := Rolling(p, 0)])
  }

  function DoExchange(s: State, c: nat): State
    requires c < |s.pc| && s.pc[c].Rolling? && s.pc[c].k < |s.active| == |s.reserved|
  {
    var k := s.pc[c].k;
    var x := Carry(s.active[k], s.reserved[k]);
    s.(active := s.active[k := ZERO], reserved := s.reserved[k := x],
       bitmap := WithBit(s.bitmap, x), pc := s.pc[c := Rolling(s.pc[c].proc, k + 1)])
  }

  function DoBump(s: State, c: nat): State
    requires c < |s.pc| && s.pc[c].Rolling?
  {
    s.(pending := seq(s.ncpus, _ => true), gen := s.gen + 1, next := 1,
       pc := s.pc[c := Rolled(s.pc[c].proc)])
  }

  function AfterRollover(s: State): Outcome
    requires 1 <= s.n
  {
    TakeFree(s.n, s.gen, s.bitmap, 1, s.reserved)
  }

  function DoDrainPending(s: State, c: nat): State
    requires c < |s.pc| == |s.tlb| == |s.pending| && s.pc[c].Assigned?
  {
    s.(pending := s.pending[c := false],
       tlb := if s.pending[c] then s.tlb[c := {}] else s.tlb,
       pc := s.pc[c := Flushed(s.pc[c].proc, s.pc[c].ctx)])
  }

  function DoPublish(s: State, c: nat): State
    requires c < |s.pc| == |s.active| && s.pc[c].Flushed?
  {
    s.(active := s.active[c := s.pc[c].ctx], pc := s.pc[c := Published(s.pc[c].proc, s.pc[c].ctx)])
  }

  function DoRelease(s: State, c: nat): State
    requires c < |s.pc| && s.pc[c].Published?
  {
    s.(lock := Free, pc := s.pc[c := Load(s.pc[c].proc, s.pc[c].ctx)])
  }

  function DoLoadTtbr(s: State, c: nat): State
    requires c < |s.pc| == |s.ttbr| && s.pc[c].Load?
  {
    var me := s.pc[c];
    s.(ttbr := s.ttbr[c := User(me.ctx.num, me.proc)], pc := s.pc[c := Running(me.proc, me.ctx)])
  }

  /** A table walk through TTBR0 caches a translation, whenever the hardware likes. */
  function DoFill(s: State, c: nat): State
    requires c < |s.ttbr| == |s.tlb| && s.ttbr[c].User? && s.ttbr[c].proc in s.epoch
  {
    var t := s.ttbr[c];
    s.(tlb := s.tlb[c := s.tlb[c] + {Entry(t.num, t.proc, s.epoch[t.proc])}])
  }

  function DropNum(t: set<Entry>, a: nat): set<Entry> {
    set e | e in t && e.num != a
  }

  /** asid_flush by the running process: inner-shareable invalidate of its number. */
  function DoAsidFlush(s: State, c: nat): State
    requires c < |s.pc| && s.pc[c].Running? && s.pc[c].proc in s.epoch && s.pc[c].proc in s.ctxOf
  {
    var p := s.pc[c].proc;
    s.(tlb := seq(|s.tlb|, d requires 0 <= d < |s.tlb| => DropNum(s.tlb[d], s.ctxOf[p].num)),
       epoch := s.epoch[p := s.epoch[p] + 1])
  }

  /** Back in the scheduler: TTBR0 is parked on the empty table. */
  function DoSwitchOut(s: State, c: nat): State
    requires c < |s.pc| == |s.ttbr|
  {
    s.(ttbr := s.ttbr[c := Reserved], pc := s.pc[c := Idle])
  }

  predicate Shape(s: State) {
    && 1 <= s.gen
    && s.ncpus + 1 < s.n
    && 1 <= s.next <= s.n
    && |s.active| == |s.reserved| == |s.pending| == |s.pc| == |s.ttbr| == |s.tlb| == s.ncpus
    && s.epoch.Keys == s.ctxOf.Keys
    && 0 in s.bitmap
    && (forall a :: a in s.bitmap ==> a < s.n)
    && (forall c :: 0 <= c < s.ncpus && s.pc[c] != Idle ==> s.pc[c].proc in s.ctxOf)
  }

  /** One atomic step of the whole machine, by any CPU. */
  ghost predicate Next(s: State, l: Step, s': State)
    requires Shape(s)
  {
    match l
    case Create(p) => p !in s.ctxOf && s' == DoCreate(s, p)
    case Begin(c, p) => c < s.ncpus && s.pc[c].Idle? && p in s.ctxOf && OnNoCpu(s, p) && s' == DoBegin(s, c, p)
    case ReadGeneration(c) => c < s.ncpus && s.pc[c].ReadGen? && s' == DoReadGeneration(s, c)
    case ReadActiveSlot(c) => c < s.ncpus && s.pc[c].ReadActive? && s' == DoReadActiveSlot(s, c)
    case CompareExchange(c) => c < s.ncpus && s.pc[c].TryCas? && s' == DoCompareExchange(s, c)
    case Acquire(c) => c < s.ncpus && s.pc[c].WantLock? && s.lock.Free? && s' == DoAcquire(s, c)
    case Examine(c) => c < s.ncpus && s.pc[c].Locked? && s' == DoExamine(s, c)
    case Exchange(c) => c < s.ncpus && s.pc[c].Rolling? && s.pc[c].k < s.ncpus && s' == DoExchange(s, c)
    case Bump(c) => c < s.ncpus && s.pc[c].Rolling? && s.pc[c].k == s.ncpus && s' == DoBump(s, c)
    case TakeAfterRollover(c) =>
      c < s.ncpus && s.pc[c].Rolled? && AfterRollover(s).Got? && s' == DoTake(s, c, s.pc[c].proc, AfterRollover(s))
    case DrainPending(c) => c < s.ncpus && s.pc[c].Assigned? && s' == DoDrainPending(s, c)
    case Publish(c) => c < s.ncpus && s.pc[c].Flushed? && s' == DoPublish(s, c)
    case Release(c) => c < s.ncpus && s.pc[c].Published? && s' == DoRelease(s, c)
    case LoadTtbr(c) => c < s.ncpus && s.pc[c].Load? && s' == DoLoadTtbr(s, c)
    case Fill(c) => c < s.ncpus && s.ttbr[c].User? && s.ttbr[c].proc in s.epoch && s' == DoFill(s, c)
    case AsidFlush(c) => c < s.ncpus && s.pc[c].Running? && s' == DoAsidFlush(s, c)
    case SwitchOut(c) => c < s.ncpus && s.pc[c].Running? && s' == DoSwitchOut(s, c)
  }

  /** `asid_init`, with every CPU idle on the reserved table and empty TLBs. */
  ghost predicate Init(s: State) {
    && s.ncpus + 1 < s.n
    && s.gen == 1 && s.next == 1 && s.bitmap == {0} && s.lock == Free
    && s.ctxOf == map[] && s.epoch == map[]
    && |s.active| == |s.reserved| == |s.pending| == |s.pc| == |s.ttbr| == |s.tlb| == s.ncpus
    && (forall c :: 0 <= c < s.ncpus ==> s.active[c] == ZERO && s.reserved[c] == ZERO && !s.pending[c])
    && (forall c :: 0 <= c < s.ncpus ==> s.pc[c] == Idle && s.ttbr[c] == Reserved && s.tlb[c] == {})
  }
}

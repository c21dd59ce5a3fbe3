/**
 console_drain against concurrent writers: every record number is either rendered once, in
 order and with its exact text, or counted once in a dropped report.

 Each call into the message log is one step (it runs under kmsg_lock); the reader holds
 cons_out_lock for its whole loop, so there is one reader at a time.
 */
module Console {
  import opened Wrappers
  import opened MessageLog
  import opened Kmsg

  datatype Event =
    | Rendered(r: Record)
    | Dropped(from: nat, count: nat)

  /** Where console_drain stands. */
  datatype Reader =
    | Idle
    | Draining(end: nat)       // at the loop head
    | Missed(end: nat)         // kmsg_read failed, kmsg_first_seq comes next

  datatype State = State(
    c: Limits,
    log: Log,
    consSeq: nat,
    reader: Reader,
    out: seq<Event>,           // what reached the port
    hist: seq<Record>)         // ghost: every record ever added, by number

  datatype Step =
    | WriterAdd(level: nat, text: seq<char>, caller: nat, ts: nat)
    | WriterFinalize
    | Start(end: nat)
    | TryRead
    | FirstAfterMiss

  /** The history after the log changed from one queue to the next: same or one more record. */
  function Recorded(hist: seq<Record>, log: Log): seq<Record> {
    if log.q == [] then hist
    else if |hist| < log.next then (if hist == [] then [] else hist[..|hist| - 1] + [hist[|hist| - 1].(final := true)]) + [Last(log.q)]
    else if hist == [] then hist
    else hist[..|hist| - 1] + [Last(log.q)]
  }

  function DoWrite(s: State, log: Log): State {
    s.(log := log, hist := Recorded(s.hist, log))
  }

  function DoTryRead(s: State): State
    requires s.reader.Draining? && Numbered(s.log)
  {
    if s.consSeq >= s.reader.end then s.(reader := Idle)
    else
      match Read(s.log, s.consSeq)
      case Some(r) => s.(out := s.out + [Rendered(r)], consSeq := s.consSeq + 1)
      case None => s.(reader := Missed(s.reader.end))
  }

  function DoFirst(s: State): State
    requires s.reader.Missed?
  {
    var first := FirstSeq(s.log);
    if s.consSeq < first then
      s.(out := s.out + [Dropped(s.consSeq, first - s.consSeq)], consSeq := first, reader := Draining(s.reader.end))
    else s.(reader := Idle)
  }

  ghost predicate Next(s: State, l: Step, s': State) {
    match l
    case WriterAdd(level, text, caller, ts) => s' == DoWrite(s, Add(s.c, s.log, level, text, caller, ts).log)
    case WriterFinalize => s' == DoWrite(s, Log(Finalize(s.log.q), s.log.next))
    case Start(end) => s.reader.Idle? && s' == s.(reader := Draining(end))
    case TryRead => s.reader.Draining? && Numbered(s.log) && s' == DoTryRead(s)
    case FirstAfterMiss => s.reader.Missed? && s' == DoFirst(s)
  }

  ghost predicate Init(s: State) {
    ValidLimits(s.c) && s.log == Log([], 0) && s.consSeq == 0 && s.reader == Idle && s.out == [] && s.hist == []
  }

  /** The events account for the numbers below n, each once and in order. */
  ghost predicate Accounts(out: seq<Event>, n: nat)
    decreases |out|
  {
    if out == [] then n == 0
    else
      var init, e := out[..|out| - 1], out[|out| - 1];
      match e
      case Rendered(r) => n == r.seqno + 1 && Accounts(init, r.seqno)
      case Dropped(from, count) => count >= 1 && n == from + count && Accounts(init, from)
  }

  /** The log holds the end of the history, and all of it but the newest record is closed. */
  ghost predicate HistInv(s: State) {
    && |s.hist| == s.log.next && |s.log.q| <= |s.hist|
    && (forall i :: 0 <= i < |s.log.q| ==> s.log.q[i] == s.hist[|s.hist| - |s.log.q| + i])
    && (forall n :: 0 <= n < |s.hist| ==> s.hist[n].seqno == n)
    && (forall n :: 0 <= n < |s.hist| - 1 ==> s.hist[n].final)
    && (s.log.next > 0 ==> s.log.q != [])
  }

  /** What was rendered is the closed record of that number; what was reported is gone. */
  ghost predicate OutInv(s: State) {
    && s.consSeq <= s.log.next
    && Accounts(s.out, s.consSeq)
    && (forall k :: 0 <= k < |s.out| ==>
          match s.out[k]
          case Rendered(r) => r.final && r.seqno < |s.hist| && s.hist[r.seqno] == r
          case Dropped(from, count) => from + count <= FirstSeq(s.log))
  }

  ghost predicate Inv(s: State) {
    ValidLimits(s.c) && Sound(s.c, s.log) && HistInv(s) && OutInv(s)
  }

  /** A write changes no closed record of the history and moves the first number forward. */
  lemma WriteKeeps(s: State, log: Log, h: seq<Record>)
    requires Inv(s) && Sound(s.c, log) && log.next >= s.log.next && FirstSeq(log) >= FirstSeq(s.log)
    requires HistInv(s.(log := log, hist := h))
    requires forall n :: 0 <= n < |s.hist| && s.hist[n].final ==> n < |h| && h[n] == s.hist[n]
    ensures Inv(s.(log := log, hist := h))
  {
  }

  lemma FinalizeKeeps(s: State)
    requires Inv(s)
    ensures Inv(DoWrite(s, Log(Finalize(s.log.q), s.log.next)))
  {
    hide Sound, HistInv, OutInv, Texts;
    var log := Log(Finalize(s.log.q), s.log.next);
    FinalizeSound(s.c, s.log);
    FinalizeHist(s);
    WriteKeeps(s, log, Recorded(s.hist, log));
  }

  lemma FinalizeHist(s: State)
    requires HistInv(s)
    ensures var log := Log(Finalize(s.log.q), s.log.next);
            var h := Recorded(s.hist, log);
            && HistInv(s.(log := log, hist := h)) && FirstSeq(log) >= FirstSeq(s.log)
            && forall n :: 0 <= n < |s.hist| && s.hist[n].final ==> n < |h| && h[n] == s.hist[n]
  {
    if s.log.q != [] {
      assert s.log.q[|s.log.q| - 1] == s.hist[|s.hist| - 1];
    }
  }

  lemma AppendKeeps(s: State, text: seq<char>, caller: nat)
    requires Inv(s) && CanAppend(s.c, s.log.q, caller, text)
    ensures Inv(DoWrite(s, Log(Append(s.log.q, text), s.log.next)))
  {
    var log := Log(Append(s.log.q, text), s.log.next);
    AppendSound(s.c, s.log, caller, text);
    WriteKeeps(s, log, Recorded(s.hist, log));
  }

  /** Adding a record to the history of a closed log. */
  lemma PushKeeps(s: State, r: Record)
    requires Inv(s) && r.seqno == s.log.next && 1 <= |r.text| <= s.c.recordMax
    ensures Inv(DoWrite(s, Log(MakeRoom(s.c, Finalize(s.log.q), |r.text|) + [r], s.log.next + 1)))
  {
    hide Sound, HistInv, OutInv, Texts, MakeRoom, Recorded, Finalize, FirstSeq;
    var f := Finalize(s.log.q);
    var kept := MakeRoom(s.c, f, |r.text|);
    var log := Log(kept + [r], s.log.next + 1);
    ClosedTail(s);
    FinalizeSound(s.c, s.log);
    PushSound(s.c, Log(f, s.log.next), r);
    MakeRoomSuffix(s.c, f, |r.text|);
    PushHist(s, f, kept, r);
    WriteKeeps(s, log, Recorded(s.hist, log));
  }

  lemma PushHist(s: State, f: seq<Record>, kept: seq<Record>, r: Record)
    requires Inv(s) && f == Finalize(s.log.q) && |kept| <= |f| == |s.log.q| && kept == f[|f| - |kept|..]
    requires r.seqno == s.log.next
    ensures var log := Log(kept + [r], s.log.next + 1);
            var h := Recorded(s.hist, log);
            && HistInv(s.(log := log, hist := h)) && FirstSeq(log) >= FirstSeq(s.log)
            && forall n :: 0 <= n < |s.hist| && s.hist[n].final ==> n < |h| && h[n] == s.hist[n]
  {
    hide Sound, OutInv;
    var log := Log(kept + [r], s.log.next + 1);
    var h := Recorded(s.hist, log);
    assert Last(log.q) == r;
    assert h == Closed(s.hist) + [r];
    ClosedTail(s);
    forall i | 0 <= i < |log.q| ensures log.q[i] == h[|h| - |log.q| + i] {
      if i < |kept| {
        assert kept[i] == f[|f| - |kept| + i] == Closed(s.hist)[|s.hist| - |kept| + i];
      }
    }
    PushFirst(s, kept, r);
  }

  /** The history with its newest record closed. */
  function Closed(h: seq<Record>): (r: seq<Record>)
    ensures |r| == |h|
  {
    if h == [] then [] else h[..|h| - 1] + [h[|h| - 1].(final := true)]
  }

  lemma ClosedTail(s: State)
    requires HistInv(s)
    ensures |Finalize(s.log.q)| == |s.log.q|
    ensures forall i :: 0 <= i < |s.log.q| ==> Finalize(s.log.q)[i] == Closed(s.hist)[|s.hist| - |s.log.q| + i]
    ensures forall n :: 0 <= n < |s.hist| ==> Closed(s.hist)[n].final && Closed(s.hist)[n].seqno == n
    ensures forall n :: 0 <= n < |s.hist| && s.hist[n].final ==> Closed(s.hist)[n] == s.hist[n]
  {
  }

  lemma PushFirst(s: State, kept: seq<Record>, r: Record)
    requires Sound(s.c, s.log) && |kept| <= |s.log.q| && r.seqno == s.log.next
    requires forall i :: 0 <= i < |kept| ==> kept[i].seqno == s.log.q[|s.log.q| - |kept| + i].seqno
    ensures FirstSeq(Log(kept + [r], s.log.next + 1)) >= FirstSeq(s.log)
  {
    if kept != [] { assert (kept + [r])[0] == kept[0]; }
  }

  lemma AddKeeps(s: State, level: nat, text: seq<char>, caller: nat, ts: nat)
    requires Inv(s)
    ensures Inv(DoWrite(s, Add(s.c, s.log, level, text, caller, ts).log))
  {
    hide Sound, HistInv, OutInv, Texts, MakeRoom, Finalize, Append, DoWrite;
    var t := Clip(s.c, text);
    if t == [] {
      NothingKeeps(s);
    } else if level == KERN_CONT && CanAppend(s.c, s.log.q, caller, t) {
      AppendKeeps(s, t, caller);
    } else {
      PushKeeps(s, Record(s.log.next, ts, caller, if level == KERN_CONT then KERN_INFO else level, t, EndsLine(t)));
    }
  }

  lemma NothingKeeps(s: State)
    requires Inv(s)
    ensures Inv(DoWrite(s, s.log))
  {
    if s.log.q != [] {
      assert s.hist[..|s.hist| - 1] + [Last(s.log.q)] == s.hist;
    }
  }

  lemma ReadHist(s: State)
    requires Numbered(s.log) && HistInv(s) && Read(s.log, s.consSeq).Some?
    ensures var r := Read(s.log, s.consSeq).value;
            s.consSeq < |s.hist| && s.hist[s.consSeq] == r && r.final && r.seqno == s.consSeq
  {
    var i := s.consSeq - s.log.q[0].seqno;
    assert s.log.q[i] == s.hist[|s.hist| - |s.log.q| + i];
  }

  lemma ReadKeeps(s: State)
    requires Inv(s) && s.reader.Draining?
    ensures Inv(DoTryRead(s))
  {
    var t := DoTryRead(s);
    if s.consSeq < s.reader.end && Read(s.log, s.consSeq).Some? {
      ReadHist(s);
      RenderKeeps(s, Read(s.log, s.consSeq).value);
    }
  }

  lemma RenderKeeps(s: State, r: Record)
    requires Inv(s) && s.consSeq < |s.hist| && s.hist[s.consSeq] == r && r.final && r.seqno == s.consSeq
    ensures Inv(s.(out := s.out + [Rendered(r)], consSeq := s.consSeq + 1))
  {
    hide Sound;
    var t := s.(out := s.out + [Rendered(r)], consSeq := s.consSeq + 1);
    assert t.out[..|t.out| - 1] == s.out;
  }

  lemma FirstKeeps(s: State)
    requires Inv(s) && s.reader.Missed?
    ensures Inv(DoFirst(s))
  {
    var t := DoFirst(s);
    if s.consSeq < FirstSeq(s.log) {
      assert t.out[..|t.out| - 1] == s.out;
    }
  }

  lemma StepKeeps(s: State, l: Step, s': State)
    requires Inv(s) && Next(s, l, s')
    ensures Inv(s')
  {
    match l
    case WriterAdd(level, text, caller, ts) => AddKeeps(s, level, text, caller, ts);
    case WriterFinalize => FinalizeKeeps(s);
    case Start(_) =>
    case TryRead => ReadKeeps(s);
    case FirstAfterMiss => FirstKeeps(s);
  }

  ghost predicate IsRun(run: seq<State>, steps: seq<Step>) {
    && |run| == |steps| + 1
    && Init(run[0])
    && forall i :: 0 <= i < |steps| ==> Next(run[i], steps[i], run[i + 1])
  }

  lemma {:induction false} RunInv(run: seq<State>, steps: seq<Step>, i: nat)
    requires IsRun(run, steps) && i < |run|
    ensures Inv(run[i])
  {
    if i > 0 {
      RunInv(run, steps, i - 1);
      StepKeeps(run[i - 1], steps[i - 1], run[i]);
    }
  }

  /** Event k deals with record number n. */
  predicate Covers(e: Event, n: nat) {
    match e
    case Rendered(r) => r.seqno == n
    case Dropped(from, count) => from <= n < from + count
  }

  lemma {:induction false} AccountsOnce(out: seq<Event>, m: nat, n: nat)
    requires Accounts(out, m)
    ensures n < m ==> exists k :: 0 <= k < |out| && Covers(out[k], n)
    ensures n >= m ==> forall k :: 0 <= k < |out| ==> !Covers(out[k], n)
    ensures forall j, k :: 0 <= j < |out| && 0 <= k < |out| && Covers(out[j], n) && Covers(out[k], n) ==> j == k
    decreases |out|
  {
    if out != [] {
      var init, e := out[..|out| - 1], out[|out| - 1];
      var before := if e.Rendered? then e.r.seqno else e.from;
      AccountsOnce(init, before, n);
      if n < m {
        if n < before {
          var k :| 0 <= k < |init| && Covers(init[k], n);
          assert Covers(out[k], n);
        } else {
          assert Covers(out[|out| - 1], n);
        }
      }
      forall j | 0 <= j < |out| && Covers(out[j], n) ensures j == |out| - 1 || (j < |init| && Covers(init[j], n)) {}
    }
  }

  /** Every number below cons_seq is dealt with by exactly one event, and a rendered record
      has the final text that was written under its number. */
  lemma ConsoleAccounts(run: seq<State>, steps: seq<Step>, i: nat, n: nat)
    requires IsRun(run, steps) && i < |run| && n < run[i].consSeq
    ensures var s := run[i];
            && (exists k :: 0 <= k < |s.out| && Covers(s.out[k], n))
            && (forall j, k :: 0 <= j < |s.out| && 0 <= k < |s.out| && Covers(s.out[j], n) && Covers(s.out[k], n) ==> j == k)
            && n < |s.hist|
            && (forall k :: 0 <= k < |s.out| && s.out[k].Rendered? && s.out[k].r.seqno == n ==>
                  s.hist[n].final && s.out[k].r == s.hist[n])
            && (forall k :: 0 <= k < |s.out| && s.out[k].Dropped? && Covers(s.out[k], n) ==> n < FirstSeq(s.log))
  {
    RunInv(run, steps, i);
    AccountsOnce(run[i].out, run[i].consSeq, n);
  }

  /** The reader gives up only at its limit, or at a number that is neither dropped nor closed yet; what is closed below
      the limit it renders, and what is dropped it reports up to the oldest record held. */
  lemma ReaderExact(run: seq<State>, steps: seq<Step>, i: nat)
    requires IsRun(run, steps) && i < |steps|
    ensures var s, t := run[i], run[i + 1];
            && (steps[i].TryRead? ==>
                  && s.reader.Draining? && Numbered(s.log)
                  && (t.reader == Idle <==> s.consSeq >= s.reader.end)
                  && (s.consSeq < s.reader.end && Read(s.log, s.consSeq).Some? ==>
                        t.out == s.out + [Rendered(Read(s.log, s.consSeq).value)] && t.consSeq == s.consSeq + 1 && t.reader == s.reader))
            && (steps[i].FirstAfterMiss? ==>
                  && (t.reader == Idle <==> FirstSeq(s.log) <= s.consSeq)
                  && (s.consSeq < FirstSeq(s.log) ==>
                        t.out == s.out + [Dropped(s.consSeq, FirstSeq(s.log) - s.consSeq)] && t.consSeq == FirstSeq(s.log)))
  {
    assert Next(run[i], steps[i], run[i + 1]);
  }

  /** The limit of the drain in progress. */
  predicate Limited(reader: Reader, end: nat) {
    reader == Idle || reader == Draining(end) || reader == Missed(end)
  }

  lemma StepBound(s: State, l: Step, t: State, end: nat)
    requires Inv(s) && Next(s, l, t) && Limited(s.reader, end) && !l.Start?
    ensures Limited(t.reader, end) && s.out <= t.out && |t.out| <= |s.out| + 1
    ensures |t.out| > |s.out| && t.out[|s.out|].Rendered? ==> t.out[|s.out|].r.seqno < end
  {
    hide Sound, HistInv, OutInv, Add, Finalize, Recorded;
    if l.TryRead? { ReadNumber(s); }
  }

  lemma ReadNumber(s: State)
    requires Inv(s)
    ensures Numbered(s.log) && (Read(s.log, s.consSeq).Some? ==> Read(s.log, s.consSeq).value.seqno == s.consSeq)
  {
    ReadExact(s.c, s.log, s.consSeq);
  }

  /** Until the next drain begins, nothing is rendered at or above the limit of this one, whatever writers add. */
  lemma {:induction false} DrainBound(run: seq<State>, steps: seq<Step>, i: nat, j: nat, end: nat)
    requires IsRun(run, steps) && i < j < |run| && steps[i] == Start(end) && forall k :: i < k < j ==> !steps[k].Start?
    ensures Limited(run[j].reader, end) && |run[i].out| <= |run[j].out|
    ensures forall k :: |run[i].out| <= k < |run[j].out| && run[j].out[k].Rendered? ==> run[j].out[k].r.seqno < end
  {
    hide Inv, DoTryRead, DoFirst, DoWrite;
    assert Next(run[j - 1], steps[j - 1], run[j]);
    if i < j - 1 {
      DrainBound(run, steps, i, j - 1, end);
      RunInv(run, steps, j - 1);
      StepBound(run[j - 1], steps[j - 1], run[j], end);
    }
  }

  /** The reader by itself, between two writes: cons_seq and what has gone out. */
  class Port {
    var consSeq: nat
    var out: seq<Event>

    /** console_drain: it stops at end or at a record that is still open or not yet written, and every
        number it passes is rendered from the ring or reported as dropped. */
    method Drain(r: Ring, end: nat)
      requires r.Valid() && Accounts(out, consSeq)
      modifies this
      ensures r.Valid() && Accounts(out, consSeq) && old(consSeq) <= consSeq && old(out) <= out
      ensures Numbered(r.log) && (consSeq >= end || (FirstSeq(r.log) <= consSeq && Read(r.log, consSeq).None?))
      ensures forall k :: |old(out)| <= k < |out| ==> Genuine(r.log, out[k]) && (out[k].Rendered? ==> out[k].r.seqno < end)
    {
      hide Accounts, Fits, DescsHold, BytesHold, Texts, Genuine;
      while consSeq < end
        invariant r.Valid() && Accounts(out, consSeq) && old(consSeq) <= consSeq && old(out) <= out
        invariant forall k :: |old(out)| <= k < |out| ==> Genuine(r.log, out[k]) && (out[k].Rendered? ==> out[k].r.seqno < end)
        decreases end - consSeq
      {
        var d := r.KmsgRead(consSeq);
        if d.None? {
          var first := r.KmsgFirstSeq();
          if consSeq < first {
            AccountsNext(out, consSeq, Dropped(consSeq, first - consSeq));
            GenuineNow(r.log, Dropped(consSeq, first - consSeq));
            out := out + [Dropped(consSeq, first - consSeq)];
            consSeq := first;
            continue;
          }
          break;
        }
        ReadExact(r.c, r.log, consSeq);
        AccountsNext(out, consSeq, Rendered(d.value));
        GenuineNow(r.log, Rendered(d.value));
        out := out + [Rendered(d.value)];
        consSeq := consSeq + 1;
      }
    }
  }

  lemma AccountsNext(out: seq<Event>, n: nat, e: Event)
    requires Accounts(out, n)
    ensures e.Rendered? && e.r.seqno == n ==> Accounts(out + [e], n + 1)
    ensures e.Dropped? && e.from == n && e.count >= 1 ==> Accounts(out + [e], n + e.count)
  {
    assert (out + [e])[..|out|] == out;
  }

  lemma GenuineNow(log: Log, e: Event)
    requires if e.Rendered? then e.r in log.q && e.r.final else e.from + e.count == FirstSeq(log)
    ensures Genuine(log, e)
  {
  }

  /** A record of the log that is closed, or a gap that ends at the oldest record held. */
  predicate Genuine(log: Log, e: Event) {
    match e
    case Rendered(r) => r in log.q && r.final
    case Dropped(from, count) => from + count == FirstSeq(log)
  }
}

/**
 kmsg.c: two coupled wrapping rings, one of descriptors and one of text bytes, proved to
 behave as the queue of MessageLog.  The caller of every method holds kmsg_lock.
 */
module Kmsg {
  import opened Wrappers
  import opened MessageLog

  /** x modulo n, for the sums below 2n that index a ring. */
  function Wrap(x: nat, n: nat): (r: nat)
    requires 1 <= n && x < 2 * n
    ensures r < n
  {
    if x < n then x else x - n
  }

  datatype Desc = Desc(seqno: nat, ts: nat, off: nat, caller: nat, len: nat, level: nat, final: bool)

  /** d describes r, whose text starts at `off` in the byte ring. */
  predicate Describes(d: Desc, r: Record, off: nat) {
    && d.seqno == r.seqno && d.ts == r.ts && d.caller == r.caller && d.level == r.level && d.final == r.final
    && d.len == |r.text| && d.off == off
  }

  /** Bytes before record i. */
  function Start(q: seq<Record>, i: nat): nat
    requires i <= |q|
  {
    |Texts(q[..i])|
  }

  predicate Fits(c: Limits, q: seq<Record>, dtail: nat, ttail: nat) {
    && ValidLimits(c) && dtail < c.ndesc && ttail < c.textsz
    && |q| <= c.ndesc && |Texts(q)| <= c.textsz
    && forall i :: 0 <= i < |q| ==> Start(q, i) <= c.textsz
  }

  /** Live descriptor i describes record i, placed where the earlier records' text ends. */
  ghost predicate DescsHold(c: Limits, descs: seq<Desc>, q: seq<Record>, dtail: nat, ttail: nat)
    requires |descs| == c.ndesc && Fits(c, q, dtail, ttail)
  {
    forall i :: 0 <= i < |q| ==> Describes(descs[Wrap(dtail + i, c.ndesc)], q[i], Wrap(ttail + Start(q, i), c.textsz))
  }

  /** The live bytes, read round the ring from ttail, are the records' texts in order. */
  ghost predicate BytesHold(c: Limits, bytes: seq<char>, t: seq<char>, ttail: nat)
    requires ValidLimits(c) && |bytes| == c.textsz && |t| <= c.textsz && ttail < c.textsz
  {
    forall x :: 0 <= x < |t| ==> bytes[Wrap(ttail + x, c.textsz)] == t[x]
  }

  /* ---- facts about starts ---- */

  lemma StartTail(q: seq<Record>, i: nat)
    requires q != [] && i < |q|
    ensures Start(q, i + 1) == |q[0].text| + Start(q[1..], i)
  {
    assert q[..i + 1] == [q[0]] + q[1..][..i];
    TextsConcat([q[0]], q[1..][..i]);
    TextsOne(q[0]);
  }

  lemma StartBound(q: seq<Record>, i: nat)
    requires i <= |q|
    ensures Start(q, i) <= |Texts(q)|
    ensures i < |q| ==> Start(q, i) + |q[i].text| <= |Texts(q)|
    ensures i < |q| ==> Texts(q)[Start(q, i)..Start(q, i) + |q[i].text|] == q[i].text
  {
    assert q == q[..i] + q[i..];
    TextsConcat(q[..i], q[i..]);
    if i < |q| {
      TextsFirst(q[i..]);
    }
  }

  lemma StartPush(q: seq<Record>, r: Record, i: nat)
    requires i <= |q|
    ensures Start(q + [r], i) == Start(q, i)
  {
    assert (q + [r])[..i] == q[..i];
  }

  lemma FitsFrom(c: Limits, q: seq<Record>, dtail: nat, ttail: nat)
    requires ValidLimits(c) && dtail < c.ndesc && ttail < c.textsz && |q| <= c.ndesc && |Texts(q)| <= c.textsz
    ensures Fits(c, q, dtail, ttail)
  {
    forall i | 0 <= i < |q| ensures Start(q, i) <= c.textsz { StartBound(q, i); }
  }

  /* ---- dropping the oldest record ---- */

  lemma DropDescs(c: Limits, descs: seq<Desc>, q: seq<Record>, dtail: nat, ttail: nat, n: nat)
    requires |descs| == c.ndesc && Fits(c, q, dtail, ttail) && DescsHold(c, descs, q, dtail, ttail) && q != []
    requires n == |q[0].text| <= c.textsz
    ensures var dtail', ttail' := Wrap(dtail + 1, c.ndesc), Wrap(ttail + n, c.textsz);
            Fits(c, q[1..], dtail', ttail') && DescsHold(c, descs, q[1..], dtail', ttail')
  {
    hide Start, Texts, Describes;
    var dtail', ttail' := Wrap(dtail + 1, c.ndesc), Wrap(ttail + n, c.textsz);
    TextsFirst(q);
    FitsFrom(c, q[1..], dtail', ttail');
    forall i | 0 <= i < |q[1..]|
      ensures Describes(descs[Wrap(dtail' + i, c.ndesc)], q[1..][i], Wrap(ttail' + Start(q[1..], i), c.textsz))
    {
      StartTail(q, i);
      StartBound(q, i + 1);
      assert Wrap(dtail' + i, c.ndesc) == Wrap(dtail + (i + 1), c.ndesc);
      assert Wrap(ttail' + Start(q[1..], i), c.textsz) == Wrap(ttail + Start(q, i + 1), c.textsz);
      assert Describes(descs[Wrap(dtail + (i + 1), c.ndesc)], q[i + 1], Wrap(ttail + Start(q, i + 1), c.textsz));
    }
  }

  lemma DropBytes(c: Limits, bytes: seq<char>, q: seq<Record>, ttail: nat)
    requires ValidLimits(c) && |bytes| == c.textsz && |Texts(q)| <= c.textsz && ttail < c.textsz && q != []
    requires BytesHold(c, bytes, Texts(q), ttail)
    ensures |q[0].text| <= |Texts(q)| && |Texts(q[1..])| <= c.textsz
    ensures BytesHold(c, bytes, Texts(q[1..]), Wrap(ttail + |q[0].text|, c.textsz))
  {
    TextsFirst(q);
    var n := |q[0].text|;
    var ttail' := Wrap(ttail + n, c.textsz);
    forall x | 0 <= x < |Texts(q[1..])| ensures bytes[Wrap(ttail' + x, c.textsz)] == Texts(q[1..])[x] {
      assert bytes[Wrap(ttail + (n + x), c.textsz)] == Texts(q)[n + x];
    }
  }

  /** Dropping the oldest record of a sound log. */
  lemma DropSound(c: Limits, log: Log)
    requires Sound(c, log) && log.q != []
    ensures Sound(c, Log(log.q[1..], log.next))
  {
    TextsFirst(log.q);
  }

  /* ---- adding text ---- */

  /** How far p lies past `off`, going round a ring of n places. */
  function Gap(off: nat, p: nat, n: nat): nat
    requires off < n && p < n
  {
    if p >= off then p - off else p + n - off
  }

  /** bytes' holds src at the places from `off` on, and bytes elsewhere. */
  ghost predicate WrittenAt(c: Limits, bytes: seq<char>, bytes': seq<char>, off: nat, src: seq<char>)
    requires ValidLimits(c) && |bytes| == |bytes'| == c.textsz && off < c.textsz && |src| <= c.textsz
  {
    forall p :: 0 <= p < c.textsz ==>
      bytes'[p] == if Gap(off, p, c.textsz) < |src| then src[Gap(off, p, c.textsz)] else bytes[p]
  }

  lemma GrowBytes(c: Limits, bytes: seq<char>, bytes': seq<char>, t: seq<char>, ttail: nat, src: seq<char>)
    requires ValidLimits(c) && |bytes| == |bytes'| == c.textsz && ttail < c.textsz && |t| + |src| <= c.textsz
    requires BytesHold(c, bytes, t, ttail)
    requires WrittenAt(c, bytes, bytes', Wrap(ttail + |t|, c.textsz), src)
    ensures BytesHold(c, bytes', t + src, ttail)
  {
    forall x | 0 <= x < |t + src| ensures bytes'[Wrap(ttail + x, c.textsz)] == (t + src)[x] {
      if x < |t| { assert bytes[Wrap(ttail + x, c.textsz)] == t[x]; }
    }
  }

  /** The descriptor ring after the newest record r takes slot |q|. */
  lemma PushDescs(c: Limits, descs: seq<Desc>, q: seq<Record>, dtail: nat, ttail: nat, r: Record, d: Desc)
    requires |descs| == c.ndesc && Fits(c, q, dtail, ttail) && DescsHold(c, descs, q, dtail, ttail)
    requires |q| < c.ndesc && |Texts(q)| + |r.text| <= c.textsz
    requires Describes(d, r, Wrap(ttail + |Texts(q)|, c.textsz))
    ensures var descs' := descs[Wrap(dtail + |q|, c.ndesc) := d];
            Fits(c, q + [r], dtail, ttail) && DescsHold(c, descs', q + [r], dtail, ttail)
  {
    TextsConcat(q, [r]);
    TextsOne(r);
    FitsFrom(c, q + [r], dtail, ttail);
    var descs' := descs[Wrap(dtail + |q|, c.ndesc) := d];
    assert (q + [r])[..|q|] == q;
    forall i | 0 <= i < |q + [r]|
      ensures Describes(descs'[Wrap(dtail + i, c.ndesc)], (q + [r])[i], Wrap(ttail + Start(q + [r], i), c.textsz))
    {
      if i < |q| { StartPush(q, r, i); }
    }
  }

  /** ... and after the newest record is replaced by r. */
  lemma SetLastDescs(c: Limits, descs: seq<Desc>, q: seq<Record>, dtail: nat, ttail: nat, r: Record, d: Desc)
    requires |descs| == c.ndesc && Fits(c, q, dtail, ttail) && DescsHold(c, descs, q, dtail, ttail) && q != []
    requires Start(q, |q| - 1) + |r.text| <= c.textsz
    requires Describes(d, r, Wrap(ttail + Start(q, |q| - 1), c.textsz))
    ensures var descs' := descs[Wrap(dtail + |q| - 1, c.ndesc) := d];
            Fits(c, SetLast(q, r), dtail, ttail) && DescsHold(c, descs', SetLast(q, r), dtail, ttail)
  {
    var init := q[..|q| - 1];
    StartBound(q, |q| - 1);
    FitsFrom(c, init, dtail, ttail);
    InitDescs(c, descs, q, dtail, ttail);
    hide Describes, DescsHold, Texts;
    PushDescs(c, descs, init, dtail, ttail, r, d);
  }

  lemma InitDescs(c: Limits, descs: seq<Desc>, q: seq<Record>, dtail: nat, ttail: nat)
    requires |descs| == c.ndesc && Fits(c, q, dtail, ttail) && DescsHold(c, descs, q, dtail, ttail) && q != []
    requires Fits(c, q[..|q| - 1], dtail, ttail)
    ensures DescsHold(c, descs, q[..|q| - 1], dtail, ttail)
  {
    hide Describes, Texts;
    var init := q[..|q| - 1];
    forall i | 0 <= i < |init|
      ensures Describes(descs[Wrap(dtail + i, c.ndesc)], init[i], Wrap(ttail + Start(init, i), c.textsz))
    {
      assert init[..i] == q[..i];
    }
  }

  class Ring {
    const c: Limits
    const desc: array<Desc>
    const text: array<char>
    var dhead: nat
    var dtail: nat
    var ndesc: nat
    var thead: nat
    var ttail: nat
    var tused: nat
    var nextSeq: nat
    ghost var log: Log            // the queue the rings stand for

    ghost predicate Valid()
      reads this, desc, text
    {
      && ValidLimits(c) && desc.Length == c.ndesc && text.Length == c.textsz && Sound(c, log)
      && Fits(c, log.q, dtail, ttail) && nextSeq == log.next
      && ndesc == |log.q| && dhead == Wrap(dtail + ndesc, c.ndesc)
      && tused == |Texts(log.q)| && thead == Wrap(ttail + tused, c.textsz)
      && DescsHold(c, desc[..], log.q, dtail, ttail)
      && BytesHold(c, text[..], Texts(log.q), ttail)
    }

    constructor (limits: Limits)
      requires ValidLimits(limits)
      ensures Valid() && c == limits && log == Log([], 0) && fresh(desc) && fresh(text)
    {
      c := limits;
      desc := new Desc[limits.ndesc](_ => Desc(0, 0, 0, 0, 0, 0, false));
      text := new char[limits.textsz](_ => ' ');
      dhead, dtail, ndesc, thead, ttail, tused, nextSeq := 0, 0, 0, 0, 0, 0, 0;
      log := Log([], 0);
    }

    /** kmsg_drop_oldest */
    method DropOldest()
      requires Valid() && ndesc > 0
      modifies this
      ensures Valid() && log == Log(old(log).q[1..], old(log).next)
    {
      hide DescsHold, BytesHold, Sound;
      ghost var q := log.q;
      DropSound(c, log);
      FirstDesc(c, desc[..], q, dtail, ttail);
      TextsFirst(q);
      DropDescs(c, desc[..], q, dtail, ttail, |q[0].text|);
      DropBytes(c, text[..], q, ttail);
      ttail := Wrap(ttail + desc[dtail].len, c.textsz);
      tused := tused - desc[dtail].len;
      dtail := Wrap(dtail + 1, c.ndesc);
      ndesc := ndesc - 1;
      log := Log(q[1..], log.next);
    }

    /** kmsg_write_text */
    method WriteText(off: nat, src: seq<char>)
      requires ValidLimits(c) && text.Length == c.textsz && off < c.textsz && |src| <= c.textsz
      modifies text
      ensures WrittenAt(c, old(text[..]), text[..], off, src)
    {
      for i := 0 to |src|
        invariant WrittenAt(c, old(text[..]), text[..], off, src[..i])
      {
        text[Wrap(off + i, c.textsz)] := src[i];
      }
      assert src[..|src|] == src;
    }

    /** The index of the newest descriptor: kmsg_last. */
    function LastIndex(): nat
      requires Fits(c, log.q, dtail, ttail) && ndesc == |log.q| && ndesc > 0 && dhead == Wrap(dtail + ndesc, c.ndesc)
      reads this
      ensures LastIndex() == Wrap(dtail + |log.q| - 1, c.ndesc)
    {
      Wrap(dhead + c.ndesc - 1, c.ndesc)
    }

    /** kmsg_append_last: extends the newest record exactly when the log allows it. */
    method AppendLast(caller: nat, src: seq<char>) returns (done: bool, seqno: nat)
      requires Valid() && 1 <= |src| <= c.recordMax
      modifies this, desc, text
      ensures Valid() && done == CanAppend(c, old(log).q, caller, src)
      ensures done ==> log == Log(Append(old(log).q, src), old(log).next) && seqno == Last(old(log).q).seqno
      ensures !done ==> log == old(log)
    {
      hide DescsHold, BytesHold, Sound, Texts, Start, WrittenAt;
      if ndesc == 0 { return false, 0; }
      ghost var q := log.q;
      LastDesc(c, desc[..], q, dtail, ttail);
      var l := LastIndex();
      var d := desc[l];
      if d.final || d.caller != caller { return false, 0; }
      if d.len + |src| > c.recordMax || tused + |src| > c.textsz { return false, 0; }
      WriteText(thead, src);
      thead := Wrap(thead + |src|, c.textsz);
      tused := tused + |src|;
      desc[l] := d.(len := d.len + |src|, final := src[|src| - 1] == '\n');
      log := Log(Append(q, src), log.next);
      AppendSound(c, old(log), caller, src);
      GrowBytes(c, old(text[..]), text[..], Texts(q), ttail, src);
      SetLastDescs(c, old(desc[..]), q, dtail, ttail, Last(log.q), desc[l]);
      assert desc[..] == old(desc[..])[l := desc[l]];
      return true, d.seqno;
    }

    /** kmsg_finalize, and the same step inside kmsg_add. */
    method FinalizeLast()
      requires Valid()
      modifies this`log, desc
      ensures Valid() && log == Log(Finalize(old(log).q), old(log).next)
    {
      hide DescsHold, BytesHold, Sound, Texts, Start;
      if ndesc > 0 {
        ghost var q := log.q;
        LastDesc(c, desc[..], q, dtail, ttail);
        var l := LastIndex();
        desc[l] := desc[l].(final := true);
        log := Log(Finalize(q), log.next);
        FinalizeSound(c, old(log));
        FinalizeTexts(q);
        SetLastDescs(c, old(desc[..]), q, dtail, ttail, Last(log.q), desc[l]);
        assert desc[..] == old(desc[..])[l := desc[l]];
      }
    }

    /** kmsg_add's drop loop. */
    method DropUntilRoom(n: nat)
      requires Valid() && n <= c.recordMax
      modifies this
      ensures Valid() && log == Log(MakeRoom(c, old(log).q, n), old(log).next)
    {
      hide DescsHold, BytesHold, Sound, Texts, Fits;
      ghost var q := log.q;
      EmptyTexts();
      while ndesc == c.ndesc || tused + n > c.textsz
        invariant Valid() && log.next == old(log).next && MakeRoom(c, log.q, n) == MakeRoom(c, q, n)
        decreases ndesc
      {
        RoomForOne(this.c, log.q, n, ndesc, tused);
        DropOldest();
      }
    }

    /** The tail of kmsg_add: fill the next descriptor and copy the text. */
    method Push(level: nat, src: seq<char>, caller: nat, ts: nat)
      requires Valid() && 1 <= |src| <= c.recordMax && |log.q| < c.ndesc && |Texts(log.q)| + |src| <= c.textsz
      requires forall i :: 0 <= i < |log.q| ==> log.q[i].final
      modifies this, desc, text
      ensures Valid()
      ensures log == Log(old(log).q + [Record(old(log).next, ts, caller, level, src, EndsLine(src))], old(log).next + 1)
    {
      hide DescsHold, BytesHold, Texts, Start, WrittenAt;
      ghost var q := log.q;
      ghost var r := Record(nextSeq, ts, caller, level, src, EndsLine(src));
      var h := dhead;
      desc[h] := Desc(nextSeq, ts, thead, caller, |src|, level, src[|src| - 1] == '\n');
      WriteText(thead, src);
      thead := Wrap(thead + |src|, c.textsz);
      tused := tused + |src|;
      dhead := Wrap(dhead + 1, c.ndesc);
      ndesc := ndesc + 1;
      nextSeq := nextSeq + 1;
      log := Log(q + [r], log.next + 1);
      TextsConcat(q, [r]);
      TextsOne(r);
      GrowBytes(c, old(text[..]), text[..], Texts(q), ttail, src);
      PushDescs(c, old(desc[..]), q, dtail, ttail, r, desc[h]);
      assert desc[..] == old(desc[..])[h := desc[h]];
    }

    /** kmsg_add, for a CPU that is not already inside it. */
    method KmsgAdd(level: nat, src: seq<char>, caller: nat, ts: nat) returns (seqno: Option<nat>)
      requires Valid()
      modifies this, desc, text
      ensures Valid() && Added(log, seqno) == Add(c, old(log), level, src, caller, ts)
    {
      hide DescsHold, BytesHold, Texts, Start, Fits, Sound, Finalize, MakeRoom;
      var t := if |src| > c.recordMax then src[..c.recordMax] else src;
      if |t| == 0 { return None; }
      if level == KERN_CONT {
        var done, n := AppendLast(caller, t);
        if done { return Some(n); }
      }
      var n := AddRecord(if level == KERN_CONT then KERN_INFO else level, t, caller, ts);
      return Some(n);
    }

    /** kmsg_add when it starts a record. */
    method AddRecord(level: nat, src: seq<char>, caller: nat, ts: nat) returns (n: nat)
      requires Valid() && 1 <= |src| <= c.recordMax
      modifies this, desc, text
      ensures Valid() && n == old(log).next
      ensures log == Log(MakeRoom(c, Finalize(old(log).q), |src|)
                           + [Record(n, ts, caller, level, src, EndsLine(src))], n + 1)
    {
      hide DescsHold, BytesHold, Texts, Start, Fits;
      FinalizeSound(c, log);
      FinalizeLast();
      MakeRoomSuffix(c, log.q, |src|);
      EmptyTexts();
      DropUntilRoom(|src|);
      n := nextSeq;
      Push(level, src, caller, ts);
    }

    /** kmsg_read: the descriptor and the text reassembled from the ring. */
    method KmsgRead(n: nat) returns (r: Option<Record>)
      requires Valid()
      ensures r == Read(log, n)
    {
      hide DescsHold, BytesHold, Texts, Start;
      ghost var q := log.q;
      if ndesc == 0 { return None; }
      FirstDesc(c, desc[..], q, dtail, ttail);
      if n < desc[dtail].seqno || n >= nextSeq { return None; }
      ghost var i := n - q[0].seqno;
      var idx := Wrap(dtail + (n - desc[dtail].seqno), c.ndesc);
      DescAt(c, desc[..], q, dtail, ttail, i);
      StartBound(q, i);
      var d := desc[idx];
      if !d.final { return None; }
      var buf: seq<char> := [];
      for j := 0 to d.len
        invariant buf == q[i].text[..j]
      {
        ByteAt(c, text[..], q, ttail, i, j);
        buf := buf + [text[Wrap(d.off + j, c.textsz)]];
      }
      assert q[i].text[..d.len] == q[i].text;
      r := Some(Record(d.seqno, d.ts, d.caller, d.level, buf, d.final));
    }

    /** kmsg_first_seq */
    method KmsgFirstSeq() returns (n: nat)
      requires Valid()
      ensures n == FirstSeq(log)
    {
      if ndesc == 0 { return nextSeq; }
      FirstDesc(c, desc[..], log.q, dtail, ttail);
      return desc[dtail].seqno;
    }
  }

  lemma EmptyTexts()
    ensures Texts([]) == []
  {
  }

  /** While the drop loop's guard holds there is a record to drop, and dropping it is what
      MakeRoom does. */
  lemma RoomForOne(c: Limits, q: seq<Record>, n: nat, ndesc: nat, tused: nat)
    requires ValidLimits(c) && n <= c.recordMax && ndesc == |q| && tused == |Texts(q)|
    requires ndesc == c.ndesc || tused + n > c.textsz
    ensures q != [] && MakeRoom(c, q[1..], n) == MakeRoom(c, q, n)
  {
    EmptyTexts();
  }

  lemma DescAt(c: Limits, descs: seq<Desc>, q: seq<Record>, dtail: nat, ttail: nat, i: nat)
    requires |descs| == c.ndesc && Fits(c, q, dtail, ttail) && DescsHold(c, descs, q, dtail, ttail) && i < |q|
    ensures Describes(descs[Wrap(dtail + i, c.ndesc)], q[i], Wrap(ttail + Start(q, i), c.textsz))
  {
  }

  lemma LastDesc(c: Limits, descs: seq<Desc>, q: seq<Record>, dtail: nat, ttail: nat)
    requires |descs| == c.ndesc && Fits(c, q, dtail, ttail) && DescsHold(c, descs, q, dtail, ttail) && q != []
    ensures Describes(descs[Wrap(dtail + |q| - 1, c.ndesc)], Last(q), Wrap(ttail + Start(q, |q| - 1), c.textsz))
    ensures Start(q, |q| - 1) + |Last(q).text| == |Texts(q)|
  {
    hide Texts, Start, DescsHold;
    DescAt(c, descs, q, dtail, ttail, |q| - 1);
    LastStart(q);
  }

  lemma LastStart(q: seq<Record>)
    requires q != []
    ensures Start(q, |q| - 1) + |Last(q).text| == |Texts(q)|
  {
  }

  /** Byte j of record i in the ring. */
  lemma ByteAt(c: Limits, bytes: seq<char>, q: seq<Record>, ttail: nat, i: nat, j: nat)
    requires ValidLimits(c) && |bytes| == c.textsz && |Texts(q)| <= c.textsz && ttail < c.textsz
    requires BytesHold(c, bytes, Texts(q), ttail) && i < |q| && j < |q[i].text|
    ensures Start(q, i) <= c.textsz && j < c.textsz
    ensures bytes[Wrap(Wrap(ttail + Start(q, i), c.textsz) + j, c.textsz)] == q[i].text[j]
  {
    StartBound(q, i);
    var x := Start(q, i) + j;
    assert bytes[Wrap(ttail + x, c.textsz)] == Texts(q)[x];
    assert Texts(q)[Start(q, i)..Start(q, i) + |q[i].text|][j] == q[i].text[j];
  }

  lemma FirstDesc(c: Limits, descs: seq<Desc>, q: seq<Record>, dtail: nat, ttail: nat)
    requires |descs| == c.ndesc && Fits(c, q, dtail, ttail) && DescsHold(c, descs, q, dtail, ttail) && q != []
    ensures descs[dtail].len == |q[0].text| && descs[dtail].seqno == q[0].seqno
  {
    assert Describes(descs[Wrap(dtail + 0, c.ndesc)], q[0], Wrap(ttail + Start(q, 0), c.textsz));
  }
}

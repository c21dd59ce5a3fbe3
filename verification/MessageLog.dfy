/**
 The kernel message log as its callers see it: a bounded queue of records numbered without
 gaps, of which only the newest may still be open for continuation.
 */
module MessageLog {
  import opened Wrappers

  /** KMSG_NDESC, KMSG_TEXTSZ and KMSG_RECORD_MAX. */
  datatype Limits = Limits(ndesc: nat, textsz: nat, recordMax: nat)

  predicate ValidLimits(c: Limits) {
    1 <= c.ndesc && 1 <= c.recordMax <= c.textsz
  }

  datatype Record = Record(seqno: nat, ts: nat, caller: nat, level: nat, text: seq<char>, final: bool)

  const KERN_CONT: nat := 8
  const KERN_INFO: nat := 6

  /** The records held, oldest first, and the number of the next one. */
  datatype Log = Log(q: seq<Record>, next: nat)

  function Texts(q: seq<Record>): seq<char> {
    if q == [] then [] else Texts(q[..|q| - 1]) + q[|q| - 1].text
  }

  predicate EndsLine(text: seq<char>) {
    |text| > 0 && text[|text| - 1] == '\n'
  }

  function Last(q: seq<Record>): Record
    requires q != []
  {
    q[|q| - 1]
  }

  /** Replaces the newest record. */
  function SetLast(q: seq<Record>, r: Record): seq<Record>
    requires q != []
  {
    q[..|q| - 1] + [r]
  }

  /** Closes the newest record, if there is one. */
  function Finalize(q: seq<Record>): seq<Record> {
    if q == [] then [] else SetLast(q, Last(q).(final := true))
  }

  /** Whether a continuation may extend the newest record. */
  predicate CanAppend(c: Limits, q: seq<Record>, caller: nat, text: seq<char>) {
    && q != [] && !Last(q).final && Last(q).caller == caller
    && |Last(q).text| + |text| <= c.recordMax && |Texts(q)| + |text| <= c.textsz
  }

  function Append(q: seq<Record>, text: seq<char>): seq<Record>
    requires q != []
  {
    SetLast(q, Last(q).(text := Last(q).text + text, final := EndsLine(text)))
  }

  /** Drops the oldest records until one more of n bytes fits. */
  function MakeRoom(c: Limits, q: seq<Record>, n: nat): seq<Record> {
    if q != [] && (|q| == c.ndesc || |Texts(q)| + n > c.textsz) then MakeRoom(c, q[1..], n) else q
  }

  function Clip(c: Limits, text: seq<char>): seq<char> {
    if |text| > c.recordMax then text[..c.recordMax] else text
  }

  datatype Added = Added(log: Log, seqno: Option<nat>)

  /** kmsg_add: the new log and the number of the record that holds the text. */
  function Add(c: Limits, log: Log, level: nat, text: seq<char>, caller: nat, ts: nat): Added {
    var t := Clip(c, text);
    if t == [] then Added(log, None)
    else if level == KERN_CONT && CanAppend(c, log.q, caller, t) then
      Added(Log(Append(log.q, t), log.next), Some(Last(log.q).seqno))
    else
      var r := Record(log.next, ts, caller, if level == KERN_CONT then KERN_INFO else level, t, EndsLine(t));
      Added(Log(MakeRoom(c, Finalize(log.q), |t|) + [r], log.next + 1), Some(log.next))
  }

  /** kmsg_first_seq */
  function FirstSeq(log: Log): nat {
    if log.q == [] then log.next else log.q[0].seqno
  }

  /** kmsg_read */
  function Read(log: Log, n: nat): Option<Record>
    requires Numbered(log)
  {
    if log.q == [] || n < log.q[0].seqno || n >= log.next then None
    else
      var r := log.q[n - log.q[0].seqno];
      if r.final then Some(r) else None
  }

  /** Record numbers run without gaps up to next. */
  predicate Numbered(log: Log) {
    && |log.q| <= log.next
    && forall i :: 0 <= i < |log.q| ==> log.q[i].seqno == log.next - |log.q| + i
  }

  /** Everything that holds of a log between calls. */
  predicate Sound(c: Limits, log: Log) {
    && Numbered(log)
    && |log.q| <= c.ndesc && |Texts(log.q)| <= c.textsz
    && (forall i :: 0 <= i < |log.q| ==> 1 <= |log.q[i].text| <= c.recordMax)
    && (forall i :: 0 <= i < |log.q| - 1 ==> log.q[i].final)
  }

  /* ---- text of a queue ---- */

  lemma {:induction false} TextsConcat(a: seq<Record>, b: seq<Record>)
    ensures Texts(a + b) == Texts(a) + Texts(b)
  {
    if b == [] {
      assert a + b == a;
    } else {
      assert (a + b)[..|a + b| - 1] == a + b[..|b| - 1];
      TextsConcat(a, b[..|b| - 1]);
    }
  }

  lemma TextsOne(r: Record)
    ensures Texts([r]) == r.text
  {
    assert [r][..0] == [];
  }

  lemma TextsFirst(q: seq<Record>)
    requires q != []
    ensures Texts(q) == q[0].text + Texts(q[1..])
  {
    assert q == [q[0]] + q[1..];
    TextsConcat([q[0]], q[1..]);
    TextsOne(q[0]);
  }

  lemma FinalizeTexts(q: seq<Record>)
    ensures Texts(Finalize(q)) == Texts(q) && |Finalize(q)| == |q|
  {
    if q != [] {
      assert Finalize(q)[..|q| - 1] == q[..|q| - 1];
    }
  }

  lemma {:induction false} MakeRoomSuffix(c: Limits, q: seq<Record>, n: nat)
    requires ValidLimits(c) && n <= c.recordMax
    ensures var r := MakeRoom(c, q, n);
            && |r| <= |q| && r == q[|q| - |r|..] && |Texts(r)| <= |Texts(q)|
            && (r == [] || (|r| != c.ndesc && |Texts(r)| + n <= c.textsz))
  {
    if q != [] && (|q| == c.ndesc || |Texts(q)| + n > c.textsz) {
      MakeRoomSuffix(c, q[1..], n);
      TextsFirst(q);
    }
  }

  /** No more is dropped than must be: with one more record kept, the new one would not fit. */
  lemma {:induction false} MakeRoomMinimal(c: Limits, q: seq<Record>, n: nat)
    ensures var r := MakeRoom(c, q, n);
            && |r| <= |q|
            && (|r| < |q| ==> var more := q[|q| - |r| - 1..];
                              |more| == c.ndesc || |Texts(more)| + n > c.textsz)
  {
    if q != [] && (|q| == c.ndesc || |Texts(q)| + n > c.textsz) {
      MakeRoomMinimal(c, q[1..], n);
      var r := MakeRoom(c, q, n);
      if |r| == |q| - 1 { assert q[0..] == q; } else { assert q[|q| - |r| - 1..] == q[1..][|q| - |r| - 2..]; }
    }
  }

  /* ---- the log stays sound ---- */

  lemma FinalizeSound(c: Limits, log: Log)
    requires Sound(c, log)
    ensures Sound(c, Log(Finalize(log.q), log.next))
    ensures forall i :: 0 <= i < |log.q| ==> Finalize(log.q)[i].final
  {
    FinalizeTexts(log.q);
  }

  lemma AppendSound(c: Limits, log: Log, caller: nat, text: seq<char>)
    requires Sound(c, log) && CanAppend(c, log.q, caller, text)
    ensures Sound(c, Log(Append(log.q, text), log.next)) && Texts(Append(log.q, text)) == Texts(log.q) + text
  {
    assert Append(log.q, text)[..|log.q| - 1] == log.q[..|log.q| - 1];
  }

  /** kmsg_add keeps the log sound: at most ndesc records and textsz bytes, no gaps in the
      numbers, and nothing but the newest record open. */
  lemma AddSound(c: Limits, log: Log, level: nat, text: seq<char>, caller: nat, ts: nat)
    requires ValidLimits(c) && Sound(c, log)
    ensures Sound(c, Add(c, log, level, text, caller, ts).log)
  {
    var t := Clip(c, text);
    if t == [] {
    } else if level == KERN_CONT && CanAppend(c, log.q, caller, t) {
      AppendSound(c, log, caller, t);
    } else {
      FinalizeSound(c, log);
      PushSound(c, Log(Finalize(log.q), log.next),
                Record(log.next, ts, caller, if level == KERN_CONT then KERN_INFO else level, t, EndsLine(t)));
    }
  }

  /** Making room and adding a record keeps a log of final records sound. */
  lemma PushSound(c: Limits, log: Log, r: Record)
    requires ValidLimits(c) && Sound(c, log) && forall i :: 0 <= i < |log.q| ==> log.q[i].final
    requires r.seqno == log.next && 1 <= |r.text| <= c.recordMax
    ensures Sound(c, Log(MakeRoom(c, log.q, |r.text|) + [r], log.next + 1))
  {
    var kept := MakeRoom(c, log.q, |r.text|);
    MakeRoomSuffix(c, log.q, |r.text|);
    TextsConcat(kept, [r]);
    TextsOne(r);
    forall i | 0 <= i < |kept| ensures kept[i] == log.q[|log.q| - |kept| + i] {}
  }

  /** kmsg_read finds exactly the final records in [first, next). */
  lemma ReadExact(c: Limits, log: Log, n: nat)
    requires Sound(c, log)
    ensures Read(log, n).Some? <==> exists i :: 0 <= i < |log.q| && log.q[i].seqno == n && log.q[i].final
    ensures Read(log, n).Some? ==> Read(log, n).value in log.q && Read(log, n).value.seqno == n
    ensures FirstSeq(log) <= n < log.next - 1 ==> Read(log, n).Some?
  {
    if Read(log, n).Some? {
      assert log.q[n - log.q[0].seqno].seqno == n;
    }
  }

  /** What is added is what is read: the record numbered by the result holds the text, behind
      the record's earlier text if it continues one, and is readable as soon as it is closed. */
  lemma AddThenRead(c: Limits, log: Log, level: nat, text: seq<char>, caller: nat, ts: nat)
    requires ValidLimits(c) && Sound(c, log) && text != []
    ensures var a := Add(c, log, level, text, caller, ts);
            && a.seqno.Some? && Sound(c, a.log) && a.log.q != []
            && Last(a.log.q).seqno == a.seqno.value
            && Last(a.log.q).text == (if level == KERN_CONT && CanAppend(c, log.q, caller, Clip(c, text)) then Last(log.q).text else []) + Clip(c, text)
            && var closed := Log(Finalize(a.log.q), a.log.next);
               Numbered(closed) && Read(closed, a.seqno.value) == Some(Last(a.log.q).(final := true))
  {
    AddSound(c, log, level, text, caller, ts);
    var a := Add(c, log, level, text, caller, ts);
    FinalizeSound(c, a.log);
  }

  /** The newest record may be continued by this caller with n more bytes. */
  predicate Continues(c: Limits, log: Log, caller: nat, n: nat) {
    && log.q != [] && !log.q[|log.q| - 1].final && log.q[|log.q| - 1].caller == caller
    && |log.q[|log.q| - 1].text| + n <= c.recordMax && |Texts(log.q)| + n <= c.textsz
  }

  /** What kmsg_add leaves as the newest record, in plain terms.  The stored text is the first recordMax characters;
      it is appended to the newest record exactly for a continuation that fits an open record of the same caller, which
      keeps its number, time, caller and level; otherwise it starts a record with the given time, caller and level, a
      continuation counting as level 6.  The record is closed exactly if the text ends the line, and then readable. */
  lemma AddExact(c: Limits, log: Log, level: nat, text: seq<char>, caller: nat, ts: nat)
    requires ValidLimits(c) && Sound(c, log) && text != []
    ensures var a := Add(c, log, level, text, caller, ts);
            var n := if |text| < c.recordMax then |text| else c.recordMax;
            && a.log.q != [] && Numbered(a.log)
            && var r := a.log.q[|a.log.q| - 1];
               && a.seqno == Some(r.seqno) && (r.final <==> text[n - 1] == '\n') && (r.final ==> Read(a.log, r.seqno) == Some(r))
               && (level == 8 && Continues(c, log, caller, n) ==>
                     var was := log.q[|log.q| - 1];
                     && r.seqno == was.seqno && r.ts == was.ts && r.caller == was.caller && r.level == was.level
                     && r.text == was.text + text[..n] && a.log.next == log.next && a.log.q[..|a.log.q| - 1] == log.q[..|log.q| - 1])
               && (!(level == 8 && Continues(c, log, caller, n)) ==>
                     && r.seqno == log.next && a.log.next == log.next + 1 && r.ts == ts && r.caller == caller
                     && r.level == (if level == 8 then 6 else level) && r.text == text[..n])
  {
    AddSound(c, log, level, text, caller, ts);
    var n := if |text| < c.recordMax then |text| else c.recordMax;
    assert Clip(c, text) == text[..n];
  }

  /** Nothing to add changes nothing. */
  lemma AddNothing(c: Limits, log: Log, level: nat, caller: nat, ts: nat)
    ensures Add(c, log, level, [], caller, ts) == Added(log, None)
  {
  }

  /** r is the record of that number in the log, closed. */
  predicate ClosedCopy(log: Log, r: Record) {
    && r.final && |log.q| <= log.next && log.next - |log.q| <= r.seqno < log.next
    && r == log.q[r.seqno - (log.next - |log.q|)].(final := true)
  }

  /** Starting a record closes those before it, and drops only from the front; continuing one leaves them alone. */
  lemma AddKeepsOlder(c: Limits, log: Log, level: nat, text: seq<char>, caller: nat, ts: nat)
    requires ValidLimits(c) && Sound(c, log) && text != []
    ensures var q := Add(c, log, level, text, caller, ts).log.q;
            forall i :: 0 <= i < |q| - 1 ==> ClosedCopy(log, q[i])
  {
    hide Texts, MakeRoom, ClosedCopy, Sound, Finalize;
    var t := Clip(c, text);
    if level == KERN_CONT && CanAppend(c, log.q, caller, t) {
      OlderAppend(c, log, t);
    } else {
      OlderPush(c, log, |t|);
    }
  }

  lemma OlderAppend(c: Limits, log: Log, t: seq<char>)
    requires Sound(c, log) && log.q != []
    ensures forall i :: 0 <= i < |Append(log.q, t)| - 1 ==> ClosedCopy(log, Append(log.q, t)[i])
  {
    hide Texts;
  }

  lemma OlderPush(c: Limits, log: Log, n: nat)
    requires ValidLimits(c) && Sound(c, log) && n <= c.recordMax
    ensures forall i :: 0 <= i < |MakeRoom(c, Finalize(log.q), n)| ==> ClosedCopy(log, MakeRoom(c, Finalize(log.q), n)[i])
  {
    hide Texts, MakeRoom, ClosedCopy, Sound, Finalize;
    var f := Finalize(log.q);
    var kept := MakeRoom(c, f, n);
    MakeRoomSuffix(c, f, n);
    FinalizeCopies(c, log);
    forall i | 0 <= i < |kept| ensures ClosedCopy(log, kept[i]) { assert kept[i] == f[|f| - |kept| + i]; }
  }

  lemma FinalizeCopies(c: Limits, log: Log)
    requires Sound(c, log)
    ensures forall i :: 0 <= i < |Finalize(log.q)| ==> ClosedCopy(log, Finalize(log.q)[i])
  {
    hide Texts;
  }
}

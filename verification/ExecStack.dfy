/**
 The initial user stack that exec builds, and its reading back.

 The caller's argv is the sequence of its strings, each without a zero byte.  The page is
 mapped at user address `base`, the end of the loaded image.
 */
module ExecStack {
  import opened Wrappers
  import opened Bytes

  const PGSIZE: nat := 4096
  const MAXARG: nat := 32
  const MAXUVA: nat := 0x1_0000_0000_0000

  /* ---- 64-bit little-endian words ---- */

  function Pow256(n: nat): (r: nat)
    ensures r >= 1
  {
    if n == 0 then 1 else 256 * Pow256(n - 1)
  }

  function Le(v: nat, n: nat): (s: Text)
    ensures |s| == n
  {
    if n == 0 then [] else [v % 256] + Le(v / 256, n - 1)
  }

  function FromLe(s: Text): nat {
    if s == [] then 0 else s[0] + 256 * FromLe(s[1..])
  }

  lemma {:induction false} LeRound(v: nat, n: nat)
    requires v < Pow256(n)
    ensures FromLe(Le(v, n)) == v
  {
    if n > 0 {
      LeRound(v / 256, n - 1);
      assert Le(v, n)[1..] == Le(v / 256, n - 1);
    }
  }

  lemma Pow8()
    ensures Pow256(8) == 0x1_0000_0000_0000_0000
  {
    assert Pow256(2) == 0x1_0000;
    assert Pow256(4) == 0x1_0000_0000;
    assert Pow256(6) == 0x1_0000_0000_0000;
  }

  /** The 64-bit word at offset off. */
  function WordAt(page: Text, off: nat): nat
    requires off + 8 <= |page|
  {
    FromLe(page[off..off + 8])
  }

  /** Word m of a block at offset off. */
  function Word(page: Text, off: nat, m: nat): nat
    requires off + 8 * m + 8 <= |page|
  {
    WordAt(page, off + 8 * m)
  }

  /* ---- strings one after another ---- */

  function Packed(args: seq<Text>): Text {
    if args == [] then [] else Packed(args[..|args| - 1]) + args[|args| - 1] + [0]
  }

  /** Where string m starts. */
  function Offset(args: seq<Text>, m: nat): nat
    requires m <= |args|
  {
    |Packed(args[..m])|
  }

  lemma PackedNext(args: seq<Text>, m: nat)
    requires m < |args|
    ensures Packed(args[..m + 1]) == Packed(args[..m]) + args[m] + [0]
    ensures Offset(args, m + 1) == Offset(args, m) + |args[m]| + 1
  {
    assert args[..m + 1][..m] == args[..m];
  }

  lemma {:induction false} PackedPrefix(args: seq<Text>, m: nat, n: nat)
    requires m <= n <= |args|
    ensures Offset(args, m) <= Offset(args, n) && Packed(args[..m]) == Packed(args[..n])[..Offset(args, m)]
    decreases n - m
  {
    if m < n {
      PackedPrefix(args, m, n - 1);
      PackedNext(args, n - 1);
    }
  }

  /** String m and its terminator, inside the packed bytes. */
  lemma PackedAt(args: seq<Text>, m: nat)
    requires m < |args|
    ensures Offset(args, m) + |args[m]| < |Packed(args)|
    ensures Packed(args)[Offset(args, m)..Offset(args, m) + |args[m]| + 1] == args[m] + [0]
  {
    PackedNext(args, m);
    PackedPrefix(args, m + 1, |args|);
    assert args[..|args|] == args;
    assert Packed(args[..m + 1]) == Packed(args[..m]) + (args[m] + [0]);
  }

  /* ---- what a program reads from its stack ---- */

  function StringAt(page: Text, base: nat, ptr: nat): Option<Text> {
    if ptr < base then None else CString(page, ptr - base)
  }

  /** The first n strings of the argv of the block at offset off. */
  function Strings(page: Text, base: nat, off: nat, n: nat): Option<seq<Text>>
    requires off + 8 * (n + 1) <= |page|
  {
    if n == 0 then Some([])
    else
      var init := Strings(page, base, off, n - 1);
      var last := StringAt(page, base, Word(page, off, n));
      if init.None? || last.None? then None else Some(init.value + [last.value])
  }

  /** The argv NULL, the envp NULL and the AT_NULL pair. */
  predicate Terminated(page: Text, off: nat, argc: nat)
    requires off + 8 * (argc + 5) <= |page|
  {
    && Word(page, off, argc + 1) == 0 && Word(page, off, argc + 2) == 0
    && Word(page, off, argc + 3) == 0 && Word(page, off, argc + 4) == 0
  }

  /** The System V start-up block at sp: argc, argv, NULL, envp NULL, AT_NULL pair. */
  function Decode(page: Text, base: nat, sp: nat): Option<seq<Text>> {
    if sp < base || sp - base + 8 > |page| then None
    else
      var off := sp - base;
      var argc := Word(page, off, 0);
      if off + 8 * (argc + 5) > |page| || !Terminated(page, off, argc) then None
      else Strings(page, base, off, argc)
  }

  /* ---- the layout ---- */

  function Down16(x: nat): nat { x / 16 * 16 }

  function StrBase(base: nat, pos: nat): nat
    requires pos <= PGSIZE
  {
    Down16(base + PGSIZE - pos)
  }

  /** The 64-bit difference does not wrap: the image ends at one page or more. */
  function Sp(base: nat, pos: nat, argc: nat): int
    requires pos <= PGSIZE && (argc + 5) * 8 <= StrBase(base, pos)
  {
    Down16(StrBase(base, pos) - (argc + 5) * 8)
  }

  /** What exec accepts. */
  predicate FitsStack(base: nat, args: seq<Text>) {
    && |args| < MAXARG && |Packed(args)| <= PGSIZE
    && (|args| + 5) * 8 <= StrBase(base, |Packed(args)|)
    && Sp(base, |Packed(args)|, |args|) >= base
  }

  lemma Down16Is(x: nat)
    ensures Down16(x) <= x < Down16(x) + 16 && Down16(x) % 16 == 0
  {
  }

  /** The block and the strings are inside the page and apart. */
  lemma LayoutOk(base: nat, args: seq<Text>)
    requires base % PGSIZE == 0 && FitsStack(base, args)
    ensures var n := |Packed(args)|; var sb := StrBase(base, n); var sp := Sp(base, n, |args|);
            base <= sp && sp + (|args| + 5) * 8 <= sb && sb + n <= base + PGSIZE && sp % 16 == 0
  {
    var n := |Packed(args)|;
    Down16Is(base + PGSIZE - n);
    Down16Is(StrBase(base, n) - (|args| + 5) * 8);
  }

  /** The bytes of the strings with their terminators. */
  function TextBytes(args: seq<Text>): nat {
    if args == [] then 0 else TextBytes(args[..|args| - 1]) + |args[|args| - 1]| + 1
  }

  lemma {:induction false} PackedSize(args: seq<Text>)
    ensures |Packed(args)| == TextBytes(args)
  {
    if args != [] { PackedSize(args[..|args| - 1]); }
  }

  /** exec accepts, in plain numbers: at most 31 arguments, and strings and block, each rounded up to 16 bytes, within the
      4096 of the page. */
  lemma FitsIff(base: nat, args: seq<Text>)
    requires base >= 4096 && base % 4096 == 0
    ensures FitsStack(base, args) <==>
            |args| <= 31 && (TextBytes(args) + 15) / 16 * 16 + (8 * |args| + 40 + 15) / 16 * 16 <= 4096
  {
    hide Packed, TextBytes, Down16;
    PackedSize(args);
    var n, m := |Packed(args)|, |args|;
    if n <= 4096 && m <= 31 {
      Down16Below(base / 16, 4096 - n);
      Down16Up(n);
      var room := Down16(4096 - n);
      assert base == base / 16 * 16;
      assert StrBase(base, n) == base + room;
      SpBelow(base, room, m);
    }
  }

  lemma SpBelow(base: nat, room: nat, m: nat)
    requires base >= 4096 && base % 16 == 0 && room % 16 == 0 && m <= 31
    ensures Down16(base + room - (m + 5) * 8) >= base <==> (8 * m + 55) / 16 * 16 <= room
  {
    var k := (8 * m + 55) / 16;
    if room >= 16 * k {
      Down16Is(base + room - (m + 5) * 8);
    } else {
      Down16Is(base + room - (m + 5) * 8);
    }
  }

  lemma Down16Below(b: nat, x: nat)
    ensures Down16(b * 16 + x) == b * 16 + Down16(x)
  {
  }

  lemma Down16Up(n: nat)
    requires n <= 4096
    ensures Down16(4096 - n) == 4096 - (n + 15) / 16 * 16 && Down16(4096 - n) % 16 == 0
  {
  }

  /** Everything the program reads is right: then decoding gives the arguments back. */
  ghost predicate Written(page: Text, base: nat, sb: nat, sp: nat, args: seq<Text>) {
    && |page| == PGSIZE && base <= sp && sp + (|args| + 5) * 8 <= sb && sb + |Packed(args)| <= base + PGSIZE
    && page[sb - base..sb - base + |Packed(args)|] == Packed(args)
    && Word(page, sp - base, 0) == |args|
    && (forall m :: 0 <= m < |args| ==> Word(page, sp - base, m + 1) == sb + Offset(args, m))
    && Terminated(page, sp - base, |args|)
  }

  lemma {:induction false} StringsBack(page: Text, base: nat, sb: nat, sp: nat, args: seq<Text>, n: nat)
    requires Written(page, base, sb, sp, args) && n <= |args| && forall m :: 0 <= m < |args| ==> NulFree(args[m])
    ensures Strings(page, base, sp - base, n) == Some(args[..n])
  {
    hide NulFree, WordAt, Packed, StringAt;
    if n > 0 {
      StringsBack(page, base, sb, sp, args, n - 1);
      OneBack(page, base, sb, args, n - 1);
      assert Word(page, sp - base, (n - 1) + 1) == sb + Offset(args, n - 1);
      assert args[..n] == args[..n - 1] + [args[n - 1]];
    }
  }

  lemma OneBack(page: Text, base: nat, sb: nat, args: seq<Text>, m: nat)
    requires base <= sb && sb + |Packed(args)| <= base + |page| && m < |args| && NulFree(args[m])
    requires page[sb - base..sb - base + |Packed(args)|] == Packed(args)
    ensures StringAt(page, base, sb + Offset(args, m)) == Some(args[m])
  {
    PackedAt(args, m);
    var o := Offset(args, m);
    var whole := page[sb - base..sb - base + |Packed(args)|];
    assert whole[o..o + |args[m]| + 1] == page[sb - base + o..sb - base + o + |args[m]| + 1];
    CStringOf(page, sb - base + o, args[m]);
  }

  lemma DecodeBack(page: Text, base: nat, sb: nat, sp: nat, args: seq<Text>)
    requires Written(page, base, sb, sp, args) && forall m :: 0 <= m < |args| ==> NulFree(args[m])
    ensures Decode(page, base, sp) == Some(args)
  {
    StringsBack(page, base, sb, sp, args, |args|);
    assert args[..|args|] == args;
  }

  /* ---- building it ---- */

  function Patch(page: Text, off: nat, s: Text): Text
    requires off + |s| <= |page|
  {
    page[..off] + s + page[off + |s|..]
  }

  lemma PatchWord(page: Text, off: nat, m: nat, v: nat, m': nat)
    requires off + 8 * m + 8 <= |page| && off + 8 * m' + 8 <= |page| && v < Pow256(8)
    ensures |Patch(page, off + 8 * m, Le(v, 8))| == |page|
    ensures Word(Patch(page, off + 8 * m, Le(v, 8)), off, m') == if m' == m then v else Word(page, off, m')
  {
    hide Le, FromLe, Pow256;
    var p' := Patch(page, off + 8 * m, Le(v, 8));
    var o, o' := off + 8 * m, off + 8 * m';
    if m' == m {
      assert p'[o..o + 8] == Le(v, 8);
      LeRound(v, 8);
    } else {
      assert m' < m ==> o' + 8 <= o;
      assert m < m' ==> o + 8 <= o';
      assert p'[o'..o' + 8] == page[o'..o' + 8];
    }
  }

  lemma PatchSlice(page: Text, off: nat, s: Text, lo: nat, hi: nat)
    requires off + |s| <= lo <= hi <= |page|
    ensures |Patch(page, off, s)| == |page| && Patch(page, off, s)[lo..hi] == page[lo..hi]
  {
  }

  /** Bytes s stored at offset off: memcpy, a string copy or a 64-bit store. */
  method Store(a: array<byte>, off: nat, s: Text)
    requires off + |s| <= a.Length
    modifies a
    ensures a[..] == Patch(old(a[..]), off, s)
  {
    for i := 0 to |s|
      invariant forall k :: 0 <= k < a.Length ==> a[k] == if off <= k < off + i then s[k - off] else old(a[k])
    {
      a[off + i] := s[i];
    }
  }

  /** The loop that copies the caller's strings into the scratch page. */
  method Gather(args: seq<Text>, buf: array<byte>) returns (ok: bool, argc: nat, pos: nat)
    requires buf.Length == PGSIZE
    modifies buf
    ensures ok <==> |args| < MAXARG && |Packed(args)| <= PGSIZE
    ensures ok ==> argc == |args| && pos == |Packed(args)| && buf[..pos] == Packed(args)
  {
    pos := 0;
    argc := 0;
    assert args[..|args|] == args;
    while argc < MAXARG
      invariant argc <= |args| && argc <= MAXARG && pos == Offset(args, argc) <= PGSIZE
      invariant buf[..pos] == Packed(args[..argc])
    {
      if argc == |args| { break; }        // the NULL pointer
      PackedNext(args, argc);
      PackedPrefix(args, argc + 1, |args|);
      var slen := |args[argc]|;
      if slen + 1 > PGSIZE - pos { return false, argc, pos; }
      ghost var was := buf[..];
      Store(buf, pos, args[argc] + [0]);
      assert buf[..pos + slen + 1] == was[..pos] + (args[argc] + [0]);
      pos := pos + slen + 1;
      argc := argc + 1;
    }
    PackedPrefix(args, argc, |args|);
    ok := argc != MAXARG;
  }

  /** strlen of the string s that starts at off. */
  method Strlen(buf: array<byte>, off: nat, ghost s: Text) returns (n: nat)
    requires NulFree(s) && off + |s| < buf.Length && buf[off..off + |s| + 1] == s + [0]
    ensures n == |s|
  {
    n := 0;
    assert forall k :: 0 <= k <= |s| ==> buf[off + k] == (s + [0])[k];
    while buf[off + n] != 0
      invariant n <= |s|
      decreases |s| - n
    {
      n := n + 1;
    }
  }

  /** Words of the block written so far: argc and the first n pointers. */
  ghost predicate BlockTo(page: Text, off: nat, sb: nat, args: seq<Text>, n: nat)
    requires off + 8 * (|args| + 5) <= |page| && n <= |args|
  {
    Word(page, off, 0) == |args| && forall m :: 0 <= m < n ==> Word(page, off, m + 1) == sb + Offset(args, m)
  }

  lemma BlockNext(page: Text, off: nat, sb: nat, args: seq<Text>, n: nat)
    requires off + 8 * (|args| + 5) <= |page| && n < |args| && BlockTo(page, off, sb, args, n) && sb + Offset(args, n) < Pow256(8)
    ensures var p' := Patch(page, off + 8 * (n + 1), Le(sb + Offset(args, n), 8)); |p'| == |page| && BlockTo(p', off, sb, args, n + 1)
  {
    hide Patch, Word, Offset, Pow256, Le;
    var v := sb + Offset(args, n);
    PatchWord(page, off, n + 1, v, 0);
    var p' := Patch(page, off + 8 * (n + 1), Le(v, 8));
    forall m | 0 <= m < n + 1 ensures Word(p', off, m + 1) == sb + Offset(args, m) { PatchWord(page, off, n + 1, v, m + 1); }
  }

  /** The stack page holds the strings at the top. */
  predicate StringsIn(page: Text, o: nat, args: seq<Text>) {
    o + |Packed(args)| <= |page| && page[o..o + |Packed(args)|] == Packed(args)
  }

  /** A store below the strings leaves them alone. */
  lemma StringsStay(page: Text, o: nat, args: seq<Text>, off: nat, s: Text)
    requires StringsIn(page, o, args) && off + |s| <= o
    ensures StringsIn(Patch(page, off, s), o, args)
  {
    hide Packed;
    PatchSlice(page, off, s, o, o + |Packed(args)|);
  }

  /** The info block: argc, then one pointer per string re-derived by walking the packed strings. */
  method PutPointers(stack: array<byte>, buf: array<byte>, off: nat, o: nat, base: nat, args: seq<Text>)
    requires stack != buf && stack.Length == PGSIZE && buf.Length == PGSIZE && |args| < MAXARG && base <= MAXUVA
    requires forall m :: 0 <= m < |args| ==> NulFree(args[m])
    requires |Packed(args)| <= PGSIZE && buf[..|Packed(args)|] == Packed(args)
    requires off + 8 * (|args| + 5) <= o && StringsIn(stack[..], o, args)
    modifies stack
    ensures off + 8 * (|args| + 5) <= |stack[..]| && BlockTo(stack[..], off, base + o, args, |args|) && StringsIn(stack[..], o, args)
  {
    hide NulFree, Le, Word, Patch, BlockTo, StringsIn, Pow256;
    StringsBound(stack[..], o, args);
    Pow8();
    var argc := |args|;
    StringsStay(stack[..], o, args, off, Le(argc, 8));
    BlockStart(stack[..], off, base + o, args);
    Store(stack, off, Le(argc, 8));
    var p: nat := 0;
    for i := 0 to argc
      invariant p == Offset(args, i) <= PGSIZE
      invariant BlockTo(stack[..], off, base + o, args, i) && StringsIn(stack[..], o, args)
    {
      var v := base + o + p;
      BlockNext(stack[..], off, base + o, args, i);
      StringsStay(stack[..], o, args, off + 8 * (i + 1), Le(v, 8));
      Store(stack, off + 8 * (i + 1), Le(v, 8));
      PackedAt(args, i);
      SliceOf(buf[..], Packed(args), p, p + |args[i]| + 1);
      assert buf[p..p + |args[i]| + 1] == buf[..][p..p + |args[i]| + 1];
      var n := Strlen(buf, p, args[i]);
      PackedNext(args, i);
      p := p + n + 1;
    }
  }

  lemma StringsBound(page: Text, o: nat, args: seq<Text>)
    requires StringsIn(page, o, args)
    ensures o + |Packed(args)| <= |page|
  {
  }

  lemma SliceOf(buf: Text, s: Text, lo: nat, hi: nat)
    requires |s| <= |buf| && buf[..|s|] == s && lo <= hi <= |s|
    ensures buf[lo..hi] == s[lo..hi]
  {
    assert forall k :: 0 <= k < |s| ==> buf[..|s|][k] == buf[k];
    assert buf[lo..hi] == s[lo..hi];
  }

  lemma BlockStart(page: Text, off: nat, sb: nat, args: seq<Text>)
    requires off + 8 * (|args| + 5) <= |page| && |args| < Pow256(8)
    ensures var p' := Patch(page, off, Le(|args|, 8)); |p'| == |page| && BlockTo(p', off, sb, args, 0)
  {
    hide Pow256, Le, Word, Patch;
    PatchWord(page, off, 0, |args|, 0);
  }

  /** Storing a zero word behind the pointers. */
  lemma ZeroNext(page: Text, off: nat, sb: nat, args: seq<Text>, z: nat)
    requires off + 8 * (|args| + 5) <= |page| && BlockTo(page, off, sb, args, |args|) && 1 <= z <= 4
    requires forall w: nat :: |args| < w < |args| + z ==> Word(page, off, w) == 0
    ensures var p' := Patch(page, off + 8 * (|args| + z), Le(0, 8));
            && |p'| == |page| && BlockTo(p', off, sb, args, |args|)
            && forall w: nat :: |args| < w < |args| + z + 1 ==> Word(p', off, w) == 0
  {
    hide Patch, Word, Offset, Le, Pow256;
    Pow8();
    var p' := Patch(page, off + 8 * (|args| + z), Le(0, 8));
    PatchWord(page, off, |args| + z, 0, 0);
    forall m | 0 <= m < |args| ensures Word(p', off, m + 1) == sb + Offset(args, m) { PatchWord(page, off, |args| + z, 0, m + 1); }
    forall w: nat | |args| < w < |args| + z + 1 ensures Word(p', off, w) == 0 { PatchWord(page, off, |args| + z, 0, w); }
  }

  method PutTerminators(stack: array<byte>, off: nat, o: nat, sb: nat, args: seq<Text>)
    requires off + 8 * (|args| + 5) <= o && StringsIn(stack[..], o, args) && o <= |stack[..]|
    requires BlockTo(stack[..], off, sb, args, |args|)
    modifies stack
    ensures off + 8 * (|args| + 5) <= |stack[..]| && BlockTo(stack[..], off, sb, args, |args|) && StringsIn(stack[..], o, args)
    ensures Terminated(stack[..], off, |args|)
  {
    hide Le, Word, Patch, BlockTo, StringsIn, Pow256;
    for z := 1 to 5
      invariant BlockTo(stack[..], off, sb, args, |args|) && StringsIn(stack[..], o, args)
      invariant forall w: nat :: |args| < w < |args| + z ==> Word(stack[..], off, w) == 0
    {
      ZeroNext(stack[..], off, sb, args, z);
      StringsStay(stack[..], o, args, off + 8 * (|args| + z), Le(0, 8));
      Store(stack, off + 8 * (|args| + z), Le(0, 8));
    }
    assert Word(stack[..], off, |args| + 1) == 0 && Word(stack[..], off, |args| + 2) == 0;
    assert Word(stack[..], off, |args| + 3) == 0 && Word(stack[..], off, |args| + 4) == 0;
  }

  /** exec's argument passing; base is where the stack page is mapped; None is the failure return. */
  method BuildStack(base: nat, args: seq<Text>, stack: array<byte>, argbuf: array<byte>) returns (r: Option<nat>)
    requires PGSIZE <= base <= MAXUVA && base % PGSIZE == 0 && forall m :: 0 <= m < |args| ==> NulFree(args[m])
    requires stack != argbuf && stack.Length == PGSIZE && argbuf.Length == PGSIZE
    modifies stack, argbuf
    ensures r.Some? <==> FitsStack(base, args)
    ensures r.Some? ==> Decode(stack[..], base, r.value) == Some(args)
    ensures r.Some? ==> r.value % 16 == 0 && base <= r.value < base + PGSIZE
  {
    hide NulFree, Le, Word, Patch, BlockTo, StringsIn, Pow256, Down16, Decode;
    var ok, argc, pos := Gather(args, argbuf);
    if !ok { return None; }
    Down16Is(base + PGSIZE - pos);
    var strbase := Down16(base + PGSIZE - pos);
    BaseBelow(base, pos);
    if pos != 0 { Store(stack, strbase - base, argbuf[..pos]); }
    var infosz := (argc + 5) * 8;
    var sp := Down16(strbase - infosz);
    if sp < base { return None; }
    LayoutOk(base, args);
    JustStored(old(stack[..]), stack[..], strbase - base, args);
    PutPointers(stack, argbuf, sp - base, strbase - base, base, args);
    PutTerminators(stack, sp - base, strbase - base, strbase, args);
    AllWritten(stack[..], base, strbase, sp, args);
    DecodeBack(stack[..], base, strbase, sp, args);
    r := Some(sp);
  }

  lemma BaseBelow(base: nat, pos: nat)
    requires base % PGSIZE == 0 && pos <= PGSIZE
    ensures base <= StrBase(base, pos)
  {
  }

  lemma JustStored(was: Text, now: Text, o: nat, args: seq<Text>)
    requires o + |Packed(args)| <= |was| && |now| == |was|
    requires if Packed(args) == [] then now == was else now == Patch(was, o, Packed(args))
    ensures StringsIn(now, o, args)
  {
  }

  lemma AllWritten(page: Text, base: nat, sb: nat, sp: nat, args: seq<Text>)
    requires |page| == PGSIZE && base <= sp && sp + (|args| + 5) * 8 <= sb && sb + |Packed(args)| <= base + PGSIZE
    requires BlockTo(page, sp - base, sb, args, |args|) && StringsIn(page, sb - base, args) && Terminated(page, sp - base, |args|)
    ensures Written(page, base, sb, sp, args)
  {
  }
}

/**
 Tokens of a flattened device tree (section 5.4 of the Devicetree Specification v0.4) and
 fdt_next_tag, which reads one back from the bytes.

 A pointer into the structure or the strings block is an offset into it.
 */
module FdtTokens {
  import opened Wrappers
  import opened Bytes

  const TWO32: nat := 0x1_0000_0000

  const FDT_BEGIN_NODE: nat := 1
  const FDT_END_NODE: nat := 2
  const FDT_PROP: nat := 3
  const FDT_NOP: nat := 4
  const FDT_END: nat := 9

  /** The structure block and the strings block. */
  datatype Blob = Blob(block: Text, strings: Text)

  datatype Token = Begin(name: Text) | EndNode | Prop(nameoff: nat, value: Text) | Nop | End

  /** struct fdt_tag, with its pointers as offsets. */
  datatype Tag = BeginTag(nameAt: nat) | EndNodeTag | PropTag(nameAt: nat, valueAt: nat, len: nat) | NopTag | EndTag

  /* ---- big-endian cells ---- */

  function Be32(v: nat): (s: Text)
    ensures |s| == 4
  {
    [v / 256 / 256 / 256 % 256, v / 256 / 256 % 256, v / 256 % 256, v % 256]
  }

  /** fdt32 of the cell at p */
  function U32(s: Text, p: nat): nat
    requires p + 4 <= |s|
  {
    var b0: nat, b1: nat, b2: nat, b3: nat := s[p], s[p + 1], s[p + 2], s[p + 3];
    b0 * 0x100_0000 + b1 * 0x1_0000 + b2 * 0x100 + b3
  }

  lemma Be32Back(v: nat)
    requires v < TWO32
    ensures U32(Be32(v), 0) == v
  {
    var a := v / 256;
    var b := a / 256;
    var c := b / 256;
    assert v == 256 * a + v % 256 && a == 256 * b + a % 256 && b == 256 * c + b % 256;
    assert c < 256;
  }

  /** A cell inside a longer text. */
  lemma U32At(s: Text, p: nat, v: nat)
    requires p + 4 <= |s| && s[p..p + 4] == Be32(v) && v < TWO32
    ensures U32(s, p) == v
  {
    hide Be32;
    var c := s[p..p + 4];
    assert c[0] == s[p] && c[1] == s[p + 1] && c[2] == s[p + 2] && c[3] == s[p + 3];
    assert U32(s, p) == U32(c, 0);
    Be32Back(v);
  }

  /* ---- flattening one token ---- */

  function Zeros(n: nat): (s: Text)
    ensures |s| == n
  {
    seq(n, _ => 0)
  }

  function Pad(n: nat): (k: nat)
    ensures k < 4 && (n + k) % 4 == 0
  {
    (4 - n % 4) % 4
  }

  function Encode(t: Token): Text {
    match t
    case Begin(name) => Be32(FDT_BEGIN_NODE) + (name + [0]) + Zeros(Pad(|name| + 1))
    case EndNode => Be32(FDT_END_NODE)
    case Prop(nameoff, value) => Be32(FDT_PROP) + Be32(|value|) + Be32(nameoff) + value + Zeros(Pad(|value|))
    case Nop => Be32(FDT_NOP)
    case End => Be32(FDT_END)
  }

  /** A token that can be flattened: names are C strings, numbers fit their cells. */
  predicate TokenOk(strings: Text, t: Token) {
    match t
    case Begin(name) => NulFree(name) && |name| + 4 < TWO32
    case Prop(nameoff, value) => nameoff < |strings| && CString(strings, nameoff).Some? && nameoff < TWO32 && |value| + 3 < TWO32
    case _ => true
  }

  /** Token t stands at offset p of the structure block. */
  ghost predicate Stands(b: Blob, p: nat, t: Token) {
    && TokenOk(b.strings, t) && p + |Encode(t)| <= |b.block|
    && b.block[p..p + |Encode(t)|] == Encode(t)
  }

  function TagOf(p: nat, t: Token): Tag {
    match t
    case Begin(_) => BeginTag(p + 4)
    case EndNode => EndNodeTag
    case Prop(nameoff, value) => PropTag(nameoff, p + 12, |value|)
    case Nop => NopTag
    case End => EndTag
  }

  function CodeOf(t: Token): nat {
    match t
    case Begin(_) => FDT_BEGIN_NODE
    case EndNode => FDT_END_NODE
    case Prop(_, _) => FDT_PROP
    case Nop => FDT_NOP
    case End => FDT_END
  }

  function Align4(v: nat): nat { (v + 3) % TWO32 / 4 * 4 }

  lemma EncodeSize(t: Token)
    ensures |Encode(t)| % 4 == 0 && |Encode(t)| >= 4
  {
    match t
    case Begin(name) =>
      assert |Encode(t)| == 4 + (|name| + 1 + Pad(|name| + 1));
      Fours(|name| + 1 + Pad(|name| + 1), 1);
    case Prop(nameoff, value) =>
      assert |Encode(t)| == 12 + (|value| + Pad(|value|));
      Fours(|value| + Pad(|value|), 3);
    case _ =>
  }

  lemma Fours(x: nat, k: nat)
    requires x % 4 == 0
    ensures (4 * k + x) % 4 == 0
  {
  }

  lemma AlignPad(n: nat)
    requires n + 3 < TWO32
    ensures Align4(n) == n + Pad(n)
  {
  }

  lemma SubSlice(s: Text, p: nat, n: nat, lo: nat, hi: nat)
    requires p + n <= |s| && lo <= hi <= n
    ensures s[p..p + n][lo..hi] == s[p + lo..p + hi]
  {
    var e, a, b := s[p..p + n], s[p..p + n][lo..hi], s[p + lo..p + hi];
    forall k | 0 <= k < hi - lo ensures a[k] == b[k] { assert a[k] == e[lo + k]; }
  }

  /** A piece of the encoding is where it should be in the block. */
  lemma Piece(b: Blob, p: nat, t: Token, lo: nat, hi: nat)
    requires Stands(b, p, t) && lo <= hi <= |Encode(t)|
    ensures p + hi <= |b.block| && b.block[p + lo..p + hi] == Encode(t)[lo..hi]
  {
    hide Encode, TokenOk;
    SubSlice(b.block, p, |Encode(t)|, lo, hi);
  }

  lemma StandsCode(b: Blob, p: nat, t: Token)
    requires Stands(b, p, t)
    ensures p + 4 <= |b.block| && U32(b.block, p) == CodeOf(t)
  {
    EncodeSize(t);
    Piece(b, p, t, 0, 4);
    assert Encode(t)[0..4] == Be32(CodeOf(t));
    U32At(b.block, p, CodeOf(t));
  }

  lemma StandsBegin(b: Blob, p: nat, t: Token)
    requires Stands(b, p, t) && t.Begin?
    ensures CString(b.block, p + 4) == Some(t.name) && |Encode(t)| == 4 + Align4(|t.name| + 1)
  {
    var n := |t.name|;
    AlignPad(n + 1);
    Piece(b, p, t, 4, 4 + n + 1);
    assert Encode(t)[4..4 + n + 1] == t.name + [0];
    CStringOf(b.block, p + 4, t.name);
  }

  lemma StandsProp(b: Blob, p: nat, t: Token)
    requires Stands(b, p, t) && t.Prop?
    ensures p + 12 <= |b.block| && U32(b.block, p + 4) == |t.value| && U32(b.block, p + 8) == t.nameoff
    ensures |Encode(t)| == 12 + Align4(|t.value|) && p + 12 + |t.value| <= |b.block| && b.block[p + 12..p + 12 + |t.value|] == t.value
  {
    var n := |t.value|;
    AlignPad(n);
    var e := Encode(t);
    Piece(b, p, t, 4, 8);
    Piece(b, p, t, 8, 12);
    Piece(b, p, t, 12, 12 + n);
    assert e[4..8] == Be32(n) && e[8..12] == Be32(t.nameoff) && e[12..12 + n] == t.value;
    U32At(b.block, p + 4, n);
    U32At(b.block, p + 8, t.nameoff);
  }

  /* ---- reading ---- */

  /** fdt_namelen: the length with the NUL, or 0 if the text runs out first. */
  method NameLen(s: Text, at: nat) returns (n: nat)
    requires at <= |s|
    ensures n == 0 <==> CString(s, at).None?
    ensures n > 0 ==> n == |CString(s, at).value| + 1 && at + n <= |s|
  {
    var q := at;
    ghost var whole := CString(s, at);
    while q < |s| && s[q] != 0
      invariant at <= q <= |s|
      invariant CString(s, q).None? <==> whole.None?
      invariant whole.Some? ==> |whole.value| == q - at + |CString(s, q).value|
      decreases |s| - q
    {
      q := q + 1;
    }
    n := if q < |s| then q - at + 1 else 0;
  }

  method ReadBegin(b: Blob, p: nat) returns (r: Option<(Tag, nat)>)
    requires |b.block| % 4 == 0 && p % 4 == 0 && p + 4 <= |b.block|
    ensures r.Some? ==> p < r.value.1 <= |b.block| && r.value.1 % 4 == 0
    ensures forall t :: Stands(b, p, t) && t.Begin? ==> r == Some((TagOf(p, t), p + |Encode(t)|))
  {
    hide CString, Align4, Encode, Stands;
    KnownBegin(b, p);
    var n := NameLen(b.block, p + 4);
    if n == 0 { return None; }
    AlignMod(n);
    AlignRoom(n, |b.block| - (p + 4));
    r := Some((BeginTag(p + 4), p + 4 + Align4(n)));
  }

  method ReadProp(b: Blob, p: nat) returns (r: Option<(Tag, nat)>)
    requires |b.block| % 4 == 0 && p % 4 == 0 && p + 4 <= |b.block|
    ensures r.Some? ==> p < r.value.1 <= |b.block| && r.value.1 % 4 == 0
    ensures forall t :: Stands(b, p, t) && t.Prop? ==> r == Some((TagOf(p, t), p + |Encode(t)|))
  {
    hide U32, Align4, Encode, Stands;
    KnownProp(b, p);
    if p + 12 > |b.block| { return None; }
    var len, nameoff := U32(b.block, p + 4), U32(b.block, p + 8);
    if nameoff >= |b.strings| { return None; }
    if p + 12 + Align4(len) > |b.block| { return None; }
    AlignMod(len);
    r := Some((PropTag(nameoff, p + 12, len), p + 12 + Align4(len)));
  }

  /** fdt_next_tag; None is a panic.  Every token advances, and a well-formed one is read back. */
  method NextTag(b: Blob, p: nat) returns (r: Option<(Tag, nat)>)
    requires |b.block| % 4 == 0 && p % 4 == 0
    ensures r.Some? ==> p < r.value.1 <= |b.block| && r.value.1 % 4 == 0
    ensures forall t :: Stands(b, p, t) ==> r == Some((TagOf(p, t), p + |Encode(t)|))
  {
    hide U32, CString, Align4, Encode, Stands;
    if p >= |b.block| {
      NothingStands(b, p);
      return None;
    }
    KnownCode(b, p);
    var code := U32(b.block, p);
    if code == FDT_BEGIN_NODE {
      r := ReadBegin(b, p);
      return;
    } else if code == FDT_PROP {
      r := ReadProp(b, p);
      return;
    } else if code == FDT_END_NODE {
      r := Some((EndNodeTag, p + 4));
    } else if code == FDT_NOP {
      r := Some((NopTag, p + 4));
    } else if code == FDT_END {
      r := Some((EndTag, p + 4));
    } else {
      r := None;
    }
    KnownPlain(b, p);
  }

  lemma AlignMod(n: nat)
    ensures Align4(n) % 4 == 0
  {
  }

  lemma AlignRoom(n: nat, room: nat)
    requires n <= room && room % 4 == 0
    ensures Align4(n) <= room
  {
    assert (n + 3) % TWO32 <= n + 3;
    assert room == room / 4 * 4;
  }

  lemma NothingStands(b: Blob, p: nat)
    requires p >= |b.block|
    ensures forall t :: !Stands(b, p, t)
  {
    forall t ensures !Stands(b, p, t) { EncodeSize(t); }
  }

  lemma KnownCode(b: Blob, p: nat)
    requires p + 4 <= |b.block|
    ensures forall t :: Stands(b, p, t) ==> U32(b.block, p) == CodeOf(t)
  {
    forall t | Stands(b, p, t) ensures U32(b.block, p) == CodeOf(t) { StandsCode(b, p, t); }
  }

  lemma KnownBegin(b: Blob, p: nat)
    ensures forall t :: Stands(b, p, t) && t.Begin? ==>
              CString(b.block, p + 4) == Some(t.name) && |Encode(t)| == 4 + Align4(|t.name| + 1)
  {
    forall t | Stands(b, p, t) && t.Begin? ensures CString(b.block, p + 4) == Some(t.name) && |Encode(t)| == 4 + Align4(|t.name| + 1) {
      StandsBegin(b, p, t);
    }
  }

  lemma KnownProp(b: Blob, p: nat)
    ensures forall t :: Stands(b, p, t) && t.Prop? ==>
              && p + 12 <= |b.block| && U32(b.block, p + 4) == |t.value| && U32(b.block, p + 8) == t.nameoff < |b.strings|
              && |Encode(t)| == 12 + Align4(|t.value|) && p + |Encode(t)| <= |b.block|
  {
    forall t | Stands(b, p, t) && t.Prop?
      ensures && p + 12 <= |b.block| && U32(b.block, p + 4) == |t.value| && U32(b.block, p + 8) == t.nameoff < |b.strings|
              && |Encode(t)| == 12 + Align4(|t.value|) && p + |Encode(t)| <= |b.block|
    {
      StandsProp(b, p, t);
    }
  }

  lemma KnownPlain(b: Blob, p: nat)
    ensures forall t :: Stands(b, p, t) && !t.Begin? && !t.Prop? ==> |Encode(t)| == 4
  {
  }

  /** One token of each kind, as the bytes of a blob. */
  lemma LiteralBegin()
    ensures Encode(Begin([97])) == [0, 0, 0, 1, 97, 0, 0, 0]
  {
  }

  lemma LiteralProp()
    ensures Encode(Prop(258, [0, 0, 0, 7, 1])) == [0, 0, 0, 3, 0, 0, 0, 5, 0, 0, 1, 2, 0, 0, 0, 7, 1, 0, 0, 0]
  {
  }

  lemma LiteralPlain()
    ensures Encode(EndNode) == [0, 0, 0, 2] && Encode(Nop) == [0, 0, 0, 4] && Encode(End) == [0, 0, 0, 9]
    ensures U32([18, 52, 86, 120], 0) == 0x12345678
  {
  }
}

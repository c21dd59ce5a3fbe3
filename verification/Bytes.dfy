/** Bytes and C strings. */
module Bytes {
  import opened Wrappers

  type byte = x: nat | x < 256

  type Text = seq<byte>

  predicate NulFree(s: Text) {
    forall i :: 0 <= i < |s| ==> s[i] != 0
  }

  /** The bytes up to the first zero at or after off. */
  function CString(page: Text, off: nat): Option<Text>
    decreases |page| - off
  {
    if off >= |page| then None
    else if page[off] == 0 then Some([])
    else var rest := CString(page, off + 1); if rest.None? then None else Some([page[off]] + rest.value)
  }

  lemma {:induction false} CStringOf(page: Text, off: nat, s: Text)
    requires NulFree(s) && off + |s| < |page| && page[off..off + |s| + 1] == s + [0]
    ensures CString(page, off) == Some(s)
    decreases |s|
  {
    var w := page[off..off + |s| + 1];
    assert page[off] == w[0];
    if s != [] {
      assert page[off + 1..off + 1 + |s[1..]| + 1] == w[1..] == s[1..] + [0];
      CStringOf(page, off + 1, s[1..]);
      assert [s[0]] + s[1..] == s;
    }
  }
}

/** Intrusive lists as sequences of the objects on them. */
module Lists {

  predicate NoDup(xs: seq<nat>) {
    forall i, j :: 0 <= i < j < |xs| ==> xs[i] != xs[j]
  }

  /** LIST_REMOVE */
  function Without(xs: seq<nat>, s: nat): (r: seq<nat>)
    ensures forall x :: x in r <==> x in xs && x != s
  {
    if xs == [] then []
    else
      assert forall x :: x in xs <==> x == xs[0] || x in xs[1..];
      if xs[0] == s then Without(xs[1..], s) else [xs[0]] + Without(xs[1..], s)
  }

  lemma {:induction false} WithoutNoDup(xs: seq<nat>, s: nat)
    requires NoDup(xs)
    ensures NoDup(Without(xs, s))
  {
    if xs != [] {
      WithoutNoDup(xs[1..], s);
      if xs[0] != s {
        var r := Without(xs[1..], s);
        assert xs[0] !in xs[1..];
        forall i, j | 0 <= i < j < |[xs[0]] + r| ensures ([xs[0]] + r)[i] != ([xs[0]] + r)[j] {
          if i == 0 { assert r[j - 1] in r; }
        }
      }
    }
  }

  /** Putting s at the head of a list it is not on. */
  lemma PushNoDup(xs: seq<nat>, s: nat)
    requires NoDup(xs) && s !in xs
    ensures NoDup([s] + xs)
  {
    forall i, j | 0 <= i < j < |[s] + xs| ensures ([s] + xs)[i] != ([s] + xs)[j] {
      if i == 0 { assert xs[j - 1] in xs; }
    }
  }
}

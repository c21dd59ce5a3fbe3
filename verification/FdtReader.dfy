/**
 The device-tree walkers of fdt.c on the bytes: they advance a cursor token by token.

 On any blob they stop, because each token advances the cursor.  Their further contracts
 speak of a blob that holds the tokens ts, with the cursor at token i.
 */
module FdtReader {
  import opened Wrappers
  import opened Bytes
  import opened FdtTokens
  import opened FdtTree

  /** struct fdt_node, with its pointers as offsets into the structure block. */
  datatype NodeRef = NodeRef(props: nat, nameAt: nat, depth: int)

  datatype Walk = Panic | Done | Found(node: NodeRef)

  /* ---- a block of tokens ---- */

  function EncodeAll(ts: seq<Token>): Text {
    if ts == [] then [] else EncodeAll(ts[..|ts| - 1]) + Encode(ts[|ts| - 1])
  }

  /** Where token i starts. */
  function Pos(ts: seq<Token>, i: nat): nat
    requires i <= |ts|
  {
    |EncodeAll(ts[..i])|
  }

  /** The structure block begins with the tokens ts. */
  ghost predicate Encodes(b: Blob, ts: seq<Token>) {
    && EncodeAll(ts) <= b.block
    && forall i :: 0 <= i < |ts| ==> TokenOk(b.strings, ts[i])
  }

  lemma PosNext(ts: seq<Token>, i: nat)
    requires i < |ts|
    ensures EncodeAll(ts[..i + 1]) == EncodeAll(ts[..i]) + Encode(ts[i])
    ensures Pos(ts, i + 1) == Pos(ts, i) + |Encode(ts[i])|
  {
    assert ts[..i + 1][..i] == ts[..i];
  }

  lemma {:induction false} PosPrefix(ts: seq<Token>, i: nat, n: nat)
    requires i <= n <= |ts|
    ensures EncodeAll(ts[..i]) <= EncodeAll(ts[..n])
    decreases n - i
  {
    hide Encode, EncodeAll;
    if i < n {
      PosPrefix(ts, i, n - 1);
      PosNext(ts, n - 1);
    }
  }

  lemma StandsAt(b: Blob, ts: seq<Token>, i: nat)
    requires Encodes(b, ts) && i < |ts|
    ensures Stands(b, Pos(ts, i), ts[i]) && Pos(ts, i + 1) == Pos(ts, i) + |Encode(ts[i])|
  {
    hide Encode, TokenOk, EncodeAll;
    PosNext(ts, i);
    PosPrefix(ts, i + 1, |ts|);
    assert ts[..|ts|] == ts;
    var a, e := EncodeAll(ts[..i]), Encode(ts[i]);
    assert a + e <= b.block;
    assert b.block[|a|..|a| + |e|] == (a + e)[|a|..];
  }

  /* ---- the next node, over tokens ---- */

  datatype Sought = Lost | AtEnd | AtNode(i: nat, depth: int)

  function Seek(ts: seq<Token>, i: nat, d: int): (r: Sought)
    ensures r.AtNode? ==> i < r.i <= |ts| && ts[r.i - 1].Begin?
    decreases |ts| - i
  {
    if i >= |ts| then Lost
    else
      match ts[i]
      case Begin(_) => AtNode(i + 1, d + 1)
      case EndNode => Seek(ts, i + 1, d - 1)
      case End => AtEnd
      case _ => Seek(ts, i + 1, d)
  }

  /** The node whose BEGIN_NODE ends at token j, and the walk from there. */
  function VisitsFrom(ts: seq<Token>, j: nat, e: int): seq<Visit>
    requires 0 < j <= |ts| && ts[j - 1].Begin?
  {
    [Visit(ts[j - 1].name, e, NoNops(ts[j..]))] + Visits(ts[j..], e)
  }

  /** The same for subnodes of a parent at depth pd. */
  function SubsFrom(ts: seq<Token>, j: nat, e: int, pd: int): seq<Text>
    requires 0 < j <= |ts| && ts[j - 1].Begin?
  {
    if e <= pd then [] else if e == pd + 1 then [ts[j - 1].name] + Subs(ts[j..], e, pd) else Subs(ts[j..], e, pd)
  }

  /** The walk from token i is the next node and then the walk from there. */
  lemma {:induction false} SeekVisits(ts: seq<Token>, i: nat, d: int)
    requires i <= |ts|
    ensures !Seek(ts, i, d).AtNode? ==> Visits(ts[i..], d) == []
    ensures Seek(ts, i, d).AtNode? ==> Visits(ts[i..], d) == VisitsFrom(ts, Seek(ts, i, d).i, Seek(ts, i, d).depth)
    decreases |ts| - i
  {
    hide Visits, NoNops;
    NoVisits(d);
    if i < |ts| {
      assert ts[i..] == [ts[i]] + ts[i + 1..];
      VisitsStep(ts[i], ts[i + 1..], d);
      SeekVisits(ts, i + 1, if ts[i].EndNode? then d - 1 else d);
    } else {
      assert ts[i..] == [];
    }
  }

  lemma {:induction false} SeekSubs(ts: seq<Token>, i: nat, d: int, pd: int)
    requires i <= |ts|
    ensures !Seek(ts, i, d).AtNode? ==> Subs(ts[i..], d, pd) == []
    ensures Seek(ts, i, d).AtNode? ==> Subs(ts[i..], d, pd) == SubsFrom(ts, Seek(ts, i, d).i, Seek(ts, i, d).depth, pd)
    decreases |ts| - i
  {
    hide Subs;
    NoSubs(d, pd);
    if i < |ts| {
      assert ts[i..] == [ts[i]] + ts[i + 1..];
      SubsStep(ts[i], ts[i + 1..], d, pd);
      SeekSubs(ts, i + 1, if ts[i].EndNode? then d - 1 else d, pd);
    } else {
      assert ts[i..] == [];
    }
  }

  lemma NoVisits(d: int)
    ensures Visits([], d) == []
  {
  }

  lemma NoSubs(d: int, pd: int)
    ensures Subs([], d, pd) == []
  {
  }

  /** ts holds an END token at or after i. */
  ghost predicate Ends(ts: seq<Token>, i: nat) {
    exists k :: i <= k < |ts| && ts[k].End?
  }

  lemma {:induction false} SeekEnds(ts: seq<Token>, i: nat, d: int)
    requires Ends(ts, i)
    ensures !Seek(ts, i, d).Lost?
    ensures Seek(ts, i, d).AtNode? ==> Ends(ts, Seek(ts, i, d).i)
    decreases |ts| - i
  {
    var k :| i <= k < |ts| && ts[k].End?;
    if ts[i].Begin? {
      assert i + 1 <= k;
    } else if !ts[i].End? {
      assert i + 1 <= k && Ends(ts, i + 1);
      SeekEnds(ts, i + 1, if ts[i].EndNode? then d - 1 else d);
    }
  }

  /** The cursor p of blob b stands at token i of ts, with an END to come. */
  ghost predicate Cursor(b: Blob, ts: seq<Token>, i: nat, p: nat) {
    Encodes(b, ts) && i <= |ts| && p == Pos(ts, i) && Ends(ts, i)
  }

  predicate Aligned(b: Blob, p: nat) { |b.block| % 4 == 0 && p % 4 == 0 }

  function RefOf(ts: seq<Token>, i: nat, d: int): NodeRef
    requires 0 < i <= |ts|
  {
    NodeRef(Pos(ts, i), Pos(ts, i - 1) + 4, d)
  }

  /** A node reference made by the walk names its token. */
  lemma RefName(b: Blob, ts: seq<Token>, i: nat, d: int)
    requires Encodes(b, ts) && 0 < i <= |ts| && ts[i - 1].Begin?
    ensures CString(b.block, RefOf(ts, i, d).nameAt) == Some(ts[i - 1].name)
  {
    StandsAt(b, ts, i - 1);
    StandsBegin(b, Pos(ts, i - 1), ts[i - 1]);
  }

  /** What a walker returns is what was sought over the tokens, with the cursor moved there. */
  ghost predicate Answers(b: Blob, ts: seq<Token>, s: Sought, r: Walk) {
    if s.AtNode? then 0 < s.i <= |ts| && r == Found(RefOf(ts, s.i, s.depth)) && Cursor(b, ts, s.i, r.node.props)
    else s.AtEnd? && r == Done
  }

  /* ---- the walkers ---- */

  /** One turn of a walker's loop: the token under the cursor is read and passed. */
  method Turn(b: Blob, p: nat, ghost ts: seq<Token>, ghost i: nat) returns (r: Option<(Tag, nat)>)
    requires Aligned(b, p)
    ensures r.Some? ==> p < r.value.1 <= |b.block| && Aligned(b, r.value.1)
    ensures Cursor(b, ts, i, p) ==> i < |ts| && Pos(ts, i) == p && r == Some((TagOf(p, ts[i]), Pos(ts, i + 1)))
    ensures Cursor(b, ts, i, p) && !ts[i].End? ==> r.Some? && Cursor(b, ts, i + 1, r.value.1)
  {
    hide Encodes, Stands, Encode, Pos;
    r := NextTag(b, p);
    if Cursor(b, ts, i, p) { StandsAt(b, ts, i); }
  }

  /** fdt_next_node */
  method NextNode(b: Blob, node: NodeRef, ghost ts: seq<Token>, ghost i: nat) returns (r: Walk)
    requires Aligned(b, node.props)
    ensures r.Found? ==> Aligned(b, r.node.props) && node.props < r.node.props <= |b.block|
    ensures Cursor(b, ts, i, node.props) ==>
              Answers(b, ts, Seek(ts, i, node.depth), r)
  {
    hide Encodes, Pos, Ends;
    var p, depth := node.props, node.depth;
    ghost var j: nat := i;
    ghost var well := Cursor(b, ts, i, p);
    if well { SeekEnds(ts, i, depth); }
    while true
      invariant Aligned(b, p) && p >= node.props
      invariant well ==> Cursor(b, ts, j, p) && Seek(ts, j, depth) == Seek(ts, i, node.depth)
      decreases |b.block| - p
    {
      var t := Turn(b, p, ts, j);
      if t.None? { return Panic; }
      ghost var q := p;
      p := t.value.1;
      match t.value.0 {
        case BeginTag(nameAt) =>
          return Found(NodeRef(p, nameAt, depth + 1));
        case EndNodeTag =>
          depth := depth - 1;
        case EndTag =>
          return Done;
        case _ =>
      }
      j := j + 1;
    }
  }

  /** fdt_first_node */
  method FirstNode(b: Blob, ghost ts: seq<Token>) returns (r: Walk)
    requires Aligned(b, 0)
    ensures r.Found? ==> Aligned(b, r.node.props) && r.node.props <= |b.block|
    ensures Encodes(b, ts) && Ends(ts, 0) ==>
              Answers(b, ts, Seek(ts, 0, -1), r)
  {
    hide Encodes, Ends;
    r := NextNode(b, NodeRef(0, 0, -1), ts, 0);
  }

  /** fdt_next_subnode, for a parent at depth pd: the next name of Subs, or its end. */
  method NextSubnode(b: Blob, pd: int, child: NodeRef, ghost ts: seq<Token>, ghost i: nat) returns (r: Walk, ghost j: nat)
    requires Aligned(b, child.props)
    ensures r.Found? ==> Aligned(b, r.node.props) && r.node.depth == pd + 1
    ensures Cursor(b, ts, i, child.props) && r.Found? ==>
              && i < j <= |ts| && ts[j - 1].Begin? && r.node == RefOf(ts, j, pd + 1) && Cursor(b, ts, j, r.node.props)
              && Subs(ts[i..], child.depth, pd) == [ts[j - 1].name] + Subs(ts[j..], pd + 1, pd)
    ensures Cursor(b, ts, i, child.props) && !r.Found? ==> r == Done && Subs(ts[i..], child.depth, pd) == []
  {
    hide Encodes, Ends, Pos, Subs;
    var c := child;
    j := i;
    ghost var well := Cursor(b, ts, i, child.props);
    if well { SeekSubs(ts, j, c.depth, pd); }
    r := NextNode(b, c, ts, j);
    while r.Found?
      invariant r.Found? ==> Aligned(b, r.node.props) && r.node.props <= |b.block|
      invariant well ==> i <= j && Cursor(b, ts, j, c.props) && Subs(ts[j..], c.depth, pd) == Subs(ts[i..], child.depth, pd)
      invariant well ==> Answers(b, ts, Seek(ts, j, c.depth), r)
      decreases r.Found?, if r.Found? then |b.block| - r.node.props else 0
    {
      if well {
        SeekSubs(ts, j, c.depth, pd);
        j := Seek(ts, j, c.depth).i;
      }
      c := r.node;
      if c.depth <= pd { return Done, j; }
      if c.depth == pd + 1 { return Found(c), j; }
      if well { SeekSubs(ts, j, c.depth, pd); }
      r := NextNode(b, c, ts, j);
    }
    if well { SeekSubs(ts, j, c.depth, pd); }
  }

  datatype PropResult = PropPanic | Absent | Present(valueAt: nat, len: nat)

  /** The result is absent with the value, or is where the value stands. */
  predicate Points(block: Text, r: PropResult, v: Option<Text>) {
    if v.None? then r == Absent
    else r.Present? && r.len == |v.value| && r.valueAt + r.len <= |block| && block[r.valueAt..r.valueAt + r.len] == v.value
  }

  /** fdt_getprop */
  method GetProp(b: Blob, node: NodeRef, name: Text, ghost ts: seq<Token>, ghost i: nat) returns (r: PropResult)
    requires Aligned(b, node.props)
    ensures Cursor(b, ts, i, node.props) ==> Points(b.block, r, FindProp(b.strings, ts[i..], name))
  {
    hide Encodes, Pos, Ends, FindProp, CString, Stands, Encode;
    var p := node.props;
    ghost var j: nat := i;
    ghost var well := Cursor(b, ts, i, p);
    while true
      invariant Aligned(b, p)
      invariant well ==> Cursor(b, ts, j, p) && FindProp(b.strings, ts[j..], name) == FindProp(b.strings, ts[i..], name)
      decreases |b.block| - p
    {
      var t := Turn(b, p, ts, j);
      if t.None? { return PropPanic; }
      if well {
        assert ts[j..] == [ts[j]] + ts[j + 1..];
        FindStep(b.strings, ts[j], ts[j + 1..], name);
        StandsAt(b, ts, j);
        if ts[j].Prop? { StandsProp(b, p, ts[j]); }
      }
      p := t.value.1;
      match t.value.0 {
        case NopTag =>
        case PropTag(nameAt, valueAt, len) =>
          if CString(b.strings, nameAt) == Some(name) { return Present(valueAt, len); }
        case _ =>
          return Absent;
      }
      j := j + 1;
    }
  }

  /** fdt_prop_u32 on the result of a lookup: the first cell of a property of four bytes or more. */
  function CellOf(v: Option<Text>): Option<nat> {
    if v.Some? && |v.value| >= 4 then Some(U32(v.value, 0)) else None
  }

  /** fdt_prop_u32; a panic in the lookup is a panic here. */
  method PropU32(b: Blob, node: NodeRef, name: Text, ghost ts: seq<Token>, ghost i: nat) returns (panicked: bool, out: Option<nat>)
    requires Aligned(b, node.props)
    ensures Cursor(b, ts, i, node.props) ==> !panicked && out == CellOf(FindProp(b.strings, ts[i..], name))
  {
    hide Cursor, FindProp;
    var r := GetProp(b, node, name, ts, i);
    if r.PropPanic? { return true, None; }
    if r.Absent? || r.len < 4 { return false, None; }
    if r.valueAt + r.len > |b.block| { return true, None; }
    SameCell(b.block, r.valueAt, r.len);
    return false, Some(U32(b.block, r.valueAt));
  }

  lemma SameCell(s: Text, p: nat, n: nat)
    requires p + n <= |s| && n >= 4
    ensures U32(s[p..p + n], 0) == U32(s, p)
  {
    var c := s[p..p + n];
    assert c[0] == s[p] && c[1] == s[p + 1] && c[2] == s[p + 2] && c[3] == s[p + 3];
  }

  /** "phandle" */
  const Phandle: Text := [112, 104, 97, 110, 100, 108, 101]

  /** A node of the tree with that handle. */
  predicate HasHandle(strings: Text, n: Node, handle: nat) {
    var k := FirstNamed(strings, n.props, Phandle);
    k < |n.props| && n.props[k].Prop? && |n.props[k].value| >= 4 && U32(n.props[k].value, 0) == handle
  }

  /** The walk stands at the k-th node that it meets, token i. */
  ghost predicate AtVisit(b: Blob, ts: seq<Token>, i: nat, node: NodeRef, k: nat) {
    && Cursor(b, ts, i, node.props) && 0 < i && ts[i - 1].Begin? && node == RefOf(ts, i, node.depth)
    && k < |Visits(ts, -1)| && Visits(ts, -1)[k] == Visit(ts[i - 1].name, node.depth, NoNops(ts[i..]))
    && Visits(ts, -1)[k + 1..] == Visits(ts[i..], node.depth)
  }

  lemma FirstVisit(b: Blob, ts: seq<Token>, r: Walk)
    requires Answers(b, ts, Seek(ts, 0, -1), r)
    ensures r.Found? ==> AtVisit(b, ts, Seek(ts, 0, -1).i, r.node, 0)
    ensures !r.Found? ==> Visits(ts, -1) == []
  {
    SeekVisits(ts, 0, -1);
    assert ts[0..] == ts;
  }

  lemma NextVisit(b: Blob, ts: seq<Token>, i: nat, node: NodeRef, k: nat, r: Walk)
    requires AtVisit(b, ts, i, node, k)
    requires Answers(b, ts, Seek(ts, i, node.depth), r)
    ensures r.Found? ==> AtVisit(b, ts, Seek(ts, i, node.depth).i, r.node, k + 1)
    ensures !r.Found? ==> k + 1 == |Visits(ts, -1)|
  {
    hide Visits, Cursor, NoNops, Pos;
    SeekVisits(ts, i, node.depth);
    if r.Found? {
      var j := Seek(ts, i, node.depth).i;
      TailStep(Visits(ts, -1), k + 1, Visit(ts[j - 1].name, r.node.depth, NoNops(ts[j..])), Visits(ts[j..], r.node.depth));
    } else {
      TailNone(Visits(ts, -1), k + 1);
    }
  }

  lemma TailStep(vs: seq<Visit>, k: nat, v: Visit, rest: seq<Visit>)
    requires k <= |vs| && vs[k..] == [v] + rest
    ensures k < |vs| && vs[k] == v && vs[k + 1..] == rest
  {
    assert vs[k..][0] == v;
    assert vs[k..][1..] == rest;
    assert vs[k..][1..] == vs[k + 1..];
  }

  lemma TailNone(vs: seq<Visit>, k: nat)
    requires k <= |vs| && vs[k..] == []
    ensures k == |vs|
  {
  }

  /** At the k-th node the handle read is the k-th node's in document order. */
  lemma VisitHandle(b: Blob, root: Node, ts: seq<Token>, i: nat, node: NodeRef, k: nat, handle: nat)
    requires AtVisit(b, ts, i, node, k) && Trees(root, 0) && Meets(Visits(ts, -1), Preorder(root, 0))
    ensures k < |Preorder(root, 0)|
    ensures CellOf(FindProp(b.strings, ts[i..], Phandle)) == Some(handle) <==> HasHandle(b.strings, Preorder(root, 0)[k].node, handle)
    ensures CString(b.block, node.nameAt) == Some(Preorder(root, 0)[k].node.name) && node.depth == Preorder(root, 0)[k].depth
  {
    hide Visits, Preorder, NoNops, FindProp, FirstNamed, Body;
    var n := Preorder(root, 0)[k].node;
    var rest := NoNops(ts[i..])[|Body(n)|..];
    assert NoNops(ts[i..]) == Body(n) + rest;
    PropInverts(b.strings, n, rest, ts[i..], Phandle);
    RefName(b, ts, i, node.depth);
  }

  /** Every node of the tree is well formed. */
  predicate Trees(root: Node, d: int) {
    forall k :: 0 <= k < |Preorder(root, d)| ==> TreeOk(Preorder(root, d)[k].node)
  }

  lemma {:induction false} TreesAll(root: Node, d: int)
    requires TreeOk(root)
    ensures Trees(root, d)
    decreases root, 1
  {
    TreesAllOf(root.kids, d + 1);
  }

  lemma {:induction false} TreesAllOf(ns: seq<Node>, d: int)
    requires TreesOk(ns)
    ensures forall k :: 0 <= k < |PreorderAll(ns, d)| ==> TreeOk(PreorderAll(ns, d)[k].node)
    decreases ns
  {
    if ns != [] {
      TreesAll(ns[0], d);
      TreesAllOf(ns[1..], d);
    }
  }

  lemma {:induction false} EndIn(ts: seq<Token>)
    requires End in NoNops(ts)
    ensures Ends(ts, 0)
  {
    if ts[0].End? {
      assert Ends(ts, 0);
    } else {
      EndIn(ts[1..]);
      var k :| 0 <= k < |ts[1..]| && ts[1..][k].End?;
      assert ts[k + 1].End?;
    }
  }

  lemma FlattensEnds(root: Node, ts: seq<Token>)
    requires Flattens(root, ts)
    ensures Ends(ts, 0)
  {
    assert NoNops(ts)[|Flat(root)|] == End;
    EndIn(ts);
  }

  /** Where the search stands: nodes before the k-th do not have the handle, and r is at the k-th or past the end. */
  ghost predicate Searching(b: Blob, root: Node, ts: seq<Token>, handle: nat, i: nat, k: nat, r: Walk) {
    && |Visits(ts, -1)| == |Preorder(root, 0)| && k <= |Preorder(root, 0)|
    && (forall m :: 0 <= m < k ==> !HasHandle(b.strings, Preorder(root, 0)[m].node, handle))
    && (if r.Found? then AtVisit(b, ts, i, r.node, k) else r.Done? && k == |Preorder(root, 0)|)
  }

  /** The tree the blob was made from. */
  ghost predicate Source(b: Blob, root: Node, ts: seq<Token>) {
    Encodes(b, ts) && TreeOk(root) && Flattens(root, ts)
  }

  lemma SearchStarts(b: Blob, root: Node, ts: seq<Token>, handle: nat, r: Walk)
    requires Source(b, root, ts) && Answers(b, ts, Seek(ts, 0, -1), r)
    ensures Searching(b, root, ts, handle, if r.Found? then Seek(ts, 0, -1).i else 0, 0, r)
  {
    hide Encodes, TreeOk, Flattens, Preorder, HasHandle, AtVisit, Visits;
    WalkInverts(root, ts);
    MeetsSize(Visits(ts, -1), Preorder(root, 0));
    FirstVisit(b, ts, r);
  }

  lemma SearchGoesOn(b: Blob, root: Node, ts: seq<Token>, handle: nat, i: nat, k: nat, r: Walk, r': Walk)
    requires Searching(b, root, ts, handle, i, k, r) && r.Found? && k < |Preorder(root, 0)|
    requires !HasHandle(b.strings, Preorder(root, 0)[k].node, handle)
    requires Answers(b, ts, Seek(ts, i, r.node.depth), r')
    ensures Searching(b, root, ts, handle, if r'.Found? then Seek(ts, i, r.node.depth).i else i, k + 1, r')
  {
    hide Preorder, HasHandle, AtVisit, Visits, Seek, Cursor;
    NextVisit(b, ts, i, r.node, k, r');
  }

  /** What the search knows about the node it stands at. */
  lemma SearchHere(b: Blob, root: Node, ts: seq<Token>, handle: nat, i: nat, k: nat, r: Walk)
    requires Source(b, root, ts) && Searching(b, root, ts, handle, i, k, r) && r.Found?
    ensures i <= |ts| && Cursor(b, ts, i, r.node.props) && k < |Preorder(root, 0)|
    ensures CellOf(FindProp(b.strings, ts[i..], Phandle)) == Some(handle) <==> HasHandle(b.strings, Preorder(root, 0)[k].node, handle)
    ensures CString(b.block, r.node.nameAt) == Some(Preorder(root, 0)[k].node.name) && r.node.depth == Preorder(root, 0)[k].depth
  {
    hide Encodes, TreeOk, Flattens, Preorder, HasHandle, AtVisit, Visits, Cursor, FindProp, CellOf, CString, Trees, Meets;
    VisitCursor(b, ts, i, r.node, k);
    WalkInverts(root, ts);
    TreesAll(root, 0);
    VisitHandle(b, root, ts, i, r.node, k, handle);
  }

  /** r is the first node in document order that has the handle, or says that no node has. */
  ghost predicate FirstWith(b: Blob, root: Node, handle: nat, r: Walk) {
    match r
    case Panic => false
    case Done => forall m :: 0 <= m < |Preorder(root, 0)| ==> !HasHandle(b.strings, Preorder(root, 0)[m].node, handle)
    case Found(node) => exists k :: 0 <= k < |Preorder(root, 0)| && IsFirst(b, Preorder(root, 0), handle, k, node)
  }

  ghost predicate IsFirst(b: Blob, ps: seq<Placed>, handle: nat, k: nat, node: NodeRef)
    requires k < |ps|
  {
    && HasHandle(b.strings, ps[k].node, handle) && (forall m :: 0 <= m < k ==> !HasHandle(b.strings, ps[m].node, handle))
    && node.depth == ps[k].depth && CString(b.block, node.nameAt) == Some(ps[k].node.name)
  }

  /** fdt_node_by_phandle: on a flattened tree, the first node in document order that has the handle. */
  method NodeByPhandle(b: Blob, handle: nat, ghost root: Node, ghost ts: seq<Token>) returns (r: Walk)
    requires Aligned(b, 0)
    ensures Source(b, root, ts) ==> FirstWith(b, root, handle, r)
  {
    hide FirstWith, Source, Searching, Preorder, HasHandle, Cursor, Ends, FindProp, CellOf, Seek, CString;
    ghost var i: nat, k: nat := 0, 0;
    ghost var well := Source(b, root, ts);
    if well { SourceEnds(b, root, ts); }
    r := FirstNode(b, ts);
    if well {
      SearchStarts(b, root, ts, handle, r);
      i := if r.Found? then Seek(ts, 0, -1).i else 0;
    }
    while r.Found?
      invariant r.Found? ==> Aligned(b, r.node.props) && r.node.props <= |b.block|
      invariant well ==> Searching(b, root, ts, handle, i, k, r)
      decreases r.Found?, if r.Found? then |b.block| - r.node.props else 0
    {
      if well { SearchHere(b, root, ts, handle, i, k, r); }
      var panicked, v := PropU32(b, r.node, Phandle, ts, i);
      if panicked { return Panic; }
      if v == Some(handle) {
        if well { SearchFound(b, root, ts, handle, i, k, r); }
        return;
      }
      ghost var r0 := r;
      r := NextNode(b, r.node, ts, i);
      if well {
        SearchGoesOn(b, root, ts, handle, i, k, r0, r);
        i := if r.Found? then Seek(ts, i, r0.node.depth).i else i;
        k := k + 1;
      }
    }
    if well { SearchOver(b, root, ts, handle, i, k, r); }
  }

  lemma SourceEnds(b: Blob, root: Node, ts: seq<Token>)
    requires Source(b, root, ts)
    ensures Encodes(b, ts) && Ends(ts, 0)
  {
    FlattensEnds(root, ts);
  }

  lemma SearchFound(b: Blob, root: Node, ts: seq<Token>, handle: nat, i: nat, k: nat, r: Walk)
    requires Source(b, root, ts) && Searching(b, root, ts, handle, i, k, r) && r.Found? && i <= |ts|
    requires CellOf(FindProp(b.strings, ts[i..], Phandle)) == Some(handle)
    ensures FirstWith(b, root, handle, r)
  {
    hide Source, AtVisit, Visits, Preorder, HasHandle, FindProp, CellOf, CString, Cursor;
    SearchHere(b, root, ts, handle, i, k, r);
    assert IsFirst(b, Preorder(root, 0), handle, k, r.node);
  }

  lemma SearchOver(b: Blob, root: Node, ts: seq<Token>, handle: nat, i: nat, k: nat, r: Walk)
    requires Searching(b, root, ts, handle, i, k, r) && !r.Found?
    ensures FirstWith(b, root, handle, r)
  {
    hide AtVisit, Visits, Preorder, HasHandle;
  }

  lemma MeetsSize(vs: seq<Visit>, ps: seq<Placed>)
    requires Meets(vs, ps)
    ensures |vs| == |ps|
  {
  }

  lemma VisitCursor(b: Blob, ts: seq<Token>, i: nat, node: NodeRef, k: nat)
    requires AtVisit(b, ts, i, node, k)
    ensures Cursor(b, ts, i, node.props) && i <= |ts|
  {
  }
}

/**
 Walking a flattened device tree (fdt.c): for every tree, flattened with NOP tokens
 anywhere between its tokens, node iteration gives the nodes in document order with their
 depths, subnode iteration the children, and property lookup the first of that name.
 */
module FdtTree {
  import opened Wrappers
  import opened Bytes
  import opened FdtTokens

  datatype Node = Node(name: Text, props: seq<Token>, kids: seq<Node>)

  /** Properties are property tokens, all the way down. */
  predicate TreeOk(n: Node) {
    && (forall i :: 0 <= i < |n.props| ==> n.props[i].Prop?)
    && forall i :: 0 <= i < |n.kids| ==> TreeOk(n.kids[i])
  }

  predicate TreesOk(ns: seq<Node>) {
    forall i :: 0 <= i < |ns| ==> TreeOk(ns[i])
  }

  /* ---- flattening ---- */

  function Flat(n: Node): seq<Token>
    decreases n, 1
  {
    [Begin(n.name)] + Body(n)
  }

  /** What follows a node's BEGIN_NODE, up to and with its END_NODE. */
  function Body(n: Node): seq<Token>
    decreases n, 0
  {
    n.props + FlatAll(n.kids) + [EndNode]
  }

  function FlatAll(ns: seq<Node>): seq<Token> {
    if ns == [] then [] else Flat(ns[0]) + FlatAll(ns[1..])
  }

  function NoNops(ts: seq<Token>): seq<Token> {
    if ts == [] then []
    else if ts[0].Nop? then NoNops(ts[1..])
    else [ts[0]] + NoNops(ts[1..])
  }

  /** ts flattens the tree, with NOPs anywhere. */
  predicate Flattens(root: Node, ts: seq<Token>) {
    NoNops(ts) == Flat(root) + [End]
  }

  /* ---- document order ---- */

  datatype Placed = Placed(node: Node, depth: int)

  function Preorder(n: Node, d: int): seq<Placed>
    decreases n
  {
    [Placed(n, d)] + PreorderAll(n.kids, d + 1)
  }

  function PreorderAll(ns: seq<Node>, d: int): seq<Placed> {
    if ns == [] then [] else Preorder(ns[0], d) + PreorderAll(ns[1..], d)
  }

  /** A node met by the walk: its name, its depth, and the tokens that follow its BEGIN_NODE. */
  datatype Visit = Visit(name: Text, depth: int, rest: seq<Token>)

  function Visits(ts: seq<Token>, d: int): seq<Visit> {
    if ts == [] then []
    else
      match ts[0]
      case Begin(n) => [Visit(n, d + 1, NoNops(ts[1..]))] + Visits(ts[1..], d + 1)
      case EndNode => Visits(ts[1..], d - 1)
      case End => []
      case _ => Visits(ts[1..], d)
  }

  /** The walk meets exactly these nodes, each at the start of its own body. */
  ghost predicate Meets(vs: seq<Visit>, ps: seq<Placed>) {
    && |vs| == |ps|
    && forall k :: 0 <= k < |vs| ==>
         vs[k].name == ps[k].node.name && vs[k].depth == ps[k].depth && Body(ps[k].node) <= vs[k].rest
  }

  lemma MeetsConcat(vs: seq<Visit>, vs': seq<Visit>, ps: seq<Placed>, ps': seq<Placed>)
    requires Meets(vs, ps) && Meets(vs', ps')
    ensures Meets(vs + vs', ps + ps')
  {
    hide Body;
  }

  lemma {:induction false} NoNopsIdem(ts: seq<Token>)
    ensures NoNops(NoNops(ts)) == NoNops(ts)
  {
    if ts != [] {
      NoNopsIdem(ts[1..]);
      if !ts[0].Nop? { assert NoNops(ts)[1..] == NoNops(ts[1..]); }
    }
  }

  /** NOPs do not show. */
  lemma {:induction false} VisitsNoNops(ts: seq<Token>, d: int)
    ensures Visits(NoNops(ts), d) == Visits(ts, d)
  {
    if ts != [] {
      var t := ts[0];
      NoNopsIdem(ts[1..]);
      if !t.Nop? { assert NoNops(ts)[1..] == NoNops(ts[1..]); }
      VisitsNoNops(ts[1..], if t.Begin? then d + 1 else if t.EndNode? then d - 1 else d);
    }
  }

  /** Properties are passed over. */
  lemma {:induction false} VisitsProps(props: seq<Token>, rest: seq<Token>, d: int)
    requires forall i :: 0 <= i < |props| ==> props[i].Prop?
    ensures Visits(props + rest, d) == Visits(rest, d)
  {
    if props == [] {
      assert props + rest == rest;
    } else {
      assert (props + rest)[1..] == props[1..] + rest;
      VisitsProps(props[1..], rest, d);
    }
  }

  /** The visits that a flattened node, followed by rest, gives rise to. */
  function Seen(n: Node, rest: seq<Token>, d: int): seq<Visit>
    decreases n
  {
    [Visit(n.name, d + 1, Body(n) + rest)] + SeenAll(n.kids, [EndNode] + rest, d + 1)
  }

  function SeenAll(ns: seq<Node>, rest: seq<Token>, d: int): seq<Visit> {
    if ns == [] then [] else Seen(ns[0], FlatAll(ns[1..]) + rest, d) + SeenAll(ns[1..], rest, d)
  }

  lemma {:induction false} VisitsFlat(n: Node, rest: seq<Token>, d: int)
    requires TreeOk(n) && NoNops(rest) == rest
    ensures Visits(Flat(n) + rest, d) == Seen(n, rest, d) + Visits(rest, d)
    decreases n, 1
  {
    hide Visits, FlatAll, NoNops, TreeOk;
    var tail := Body(n) + rest;
    assert Flat(n) + rest == [Begin(n.name)] + tail;
    FlatClean(n);
    CleanConcat(Body(n), rest);
    VisitsStep(Begin(n.name), tail, d);
    var after := [EndNode] + rest;
    assert tail == n.props + (FlatAll(n.kids) + after);
    OkParts(n);
    VisitsProps(n.props, FlatAll(n.kids) + after, d + 1);
    CleanCons(EndNode, rest);
    VisitsAll(n.kids, after, d + 1);
    VisitsStep(EndNode, rest, d + 1);
  }

  lemma OkParts(n: Node)
    requires TreeOk(n)
    ensures TreesOk(n.kids) && forall i :: 0 <= i < |n.props| ==> n.props[i].Prop?
  {
  }

  lemma VisitsStep(t: Token, rest: seq<Token>, d: int)
    ensures Visits([t] + rest, d) ==
            if t.Begin? then [Visit(t.name, d + 1, NoNops(rest))] + Visits(rest, d + 1)
            else if t.EndNode? then Visits(rest, d - 1)
            else if t.End? then []
            else Visits(rest, d)
  {
    assert ([t] + rest)[1..] == rest;
  }

  lemma {:induction false} VisitsAll(ns: seq<Node>, rest: seq<Token>, d: int)
    requires TreesOk(ns) && NoNops(rest) == rest
    ensures Visits(FlatAll(ns) + rest, d) == SeenAll(ns, rest, d) + Visits(rest, d)
    decreases ns
  {
    hide Flat, Visits, Seen;
    if ns == [] {
      assert FlatAll(ns) + rest == rest;
    } else {
      var more := FlatAll(ns[1..]) + rest;
      assert FlatAll(ns) + rest == Flat(ns[0]) + more;
      AllClean(ns[1..]);
      CleanConcat(FlatAll(ns[1..]), rest);
      VisitsFlat(ns[0], more, d);
      VisitsAll(ns[1..], rest, d);
    }
  }

  lemma {:induction false} SeenMeets(n: Node, rest: seq<Token>, d: int)
    ensures Meets(Seen(n, rest, d), Preorder(n, d + 1))
    decreases n, 1
  {
    SeenAllMeets(n.kids, [EndNode] + rest, d + 1);
    MeetsOne(n, d + 1, rest);
    MeetsConcat([Visit(n.name, d + 1, Body(n) + rest)], SeenAll(n.kids, [EndNode] + rest, d + 1),
                [Placed(n, d + 1)], PreorderAll(n.kids, d + 2));
  }

  lemma MeetsOne(n: Node, d: int, rest: seq<Token>)
    ensures Meets([Visit(n.name, d, Body(n) + rest)], [Placed(n, d)])
  {
  }

  lemma {:induction false} SeenAllMeets(ns: seq<Node>, rest: seq<Token>, d: int)
    ensures Meets(SeenAll(ns, rest, d), PreorderAll(ns, d + 1))
    decreases ns
  {
    if ns != [] {
      var more := FlatAll(ns[1..]) + rest;
      SeenMeets(ns[0], more, d);
      SeenAllMeets(ns[1..], rest, d);
      MeetsConcat(Seen(ns[0], more, d), SeenAll(ns[1..], rest, d), Preorder(ns[0], d + 1), PreorderAll(ns[1..], d + 1));
    }
  }

  /* ---- flattened trees hold no NOPs ---- */

  lemma {:induction false} CleanConcat(a: seq<Token>, b: seq<Token>)
    ensures NoNops(a + b) == NoNops(a) + NoNops(b)
  {
    if a == [] {
      assert a + b == b;
    } else {
      assert (a + b)[1..] == a[1..] + b;
      CleanConcat(a[1..], b);
    }
  }

  lemma CleanCons(t: Token, rest: seq<Token>)
    requires !t.Nop?
    ensures NoNops([t] + rest) == [t] + NoNops(rest)
  {
    assert ([t] + rest)[1..] == rest;
  }

  lemma {:induction false} PropsClean(props: seq<Token>)
    requires forall i :: 0 <= i < |props| ==> props[i].Prop?
    ensures NoNops(props) == props
  {
    if props != [] { PropsClean(props[1..]); }
  }

  lemma {:induction false} FlatClean(n: Node)
    requires TreeOk(n)
    ensures NoNops(Body(n)) == Body(n) && NoNops(Flat(n)) == Flat(n)
    decreases n, 1
  {
    PropsClean(n.props);
    AllClean(n.kids);
    CleanConcat(n.props, FlatAll(n.kids));
    CleanConcat(n.props + FlatAll(n.kids), [EndNode]);
    CleanCons(EndNode, []);
    assert [EndNode] + [] == [EndNode];
    CleanCons(Begin(n.name), Body(n));
  }

  lemma {:induction false} AllClean(ns: seq<Node>)
    requires TreesOk(ns)
    ensures NoNops(FlatAll(ns)) == FlatAll(ns)
    decreases ns
  {
    if ns != [] {
      FlatClean(ns[0]);
      AllClean(ns[1..]);
      CleanConcat(Flat(ns[0]), FlatAll(ns[1..]));
    }
  }

  /** Node iteration yields the tree in document order. */
  lemma WalkInverts(root: Node, ts: seq<Token>)
    requires TreeOk(root) && Flattens(root, ts)
    ensures Meets(Visits(ts, -1), Preorder(root, 0))
  {
    VisitsNoNops(ts, -1);
    CleanCons(End, []);
    assert [End] + [] == [End];
    VisitsFlat(root, [End], -1);
    SeenMeets(root, [End], -1);
    assert Seen(root, [End], -1) + Visits([End], -1) == Seen(root, [End], -1);
  }

  /* ---- children ---- */

  /** The names that subnode iteration gives for a parent at depth pd, from tokens ts met at depth d. */
  function Subs(ts: seq<Token>, d: int, pd: int): seq<Text> {
    if ts == [] then []
    else
      match ts[0]
      case Begin(name) =>
        if d + 1 <= pd then []
        else if d == pd then [name] + Subs(ts[1..], d + 1, pd)
        else Subs(ts[1..], d + 1, pd)
      case EndNode => Subs(ts[1..], d - 1, pd)
      case End => []
      case _ => Subs(ts[1..], d, pd)
  }

  function Names(ns: seq<Node>): seq<Text> {
    if ns == [] then [] else [ns[0].name] + Names(ns[1..])
  }

  lemma SubsStep(t: Token, rest: seq<Token>, d: int, pd: int)
    ensures Subs([t] + rest, d, pd) ==
            if t.Begin? && d + 1 <= pd then []
            else if t.Begin? && d == pd then [t.name] + Subs(rest, d + 1, pd)
            else if t.Begin? then Subs(rest, d + 1, pd)
            else if t.EndNode? then Subs(rest, d - 1, pd)
            else if t.End? then []
            else Subs(rest, d, pd)
  {
    assert ([t] + rest)[1..] == rest;
  }

  lemma {:induction false} SubsNoNops(ts: seq<Token>, d: int, pd: int)
    ensures Subs(NoNops(ts), d, pd) == Subs(ts, d, pd)
  {
    if ts != [] {
      var t := ts[0];
      if !t.Nop? { assert NoNops(ts)[1..] == NoNops(ts[1..]); }
      SubsNoNops(ts[1..], if t.Begin? then d + 1 else if t.EndNode? then d - 1 else d, pd);
    }
  }

  /** Past the parent's END_NODE nothing more is found, whatever follows. */
  lemma {:induction false} SubsOutside(ts: seq<Token>, d: int, pd: int)
    requires d < pd
    ensures Subs(ts, d, pd) == []
  {
    if ts != [] { SubsOutside(ts[1..], if ts[0].EndNode? then d - 1 else d, pd); }
  }

  lemma {:induction false} SubsProps(props: seq<Token>, rest: seq<Token>, d: int, pd: int)
    requires forall i :: 0 <= i < |props| ==> props[i].Prop?
    ensures Subs(props + rest, d, pd) == Subs(rest, d, pd)
  {
    if props == [] {
      assert props + rest == rest;
    } else {
      assert props + rest == [props[0]] + (props[1..] + rest);
      SubsStep(props[0], props[1..] + rest, d, pd);
      SubsProps(props[1..], rest, d, pd);
    }
  }

  /** The inside of a node below the parent's level adds nothing. */
  lemma {:induction false} SubsBody(n: Node, rest: seq<Token>, d: int, pd: int)
    requires TreeOk(n) && d > pd
    ensures Subs(Body(n) + rest, d, pd) == Subs(rest, d - 1, pd)
    decreases n, 1
  {
    hide Subs, TreeOk;
    OkParts(n);
    var after := [EndNode] + rest;
    assert Body(n) + rest == n.props + (FlatAll(n.kids) + after);
    SubsProps(n.props, FlatAll(n.kids) + after, d, pd);
    SubsDeep(n.kids, after, d, pd);
    SubsStep(EndNode, rest, d, pd);
  }

  lemma {:induction false} SubsDeep(ns: seq<Node>, rest: seq<Token>, d: int, pd: int)
    requires TreesOk(ns) && d > pd
    ensures Subs(FlatAll(ns) + rest, d, pd) == Subs(rest, d, pd)
    decreases ns
  {
    hide Subs;
    if ns == [] {
      assert FlatAll(ns) + rest == rest;
    } else {
      var more := FlatAll(ns[1..]) + rest;
      assert FlatAll(ns) + rest == [Begin(ns[0].name)] + (Body(ns[0]) + more);
      SubsStep(Begin(ns[0].name), Body(ns[0]) + more, d, pd);
      SubsBody(ns[0], more, d + 1, pd);
      SubsDeep(ns[1..], rest, d, pd);
    }
  }

  lemma {:induction false} SubsKids(ns: seq<Node>, rest: seq<Token>, pd: int)
    requires TreesOk(ns)
    ensures Subs(FlatAll(ns) + rest, pd, pd) == Names(ns) + Subs(rest, pd, pd)
  {
    hide Subs;
    if ns == [] {
      assert FlatAll(ns) + rest == rest;
    } else {
      var more := FlatAll(ns[1..]) + rest;
      assert FlatAll(ns) + rest == [Begin(ns[0].name)] + (Body(ns[0]) + more);
      SubsStep(Begin(ns[0].name), Body(ns[0]) + more, pd, pd);
      SubsBody(ns[0], more, pd + 1, pd);
      SubsKids(ns[1..], rest, pd);
    }
  }

  /** Subnode iteration from a node's body yields exactly its children, in order. */
  lemma SubsInvert(n: Node, rest: seq<Token>, ts: seq<Token>, d: int)
    requires TreeOk(n) && NoNops(ts) == Body(n) + rest
    ensures Subs(ts, d, d) == Names(n.kids)
  {
    hide Subs, NoNops, TreeOk;
    SubsNoNops(ts, d, d);
    OkParts(n);
    var after := [EndNode] + rest;
    assert Body(n) + rest == n.props + (FlatAll(n.kids) + after);
    SubsProps(n.props, FlatAll(n.kids) + after, d, d);
    SubsKids(n.kids, after, d);
    SubsStep(EndNode, rest, d, d);
    SubsOutside(rest, d - 1, d);
  }

  /* ---- properties ---- */

  /** The first property of that name among the tokens that open a node. */
  function FindProp(strings: Text, ts: seq<Token>, name: Text): Option<Text> {
    if ts == [] then None
    else
      match ts[0]
      case Nop => FindProp(strings, ts[1..], name)
      case Prop(off, value) => if CString(strings, off) == Some(name) then Some(value) else FindProp(strings, ts[1..], name)
      case _ => None
  }

  /** The least index of a property of that name, or the number of properties. */
  function FirstNamed(strings: Text, props: seq<Token>, name: Text): (k: nat)
    ensures k <= |props|
    ensures forall i :: 0 <= i < k && props[i].Prop? ==> CString(strings, props[i].nameoff) != Some(name)
    ensures k < |props| ==> props[k].Prop? && CString(strings, props[k].nameoff) == Some(name)
  {
    if props == [] then 0
    else if props[0].Prop? && CString(strings, props[0].nameoff) == Some(name) then 0
    else
      var k := FirstNamed(strings, props[1..], name);
      assert forall i :: 0 < i < |props| ==> props[i] == props[1..][i - 1];
      k + 1
  }

  lemma {:induction false} FindNoNops(strings: Text, ts: seq<Token>, name: Text)
    ensures FindProp(strings, NoNops(ts), name) == FindProp(strings, ts, name)
  {
    if ts != [] {
      FindNoNops(strings, ts[1..], name);
      if !ts[0].Nop? { assert NoNops(ts)[1..] == NoNops(ts[1..]); }
    }
  }

  lemma {:induction false} FindProps(strings: Text, props: seq<Token>, rest: seq<Token>, name: Text)
    requires forall i :: 0 <= i < |props| ==> props[i].Prop?
    requires rest != [] && !rest[0].Prop? && !rest[0].Nop?
    ensures var k := FirstNamed(strings, props, name);
            FindProp(strings, props + rest, name) == if k < |props| then Some(props[k].value) else None
  {
    if props == [] {
      assert props + rest == rest;
    } else {
      assert (props + rest)[1..] == props[1..] + rest;
      FindProps(strings, props[1..], rest, name);
    }
  }

  lemma NoKids()
    ensures FlatAll([]) == []
  {
  }

  lemma KidsFirst(ns: seq<Node>)
    ensures ns != [] ==> FlatAll(ns) != [] && FlatAll(ns)[0] == Begin(ns[0].name)
  {
    if ns != [] { assert Flat(ns[0])[0] == Begin(ns[0].name); }
  }

  /** One token of the search. */
  lemma FindStep(strings: Text, t: Token, rest: seq<Token>, name: Text)
    ensures FindProp(strings, [t] + rest, name) ==
            if t.Nop? || (t.Prop? && CString(strings, t.nameoff) != Some(name)) then FindProp(strings, rest, name)
            else if t.Prop? then Some(t.value) else None
  {
    assert ([t] + rest)[1..] == rest;
  }

  /** Property lookup in a node's body gives the first property of that name, or none. */
  lemma PropInverts(strings: Text, n: Node, rest: seq<Token>, ts: seq<Token>, name: Text)
    requires TreeOk(n) && NoNops(ts) == Body(n) + rest
    ensures var k := FirstNamed(strings, n.props, name);
            FindProp(strings, ts, name) == if k < |n.props| then Some(n.props[k].value) else None
  {
    hide NoNops, FindProp, FirstNamed, FlatAll, TreeOk;
    OkParts(n);
    FindNoNops(strings, ts, name);
    var after := FlatAll(n.kids) + ([EndNode] + rest);
    assert Body(n) + rest == n.props + after;
    KidsFirst(n.kids);
    NoKids();
    FindProps(strings, n.props, after, name);
  }
}

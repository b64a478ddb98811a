/** What parsing a written value does to the arena, as a function, and the tree it leaves there. */
module TreeBuilding {
  import opened Wrappers
  import opened ConfigTrees

  /** A setting that has just been created. */
  ghost predicate Fresh(nodes: Arena, i: nat) {
    i < |nodes| && nodes[i].kind.NoType? && nodes[i].format.Default? && nodes[i].value.None? && nodes[i].children == []
  }

  /** A new last child of `p`, of no type yet. */
  function Attach(nodes: Arena, p: nat, name: Option<string>): Arena
    requires p < |nodes|
  {
    nodes[p := nodes[p].(children := nodes[p].children + [|nodes|])] + [Node(name, NoType, Default, None, [], Some(p))]
  }

  /** Giving setting `i` a value, its descendants appended one by one. */
  ghost function Fill(nodes: Arena, i: nat, b: Body): (r: Arena)
    requires i < |nodes|
    ensures |r| >= |nodes|
    decreases b, 1
  {
    match b
    case Unset => nodes
    case Leaf(v, format) => nodes[i := nodes[i].(kind := TypeOf(v), value := Some(v), format := format)]
    case Group(members) => GraftAll(nodes[i := nodes[i].(kind := GroupType)], i, members)
    case Array(elements) => GraftAll(nodes[i := nodes[i].(kind := ArrayType)], i, elements)
    case List(items) => GraftAll(nodes[i := nodes[i].(kind := ListType)], i, items)
  }

  ghost function Graft(nodes: Arena, p: nat, t: Tree): (r: Arena)
    requires p < |nodes|
    ensures |r| > |nodes|
    decreases t, 0
  {
    Fill(Attach(nodes, p, t.name), |nodes|, t.body)
  }

  ghost function GraftAll(nodes: Arena, p: nat, ts: seq<Tree>): (r: Arena)
    requires p < |nodes|
    ensures |r| >= |nodes|
    decreases ts, 0
  {
    if ts == [] then nodes else GraftAll(Graft(nodes, p, ts[0]), p, ts[1..])
  }

  // ---------------------------------------------------------------- trees and the arena

  /** The tree below a setting depends on nothing before it, and not on what is added later. */
  lemma {:induction false} TreeFrame(a: Arena, b: Arena, j: nat)
    requires Grown(a) && Grown(b) && j < |a| <= |b|
    requires forall k :: j <= k < |a| ==> b[k] == a[k]
    ensures TreeAt(b, j) == TreeAt(a, j)
    decreases |a| - j, 0
  {
    TreesFrame(a, b, j, 0);
  }

  lemma {:induction false} TreesFrame(a: Arena, b: Arena, p: nat, k: nat)
    requires Grown(a) && Grown(b) && p < |a| <= |b| && k <= |a[p].children|
    requires (forall j :: p < j < |a| ==> b[j] == a[j]) && a[p].children <= b[p].children
    ensures k <= |b[p].children|
    ensures a[p].children == b[p].children ==> TreesAt(b, p, k) == TreesAt(a, p, k)
    ensures TreesAt(a, p, k) <= TreesAt(b, p, k)
    ensures |TreesAt(a, p, k)| == |a[p].children| - k
    decreases |a| - p - 1, |a[p].children| - k + 1
  {
    if k < |a[p].children| {
      assert LinkOk(a, p, k);
      var c := a[p].children[k];
      assert b[p].children[k] == c;
      TreeFrame(a, b, c);
      TreesFrame(a, b, p, k + 1);
    }
  }

  lemma AttachGrown(nodes: Arena, p: nat, name: Option<string>)
    requires Grown(nodes) && p < |nodes|
    ensures Grown(Attach(nodes, p, name)) && Fresh(Attach(nodes, p, name), |nodes|)
  {
    var next := Attach(nodes, p, name);
    forall q, k | 0 <= q < |next| && 0 <= k < |next[q].children|
      ensures LinkOk(next, q, k)
    {
      if q < |nodes| && k < |nodes[q].children| {
        assert LinkOk(nodes, q, k);
      }
    }
  }

  lemma RetypedGrown(nodes: Arena, i: nat, n: Node)
    requires Grown(nodes) && i < |nodes| && n.children == nodes[i].children && n.parent == nodes[i].parent
    ensures Grown(nodes[i := n])
  {
    var next := nodes[i := n];
    forall q, k | 0 <= q < |next| && 0 <= k < |next[q].children|
      ensures LinkOk(next, q, k)
    {
      assert LinkOk(nodes, q, k);
    }
  }

  /** Filling a fresh setting touches nothing before it and leaves exactly the value there. */
  lemma {:induction false} FillFacts(nodes: Arena, i: nat, b: Body)
    requires Grown(nodes) && i == |nodes| - 1 && Fresh(nodes, i) && !b.Unset?
    requires WellFormed(b)
    ensures var r := Fill(nodes, i, b);
      && Grown(r)
      && (forall c :: 0 <= c < i ==> r[c] == nodes[c])
      && r[i].name == nodes[i].name && r[i].parent == nodes[i].parent
      && TreeAt(r, i) == Tree(nodes[i].name, b)
    decreases b, 1
  {
    match b
    case Leaf(v, format) =>
      RetypedGrown(nodes, i, nodes[i].(kind := TypeOf(v), value := Some(v), format := format));
    case Group(members) => FillAll(nodes, i, GroupType, members);
    case Array(elements) => FillAll(nodes, i, ArrayType, elements);
    case List(items) => FillAll(nodes, i, ListType, items);
  }

  lemma {:induction false} FillAll(nodes: Arena, i: nat, kind: Type, ts: seq<Tree>)
    requires Grown(nodes) && i == |nodes| - 1 && Fresh(nodes, i)
    requires forall k :: 0 <= k < |ts| ==> WellFormed(ts[k].body)
    ensures var r := GraftAll(nodes[i := nodes[i].(kind := kind)], i, ts);
      && Grown(r)
      && (forall c :: 0 <= c < i ==> r[c] == nodes[c])
      && r[i] == nodes[i].(kind := kind, children := r[i].children)
      && TreesAt(r, i, 0) == ts
    decreases ts, 1
  {
    var base := nodes[i := nodes[i].(kind := kind)];
    RetypedGrown(nodes, i, base[i]);
    GraftAllFacts(base, i, ts);
    assert TreesAt(base, i, 0) == [];
  }

  /** Grafting a tree adds one child, with that tree below it. */
  lemma {:induction false} GraftFacts(nodes: Arena, p: nat, t: Tree)
    requires Grown(nodes) && p < |nodes| && WellFormed(t.body)
    ensures var r := Graft(nodes, p, t);
      && Grown(r)
      && (forall c :: 0 <= c < |nodes| && c != p ==> r[c] == nodes[c])
      && r[p] == nodes[p].(children := nodes[p].children + [|nodes|])
      && r[|nodes|].name == t.name
      && TreeAt(r, |nodes|) == t
    decreases t, 0
  {
    var made := Attach(nodes, p, t.name);
    AttachGrown(nodes, p, t.name);
    assert t.body < t;
    FillFacts(made, |nodes|, t.body);
  }

  /** Grafting a row of trees appends them to the children of `p`. */
  lemma {:induction false} GraftAllFacts(nodes: Arena, p: nat, ts: seq<Tree>)
    requires Grown(nodes) && p < |nodes| && forall k :: 0 <= k < |ts| ==> WellFormed(ts[k].body)
    ensures var r := GraftAll(nodes, p, ts);
      && Grown(r)
      && (forall c :: 0 <= c < |nodes| && c != p ==> r[c] == nodes[c])
      && r[p] == nodes[p].(children := r[p].children) && nodes[p].children <= r[p].children
      && TreesAt(r, p, 0) == TreesAt(nodes, p, 0) + ts
    decreases ts, 0
  {
    if ts != [] {
      var next := Graft(nodes, p, ts[0]);
      GraftFacts(nodes, p, ts[0]);
      GraftAllFacts(next, p, ts[1..]);
      OneMore(nodes, next, p);
      assert TreesAt(nodes, p, 0) + [ts[0]] + ts[1..] == TreesAt(nodes, p, 0) + ts;
    }
  }

  /** The trees below `p` when one child more has been appended. */
  lemma OneMore(a: Arena, b: Arena, p: nat)
    requires Grown(a) && Grown(b) && p < |a| < |b|
    requires (forall c :: 0 <= c < |a| && c != p ==> b[c] == a[c]) && b[p].children == a[p].children + [|a|]
    ensures TreesAt(b, p, 0) == TreesAt(a, p, 0) + [TreeAt(b, |a|)]
  {
    TreesFrame(a, b, p, 0);
    var n := |a[p].children|;
    TreesLast(b, p, 0, n);
  }

  lemma {:induction false} TreesLast(b: Arena, p: nat, k: nat, n: nat)
    requires Grown(b) && p < |b| && k <= n && |b[p].children| == n + 1 && b[p].children[n] < |b|
    ensures |TreesAt(b, p, k)| == n + 1 - k && TreesAt(b, p, k)[n - k] == TreeAt(b, b[p].children[n])
    decreases n - k
  {
    if k < n {
      TreesLast(b, p, k + 1, n);
    } else {
      assert TreesAt(b, p, n + 1) == [];
    }
  }
}

/** What changes of a configuration do to the tree it stands for: a removal takes away one subtree and a
    setter writes one leaf, and nothing else changes. */
module SettingTrees {
  import opened Wrappers
  import opened ConfigTrees
  import opened Settings
  import opened TreeBuilding

  // ---------------------------------------------------------------- reading the trees below a setting

  /** The trees below a setting, one by one. */
  lemma {:induction false} TreesAre(nodes: Arena, p: nat, k: nat)
    requires Grown(nodes) && p < |nodes| && k <= |nodes[p].children|
    ensures |TreesAt(nodes, p, k)| == |nodes[p].children| - k
    ensures forall j :: k <= j < |nodes[p].children| ==>
      nodes[p].children[j] < |nodes| && TreesAt(nodes, p, k)[j - k] == TreeAt(nodes, nodes[p].children[j])
    ensures forall j :: 0 <= j < |nodes[p].children| - k ==>
      nodes[p].children[k + j] < |nodes| && TreesAt(nodes, p, k)[j] == TreeAt(nodes, nodes[p].children[k + j])
    decreases |nodes[p].children| - k
  {
    if k < |nodes[p].children| {
      assert LinkOk(nodes, p, k);
      TreesAre(nodes, p, k + 1);
    }
  }

  /** `p` lies in the tree below `q`. */
  ghost predicate Within(nodes: Arena, q: nat, p: nat)
    requires Grown(nodes) && q < |nodes|
    decreases |nodes| - q
  {
    q == p || exists k :: 0 <= k < |nodes[q].children| && LinkOk(nodes, q, k) && Within(nodes, nodes[q].children[k], p)
  }

  /** A change of one setting shows only in the trees it lies in. */
  lemma {:induction false} TreeElsewhere(a: Arena, b: Arena, q: nat, p: nat)
    requires Grown(a) && Grown(b) && q < |a| <= |b| && (forall c :: 0 <= c < |a| && c != p ==> b[c] == a[c]) && !Within(a, q, p)
    ensures TreeAt(b, q) == TreeAt(a, q)
    decreases |a| - q
  {
    assert b[q] == a[q];
    TreesAre(a, q, 0);
    TreesAre(b, q, 0);
    var was, now := TreesAt(a, q, 0), TreesAt(b, q, 0);
    forall k | 0 <= k < |was|
      ensures now[k] == was[k]
    {
      assert LinkOk(a, q, k);
      TreeElsewhere(a, b, a[q].children[k], p);
      assert was[k] == TreeAt(a, a[q].children[k]) && now[k] == TreeAt(b, b[q].children[k]);
    }
    assert now == was;
  }

  lemma {:induction false} WithinAfter(nodes: Arena, q: nat, p: nat)
    requires Grown(nodes) && q < |nodes| && Within(nodes, q, p)
    ensures q <= p
    decreases |nodes| - q
  {
    if q != p {
      var k :| 0 <= k < |nodes[q].children| && LinkOk(nodes, q, k) && Within(nodes, nodes[q].children[k], p);
      WithinAfter(nodes, nodes[q].children[k], p);
    }
  }

  // ---------------------------------------------------------------- removing

  /** Position `j` once the `k`-th of a row is gone. */
  function Past(k: nat, j: nat): nat { if j < k then j else j + 1 }

  /** What a removal leaves: the children of `p` without the `k`-th, all other settings as they were. */
  ghost predicate Removed(a: Arena, b: Arena, p: nat, k: nat)
    requires p < |a| && k < |a[p].children|
  {
    && |b| == |a| && (forall c :: 0 <= c < |a| && c != p ==> b[c] == a[c])
    && b[p] == a[p].(children := b[p].children)
    && |b[p].children| == |a[p].children| - 1
    && forall j :: 0 <= j < |b[p].children| ==> b[p].children[j] == a[p].children[Past(k, j)]
  }

  lemma UnlinkRemoves(nodes: Arena, p: nat, k: nat)
    requires p < |nodes| && k < |nodes[p].children|
    ensures Removed(nodes, Unlink(nodes, p, k), p, k)
  {
  }

  /** The `k`-th tree is gone from below the parent, the others stay in their order, and no tree the
      parent does not lie in changes. */
  lemma UnlinkTrees(nodes: Arena, p: nat, k: nat)
    requires Sound(nodes) && p < |nodes| && k < |nodes[p].children|
    ensures var next := Unlink(nodes, p, k);
      && Sound(next) && Removed(nodes, next, p, k)
      && |TreesAt(next, p, 0)| == |TreesAt(nodes, p, 0)| - 1
      && (forall j :: 0 <= j < |TreesAt(next, p, 0)| ==>
            Past(k, j) < |TreesAt(nodes, p, 0)| && TreesAt(next, p, 0)[j] == TreesAt(nodes, p, 0)[Past(k, j)])
      && forall q :: 0 <= q < |nodes| && !Within(nodes, q, p) ==> TreeAt(next, q) == TreeAt(nodes, q)
  {
    hide TreeAt, TreesAt, Within, NamesOk;
    var next := Unlink(nodes, p, k);
    UnlinkSound(nodes, p, k);
    UnlinkRemoves(nodes, p, k);
    hide Unlink;
    TreesAre(nodes, p, 0);
    TreesAre(next, p, 0);
    forall j | 0 <= j < |next[p].children|
      ensures TreeAt(next, next[p].children[j]) == TreeAt(nodes, nodes[p].children[Past(k, j)])
    {
      assert LinkOk(nodes, p, Past(k, j));
      var c := nodes[p].children[Past(k, j)];
      assert !Within(nodes, c, p) by {
        if Within(nodes, c, p) {
          WithinAfter(nodes, c, p);
        }
      }
      TreeElsewhere(nodes, next, c, p);
    }
    forall q | 0 <= q < |nodes| && !Within(nodes, q, p)
      ensures TreeAt(next, q) == TreeAt(nodes, q)
    {
      TreeElsewhere(nodes, next, q, p);
    }
  }

  /** A setting is found by name exactly if it is the child that bears the name. */
  lemma MemberIs(nodes: Arena, p: nat, name: string, c: nat)
    requires Sound(nodes) && p < |nodes| && nodes[p].kind.GroupType? && ValidName(name)
    ensures Member(nodes, p, name) == Some(c) <==> c in nodes[p].children && c < |nodes| && nodes[c].name == Some(name)
  {
    assert InArena(nodes, p) && NamesOk(nodes, p);
    NameComponent(name, "");
    assert name + "" == name;
    var r := SearchFrom(nodes, p, name, 0);
    if c in nodes[p].children && nodes[c].name == Some(name) {
      var j :| 0 <= j < |nodes[p].children| && nodes[p].children[j] == c;
      SearchFinds(nodes, p, name, 0, j);
    }
    if r < |nodes[p].children| {
      FoundAnswers(nodes, p, name, 0);
      NameComponent(nodes[nodes[p].children[r]].name.value, "");
      var found := nodes[nodes[p].children[r]].name.value;
      assert found + "" == found;
    }
  }

  /** After `config_setting_remove` the name is free, every other name finds what it found, in this group
      and in all others, and the trees below the group are those before without the one named. */
  lemma RemoveKeeps(nodes: Arena, p: nat, name: string)
    requires Sound(nodes) && p < |nodes| && ValidName(name)
    ensures Remove(nodes, p, name).Some? <==> nodes[p].kind.GroupType? && Taken(nodes, p, name)
    ensures Remove(nodes, p, name).Some? ==>
      var next := Remove(nodes, p, name).value;
      && Sound(next) && Member(next, p, name).None?
      && (forall other :: ValidName(other) && other != name ==> Member(next, p, other) == Member(nodes, p, other))
      && (forall q, other :: 0 <= q < |nodes| && q != p && ValidName(other) ==> Member(next, q, other) == Member(nodes, q, other))
      && exists k :: 0 <= k < |nodes[p].children| && Bears(nodes, p, k, name) && Removed(nodes, next, p, k)
           && next == Unlink(nodes, p, k)
  {
    assert InArena(nodes, p) && NamesOk(nodes, p);
    if nodes[p].kind.GroupType? {
      MemberIff(nodes, p, name);
    }
    hide Sound, InArena, NamesOk, Taken;
    if Remove(nodes, p, name).Some? {
      var k := SearchFrom(nodes, p, name, 0);
      var next := Remove(nodes, p, name).value;
      RemoveFrees(nodes, p, name);
      UnlinkRemoves(nodes, p, k);
      RemovedBears(nodes, p, name);
      forall other | ValidName(other) && other != name
        ensures Member(next, p, other) == Member(nodes, p, other)
      {
        MemberStays(nodes, next, p, k, other);
      }
      forall q, other | 0 <= q < |nodes| && q != p && ValidName(other)
        ensures Member(next, q, other) == Member(nodes, q, other)
      {
        MemberElsewhere(nodes, next, p, q, other);
      }
    }
  }

  lemma RemovedBears(nodes: Arena, p: nat, name: string)
    requires Sound(nodes) && p < |nodes| && ValidName(name) && Remove(nodes, p, name).Some?
    ensures Bears(nodes, p, SearchFrom(nodes, p, name, 0), name)
  {
    var k := SearchFrom(nodes, p, name, 0);
    MemberIs(nodes, p, name, nodes[p].children[k]);
  }

  lemma MemberStays(a: Arena, b: Arena, p: nat, k: nat, name: string)
    requires Sound(a) && Sound(b) && p < |a| && k < |a[p].children| && Removed(a, b, p, k) && a[p].kind.GroupType? && ValidName(name)
    requires !Bears(a, p, k, name)
    ensures Member(b, p, name) == Member(a, p, name)
  {
    assert InArena(a, p);
    hide Sound, Member, Grown, InArena, NamesOk;
    forall c: nat
      ensures Member(b, p, name) == Some(c) <==> Member(a, p, name) == Some(c)
    {
      MemberIs(a, p, name, c);
      MemberIs(b, p, name, c);
      if c in a[p].children && c < |a| && a[c].name == Some(name) {
        var j :| 0 <= j < |a[p].children| && a[p].children[j] == c;
        assert j != k;
        assert b[p].children[if j < k then j else j - 1] == c;
        ParentOther(a, p, j);
      }
      if c in b[p].children && c < |b| && b[c].name == Some(name) {
        var j :| 0 <= j < |b[p].children| && b[p].children[j] == c;
        assert a[p].children[Past(k, j)] == c;
        ParentOther(a, p, Past(k, j));
      }
    }
    if Member(a, p, name).Some? {
      assert Member(b, p, name) == Some(Member(a, p, name).value);
    }
    if Member(b, p, name).Some? {
      assert Member(a, p, name) == Some(Member(b, p, name).value);
    }
  }

  lemma ParentOther(a: Arena, p: nat, j: nat)
    requires Sound(a) && p < |a| && j < |a[p].children|
    ensures a[p].children[j] != p
  {
    assert LinkOk(a, p, j);
  }

  /** A group whose children keep their names is searched as before. */
  lemma MemberElsewhere(a: Arena, b: Arena, p: nat, q: nat, name: string)
    requires |b| == |a| && q < |a| && p < |a| && q != p && (forall c :: 0 <= c < |a| && c != p ==> b[c] == a[c]) && b[p].name == a[p].name
    ensures Member(b, q, name) == Member(a, q, name)
  {
    SearchElsewhere(a, b, p, q, name, 0);
  }

  lemma {:induction false} SearchElsewhere(a: Arena, b: Arena, p: nat, q: nat, name: string, k: nat)
    requires |b| == |a| && q < |a| && p < |a| && q != p && k <= |a[q].children|
    requires (forall c :: 0 <= c < |a| && c != p ==> b[c] == a[c]) && b[p].name == a[p].name
    ensures SearchFrom(b, q, name, k) == SearchFrom(a, q, name, k)
    decreases |a[q].children| - k
  {
    if k < |a[q].children| {
      SearchElsewhere(a, b, p, q, name, k + 1);
    }
  }

  /** After `config_setting_remove_elem` the elements before the one removed keep their index, those after
      it move down by one. */
  lemma RemoveElemKeeps(nodes: Arena, p: nat, idx: nat, i: nat)
    requires Sound(nodes) && p < |nodes| && Elem(nodes, p, idx).Some?
    ensures var next := Unlink(nodes, p, idx);
      && Elem(next, p, i) == Elem(nodes, p, Past(idx, i))
      && forall q :: 0 <= q < |nodes| && q != p ==> Elem(next, q, i) == Elem(nodes, q, i)
  {
    UnlinkRemoves(nodes, p, idx);
    hide Unlink;
  }

  // ---------------------------------------------------------------- adding

  /** The tree of a setting just added. */
  function Blank(kind: Type): Body {
    match kind
    case NoType => Unset
    case IntType => Leaf(IntValue(0), Default)
    case Int64Type => Leaf(Int64Value(0), Default)
    case StringType => Leaf(StringValue(""), Default)
    case BoolType => Leaf(BoolValue(false), Default)
    case GroupType => Group([])
    case ArrayType => Array([])
    case ListType => List([])
  }

  /** `config_setting_add` appends one tree, of that name in a group and nameless elsewhere, and zero or
      empty; it is found by its name, every other name finds what it found, and no other setting changes. */
  lemma AddAppends(nodes: Arena, p: nat, name: Option<string>, kind: Type)
    requires Sound(nodes) && p < |nodes| && (nodes[p].kind.GroupType? ==> name.Some?) && Add(nodes, p, name, kind).result.Some?
    ensures var r := Add(nodes, p, name, kind); var group := nodes[p].kind.GroupType?;
      && Sound(r.nodes) && (forall c :: 0 <= c < |nodes| && c != p ==> r.nodes[c] == nodes[c])
      && TreesAt(r.nodes, p, 0) == TreesAt(nodes, p, 0) + [Tree(if group then name else None, Blank(kind))]
      && (group ==> Member(r.nodes, p, name.value) == r.result)
      && (group ==> forall other :: ValidName(other) && other != name.value ==> Member(r.nodes, p, other) == Member(nodes, p, other))
  {
    var r := Add(nodes, p, name, kind);
    AddSound(nodes, p, name, kind);
    AddedIs(nodes, p, name, kind);
    hide Add, TreesAt, TreeAt, NamesOk, InArena;
    OneMore(nodes, r.nodes, p);
    BlankTree(r.nodes, |nodes|, kind);
    if nodes[p].kind.GroupType? {
      MemberIs(r.nodes, p, name.value, |nodes|);
      forall other | ValidName(other) && other != name.value
        ensures Member(r.nodes, p, other) == Member(nodes, p, other)
      {
        MemberBeside(nodes, r.nodes, p, other);
      }
    }
  }

  lemma AddedIs(nodes: Arena, p: nat, name: Option<string>, kind: Type)
    requires p < |nodes| && (nodes[p].kind.GroupType? ==> name.Some?) && Add(nodes, p, name, kind).result.Some?
    ensures var r := Add(nodes, p, name, kind);
      && r.result == Some(|nodes|) && |r.nodes| == |nodes| + 1 && nodes[p].kind.IsAggregate()
      && (forall c :: 0 <= c < |nodes| && c != p ==> r.nodes[c] == nodes[c])
      && r.nodes[p] == nodes[p].(children := nodes[p].children + [|nodes|])
      && r.nodes[|nodes|] == Node(if nodes[p].kind.GroupType? then name else None, kind, Default, ZeroOf(kind), [], Some(p))
      && (nodes[p].kind.GroupType? ==> ValidName(name.value))
  {
  }

  lemma BlankTree(nodes: Arena, i: nat, kind: Type)
    requires Grown(nodes) && i < |nodes| && nodes[i].kind == kind && nodes[i].format.Default?
    requires nodes[i].value == ZeroOf(kind) && nodes[i].children == []
    ensures TreeAt(nodes, i) == Tree(nodes[i].name, Blank(kind))
  {
    assert TreesAt(nodes, i, 0) == [];
  }

  lemma MemberBeside(a: Arena, b: Arena, p: nat, name: string)
    requires Sound(a) && Sound(b) && p < |a| && |b| == |a| + 1 && a[p].kind.GroupType? && b[p].kind.GroupType? && ValidName(name)
    requires (forall c :: 0 <= c < |a| && c != p ==> b[c] == a[c]) && b[p].children == a[p].children + [|a|] && b[|a|].name != Some(name)
    ensures Member(b, p, name) == Member(a, p, name)
  {
    assert InArena(a, p);
    hide Sound, Member, Grown, InArena, NamesOk;
    forall c: nat
      ensures Member(b, p, name) == Some(c) <==> Member(a, p, name) == Some(c)
    {
      MemberIs(a, p, name, c);
      MemberIs(b, p, name, c);
      if c in a[p].children {
        var j :| 0 <= j < |a[p].children| && a[p].children[j] == c;
        ParentOther(a, p, j);
      }
    }
    if Member(a, p, name).Some? {
      assert Member(b, p, name) == Some(Member(a, p, name).value);
    }
    if Member(b, p, name).Some? {
      assert Member(a, p, name) == Some(Member(b, p, name).value);
    }
  }

  /** All elements of an array are scalars of one type. */
  ghost predicate Uniform(nodes: Arena, p: nat)
    requires p < |nodes|
  {
    forall j :: 0 <= j < |nodes[p].children| ==>
      nodes[p].children[j] < |nodes| && nodes[nodes[p].children[j]].kind == FirstKind(nodes, p) && FirstKind(nodes, p).IsScalar()
  }

  /** Adding to an array that has elements succeeds whatever the type, and leaves its elements of one type
      exactly if it is theirs. */
  lemma AddMixes(nodes: Arena, p: nat, name: Option<string>, kind: Type)
    requires Sound(nodes) && p < |nodes| && nodes[p].kind.ArrayType? && nodes[p].children != [] && Uniform(nodes, p)
    ensures var r := Add(nodes, p, name, kind); r.result.Some? && (Uniform(r.nodes, p) <==> kind == FirstKind(nodes, p))
  {
    var r := Add(nodes, p, name, kind);
    assert InArena(nodes, p);
    forall j | 0 <= j < |nodes[p].children|
      ensures nodes[p].children[j] != p
    {
      ParentOther(nodes, p, j);
    }
    assert r.nodes[p].children[|nodes[p].children|] == |nodes|;
  }

  // ---------------------------------------------------------------- setting elements

  /** What a setter leaves in a setting of this type: a 64-bit number that does not fit is lost. */
  function Written(kind: Type, v: Scalar): Scalar {
    if v.Int64Value? && kind.IntType? then IntValue(if -2147483648 <= v.number64 <= 2147483647 then v.number64 else 0) else v
  }

  /** A setter succeeds on a setting of its own type, of no type yet, and with a 64-bit number on an int. */
  predicate Takes(kind: Type, v: Scalar) { kind.NoType? || kind == TypeOf(v) || (v.Int64Value? && kind.IntType?) }

  /** An element setter with a negative index appends a leaf below `p`, and succeeds exactly if `p` is a
      list, an empty array, or an array whose first element has that type. */
  lemma SetElemAppends(nodes: Arena, p: nat, idx: int, v: Scalar)
    requires Sound(nodes) && p < |nodes| && idx < 0
    ensures var r := SetElem(nodes, p, idx, v); var kind := nodes[p].kind;
      && Sound(r.nodes) && (forall c :: 0 <= c < |nodes| && c != p ==> r.nodes[c] == nodes[c])
      && (r.result.Some? <==> kind.ListType? || (kind.ArrayType? && (nodes[p].children == [] || FirstKind(nodes, p) == TypeOf(v))))
      && TreesAt(r.nodes, p, 0) == TreesAt(nodes, p, 0) + (if r.result.Some? then [Tree(None, Leaf(v, Default))] else [])
  {
    SetElemSound(nodes, p, idx, v);
    assert InArena(nodes, p);
    if SetElem(nodes, p, idx, v).result.Some? {
      OneMore(nodes, SetElem(nodes, p, idx, v).nodes, p);
    }
  }

  /** The type of the first child. */
  function FirstKind(nodes: Arena, p: nat): Type
    requires p < |nodes| && nodes[p].children != []
  {
    if nodes[p].children[0] < |nodes| then nodes[nodes[p].children[0]].kind else NoType
  }

  /** With another index it writes the leaf that is there, and succeeds exactly if `p` is an array or a
      list with such an element and the element takes the value. */
  lemma SetElemWrites(nodes: Arena, p: nat, idx: nat, v: Scalar)
    requires Sound(nodes) && p < |nodes|
    ensures var r := SetElem(nodes, p, idx, v); var e := Elem(nodes, p, idx);
      && Sound(r.nodes) && |r.nodes| == |nodes|
      && (r.result.Some? <==> nodes[p].kind.IsVector() && e.Some? && e.value < |nodes| && Takes(nodes[e.value].kind, v))
      && (r.result.None? ==> r.nodes == nodes)
      && (r.result.Some? ==>
            && r.result == e && p < e.value < |nodes|
            && (forall c :: 0 <= c < |nodes| && c != e.value ==> r.nodes[c] == nodes[c])
            && TreeAt(r.nodes, e.value) == Tree(nodes[e.value].name, Leaf(Written(nodes[e.value].kind, v), nodes[e.value].format))
            && forall q :: 0 <= q < |nodes| && !Within(nodes, q, e.value) ==> TreeAt(r.nodes, q) == TreeAt(nodes, q))
  {
    SetElemSound(nodes, p, idx, v);
    assert InArena(nodes, p);
    var r := SetElem(nodes, p, idx, v);
    if r.result.Some? {
      var e := r.result.value;
      assert LinkOk(nodes, p, idx);
      hide Within, TreesAt, NamesOk;
      forall q | 0 <= q < |nodes| && !Within(nodes, q, e)
        ensures TreeAt(r.nodes, q) == TreeAt(nodes, q)
      {
        TreeElsewhere(nodes, r.nodes, q, e);
      }
    }
  }
}

/** Building and changing the tree of settings (`config_setting_add`, `_create`, `_remove`, the
    `_set_*` and `_set_*_elem` functions), as functions of the arena and as methods that change it
    in place. */
module Settings {
  import opened Wrappers
  import opened ConfigTrees

  // ---------------------------------------------------------------- reading

  /** Position of the first child from `k` on that answers to `name`, or the number of children. */
  function SearchFrom(nodes: Arena, p: nat, name: string, k: nat): (r: nat)
    requires p < |nodes| && k <= |nodes[p].children|
    ensures k <= r <= |nodes[p].children|
    decreases |nodes[p].children| - k
  {
    if k == |nodes[p].children| || Answers(nodes, nodes[p].children[k], name) then k else SearchFrom(nodes, p, name, k + 1)
  }

  predicate Answers(nodes: Arena, c: nat, name: string) {
    c < |nodes| && nodes[c].name.Some? && Component(name) == Component(nodes[c].name.value)
  }

  /** `config_setting_get_member`. */
  function Member(nodes: Arena, p: nat, name: string): Option<nat>
    requires p < |nodes|
  {
    var k := SearchFrom(nodes, p, name, 0);
    if nodes[p].kind.GroupType? && k < |nodes[p].children| then Some(nodes[p].children[k]) else None
  }

  /** `config_setting_get_elem`; a negative index arrives as a huge one. */
  function Elem(nodes: Arena, p: nat, idx: int): Option<nat>
    requires p < |nodes|
  {
    if nodes[p].kind.IsAggregate() && 0 <= idx < |nodes[p].children| then Some(nodes[p].children[idx]) else None
  }

  // ---------------------------------------------------------------- changing

  /** The value of a zeroed setting. */
  function ZeroOf(kind: Type): Option<Scalar> {
    match kind
    case BoolType => Some(BoolValue(false))
    case IntType => Some(IntValue(0))
    case Int64Type => Some(Int64Value(0))
    case StringType => Some(StringValue(""))
    case _ => None
  }

  datatype Change = Change(nodes: Arena, result: Option<nat>)

  /** `config_setting_create`. */
  function Create(nodes: Arena, p: nat, name: Option<string>, kind: Type): (r: Change)
    requires p < |nodes|
    ensures r.result.Some? ==> r.result.value == |nodes| && |r.nodes| == |nodes| + 1
  {
    if !nodes[p].kind.IsAggregate() then Change(nodes, None)
    else Change(nodes[p := nodes[p].(children := nodes[p].children + [|nodes|])] + [Node(name, kind, Default, ZeroOf(kind), [], Some(p))], Some(|nodes|))
  }

  /** `config_setting_add`; the children of arrays and lists get no name. */
  function Add(nodes: Arena, p: nat, name: Option<string>, kind: Type): (r: Change)
    requires p < |nodes| && (nodes[p].kind.GroupType? ==> name.Some?)
    ensures r.result.Some? ==> r.result.value == |nodes| && |r.nodes| == |nodes| + 1
    ensures r.result.None? ==> r.nodes == nodes
  {
    var given := if nodes[p].kind.IsVector() then None else name;
    if given.Some? && !ValidName(given.value) then Change(nodes, None)
    else if nodes[p].kind.GroupType? && Member(nodes, p, given.value).Some? then Change(nodes, None)
    else Create(nodes, p, given, kind)
  }

  /** `__config_vector_checktype`. */
  predicate CheckType(nodes: Arena, p: nat, kind: Type)
    requires p < |nodes|
  {
    || nodes[p].children == []
    || nodes[p].kind.ListType?
    || (nodes[p].children[0] < |nodes| && nodes[nodes[p].children[0]].kind == kind)
  }

  const INT32_MAX: int := 2147483647
  const INT32_MIN: int := -2147483648

  /** The `config_setting_set_*` functions; none when they answer CONFIG_FALSE. */
  function SetValue(n: Node, v: Scalar): Option<Node> {
    if n.kind.NoType? || n.kind == TypeOf(v) then Some(n.(kind := TypeOf(v), value := Some(v)))
    else if v.Int64Value? && n.kind.IntType? then
      Some(n.(value := Some(IntValue(if INT32_MIN <= v.number64 <= INT32_MAX then v.number64 else 0))))
    else None
  }

  /** The `config_setting_set_*_elem` functions: a negative index appends. */
  function SetElem(nodes: Arena, p: nat, idx: int, v: Scalar): Change
    requires p < |nodes|
  {
    if !nodes[p].kind.IsVector() then Change(nodes, None)
    else if idx < 0 then
      if !CheckType(nodes, p, TypeOf(v)) then Change(nodes, None)
      else
        var c := Create(nodes, p, None, TypeOf(v));
        Change(c.nodes[|nodes| := c.nodes[|nodes|].(value := Some(v))], Some(|nodes|))
    else
      var e := Elem(nodes, p, idx);
      if e.None? || e.value >= |nodes| then Change(nodes, None)
      else
        var changed := SetValue(nodes[e.value], v);
        if changed.None? then Change(nodes, None) else Change(nodes[e.value := changed.value], e)
  }

  /** `config_setting_set_format`. */
  function SetFormat(n: Node, format: Format): Node {
    if n.kind.IntType? || n.kind.Int64Type? then n.(format := format) else n
  }

  /** `__config_list_remove` on the children of `p`. */
  function Unlink(nodes: Arena, p: nat, k: nat): Arena
    requires p < |nodes| && k < |nodes[p].children|
  {
    nodes[p := nodes[p].(children := nodes[p].children[..k] + nodes[p].children[k + 1..])]
  }

  /** `config_setting_remove`; none when it answers CONFIG_FALSE. */
  function Remove(nodes: Arena, p: nat, name: string): Option<Arena>
    requires p < |nodes|
  {
    var k := SearchFrom(nodes, p, name, 0);
    if nodes[p].kind.GroupType? && k < |nodes[p].children| then Some(Unlink(nodes, p, k)) else None
  }

  // ---------------------------------------------------------------- what every change keeps

  /** The children of a group have valid names of their own; those of arrays and lists have none;
      scalars have no children. */
  ghost predicate NamesOk(nodes: Arena, p: nat)
    requires p < |nodes| && InArena(nodes, p)
  {
    var children := nodes[p].children;
    if nodes[p].kind.GroupType? then
      && (forall k :: 0 <= k < |children| ==> nodes[children[k]].name.Some? && ValidName(nodes[children[k]].name.value))
      && (forall j, k :: 0 <= j < k < |children| ==> nodes[children[j]].name != nodes[children[k]].name)
    else
      && (children != [] ==> nodes[p].kind.IsVector())
      && (forall k :: 0 <= k < |children| ==> nodes[children[k]].name.None?)
  }

  ghost predicate InArena(nodes: Arena, p: nat)
    requires p < |nodes|
  {
    forall k :: 0 <= k < |nodes[p].children| ==> nodes[p].children[k] < |nodes|
  }

  /** A configuration as the library keeps it. */
  ghost predicate Sound(nodes: Arena) {
    && nodes != [] && nodes[0].kind.GroupType? && nodes[0].parent.None? && nodes[0].name.None?
    && Grown(nodes)
    && forall p :: 0 <= p < |nodes| ==> InArena(nodes, p) && NamesOk(nodes, p)
  }

  /** In a group of uniquely named settings a name finds its setting, and nothing else does. */
  lemma {:induction false} SearchFinds(nodes: Arena, p: nat, name: string, k: nat, j: nat)
    requires p < |nodes| && InArena(nodes, p) && nodes[p].kind.GroupType? && NamesOk(nodes, p)
    requires k <= j < |nodes[p].children| && nodes[nodes[p].children[j]].name == Some(Component(name))
    ensures SearchFrom(nodes, p, name, k) == j
    decreases j - k
  {
    var c := nodes[p].children[k];
    NameComponent(nodes[c].name.value, "");
    assert nodes[c].name.value + "" == nodes[c].name.value;
    if k < j {
      assert nodes[c].name != nodes[nodes[p].children[j]].name;
      SearchFinds(nodes, p, name, k + 1, j);
    }
  }

  lemma CreateGrown(nodes: Arena, p: nat, name: Option<string>, kind: Type)
    requires Grown(nodes) && p < |nodes| && nodes[p].kind.IsAggregate()
    ensures Grown(Create(nodes, p, name, kind).nodes)
  {
    var next := Create(nodes, p, name, kind).nodes;
    forall q, k | 0 <= q < |next| && 0 <= k < |next[q].children|
      ensures LinkOk(next, q, k)
    {
      if q < |nodes| && k < |nodes[q].children| {
        assert LinkOk(nodes, q, k);
      }
    }
  }

  /** Child `k` bears this name. */
  ghost predicate Bears(nodes: Arena, p: nat, k: nat, name: string)
    requires p < |nodes| && k < |nodes[p].children|
  {
    nodes[p].children[k] < |nodes| && nodes[nodes[p].children[k]].name == Some(name)
  }

  ghost predicate Taken(nodes: Arena, p: nat, name: string)
    requires p < |nodes|
  {
    exists k :: 0 <= k < |nodes[p].children| && Bears(nodes, p, k, name)
  }

  lemma CreateNames(nodes: Arena, p: nat, name: Option<string>, kind: Type, q: nat)
    requires Sound(nodes) && p < |nodes| && nodes[p].kind.IsAggregate() && q <= |nodes|
    requires if nodes[p].kind.GroupType? then name.Some? && ValidName(name.value) && !Taken(nodes, p, name.value) else name.None?
    ensures var next := Create(nodes, p, name, kind).nodes;
      InArena(next, q) && NamesOk(next, q)
  {
    var next := Create(nodes, p, name, kind).nodes;
    if q < |nodes| {
      assert InArena(nodes, q) && NamesOk(nodes, q);
      if q == p {
        var n := |nodes[p].children|;
        assert next[p].children[..n] == nodes[p].children && next[p].children[n] == |nodes|;
        forall k | 0 <= k < n
          ensures next[next[p].children[k]].name == nodes[nodes[p].children[k]].name
          ensures nodes[p].kind.GroupType? ==> nodes[nodes[p].children[k]].name != name
        {
          assert nodes[p].kind.GroupType? ==> !Bears(nodes, p, k, name.value);
        }
      }
    }
  }

  /** Adding keeps a configuration sound: among siblings names stay unique. It fails exactly when
      the parent takes no children or the name is invalid or taken. */
  lemma AddSound(nodes: Arena, p: nat, name: Option<string>, kind: Type)
    requires Sound(nodes) && p < |nodes| && (nodes[p].kind.GroupType? ==> name.Some?)
    ensures Sound(Add(nodes, p, name, kind).nodes)
    ensures Add(nodes, p, name, kind).result.None? <==>
      || !nodes[p].kind.IsAggregate()
      || (nodes[p].kind.GroupType? && (!ValidName(name.value) || Taken(nodes, p, name.value)))
  {
    var r := Add(nodes, p, name, kind);
    if nodes[p].kind.GroupType? && ValidName(name.value) {
      assert InArena(nodes, p) && NamesOk(nodes, p);
      MemberIff(nodes, p, name.value);
    }
    hide Grown, InArena, NamesOk, Member, Taken;
    if r.result.Some? {
      var given := if nodes[p].kind.IsVector() then None else name;
      CreateGrown(nodes, p, given, kind);
      forall q | 0 <= q < |r.nodes|
        ensures InArena(r.nodes, q) && NamesOk(r.nodes, q)
      {
        CreateNames(nodes, p, given, kind, q);
      }
    }
  }

  /** A valid name is found exactly when a child bears it. */
  lemma MemberIff(nodes: Arena, p: nat, name: string)
    requires p < |nodes| && InArena(nodes, p) && NamesOk(nodes, p) && nodes[p].kind.GroupType? && ValidName(name)
    ensures Member(nodes, p, name).Some? <==> Taken(nodes, p, name)
  {
    NameComponent(name, "");
    var r := SearchFrom(nodes, p, name, 0);
    assert name + "" == name;
    if Taken(nodes, p, name) {
      var k :| 0 <= k < |nodes[p].children| && Bears(nodes, p, k, name);
      SearchFinds(nodes, p, name, 0, k);
    }
    if r < |nodes[p].children| {
      FoundAnswers(nodes, p, name, 0);
      var c := nodes[p].children[r];
      NameComponent(nodes[c].name.value, "");
      assert Bears(nodes, p, r, name);
    }
  }

  lemma {:induction false} FoundAnswers(nodes: Arena, p: nat, name: string, k: nat)
    requires p < |nodes| && k <= |nodes[p].children| && SearchFrom(nodes, p, name, k) < |nodes[p].children|
    ensures Answers(nodes, nodes[p].children[SearchFrom(nodes, p, name, k)], name)
    decreases |nodes[p].children| - k
  {
    if k < |nodes[p].children| && !Answers(nodes, nodes[p].children[k], name) {
      FoundAnswers(nodes, p, name, k + 1);
    }
  }

  /** Removing a child keeps a configuration sound. */
  lemma UnlinkSound(nodes: Arena, p: nat, k: nat)
    requires Sound(nodes) && p < |nodes| && k < |nodes[p].children|
    ensures Sound(Unlink(nodes, p, k))
  {
    var next := Unlink(nodes, p, k);
    var was, now := nodes[p].children, next[p].children;
    forall q, j | 0 <= q < |next| && 0 <= j < |next[q].children|
      ensures LinkOk(next, q, j)
    {
      assert q == p ==> now[j] == was[if j < k then j else j + 1];
      assert LinkOk(nodes, q, if q == p && j >= k then j + 1 else j);
    }
    forall q | 0 <= q < |next|
      ensures InArena(next, q) && NamesOk(next, q)
    {
      UnlinkNames(nodes, p, k, q);
    }
  }

  lemma UnlinkNames(nodes: Arena, p: nat, k: nat, q: nat)
    requires Sound(nodes) && p < |nodes| && k < |nodes[p].children| && q < |nodes|
    ensures InArena(Unlink(nodes, p, k), q) && NamesOk(Unlink(nodes, p, k), q)
  {
    assert InArena(nodes, q) && NamesOk(nodes, q);
    var next := Unlink(nodes, p, k);
    var was, now := nodes[p].children, next[p].children;
    if q == p {
      assert forall j :: 0 <= j < |now| ==> now[j] == was[if j < k then j else j + 1];
    }
  }

  /** After a removal the name is free again. */
  lemma RemoveFrees(nodes: Arena, p: nat, name: string)
    requires Sound(nodes) && p < |nodes| && ValidName(name) && Remove(nodes, p, name).Some?
    ensures var next := Remove(nodes, p, name).value;
      Sound(next) && nodes[p].kind.GroupType? && Member(next, p, name).None?
  {
    var k := SearchFrom(nodes, p, name, 0);
    UnlinkSound(nodes, p, k);
    FoundAnswers(nodes, p, name, 0);
    var next := Unlink(nodes, p, k);
    var was, now := nodes[p].children, next[p].children;
    assert InArena(nodes, p) && NamesOk(nodes, p);
    NameComponent(nodes[was[k]].name.value, "");
    NameComponent(name, "");
    assert nodes[was[k]].name == Some(name);
    assert InArena(next, p) && NamesOk(next, p);
    MemberIff(next, p, name);
    forall j | 0 <= j < |now|
      ensures next[now[j]].name != Some(name)
    {
      assert now[j] == was[if j < k then j else j + 1];
    }
  }

  lemma SetElemSound(nodes: Arena, p: nat, idx: int, v: Scalar)
    requires Sound(nodes) && p < |nodes|
    ensures Sound(SetElem(nodes, p, idx, v).nodes)
  {
    var next := SetElem(nodes, p, idx, v).nodes;
    if nodes[p].kind.IsVector() && idx < 0 && CheckType(nodes, p, TypeOf(v)) {
      var made := Create(nodes, p, None, TypeOf(v)).nodes;
      CreateGrown(nodes, p, None, TypeOf(v));
      forall q | 0 <= q < |made|
        ensures InArena(made, q) && NamesOk(made, q)
      {
        CreateNames(nodes, p, None, TypeOf(v), q);
      }
      SameShape(made, next);
    } else if nodes[p].kind.IsVector() && Elem(nodes, p, idx).Some? {
      var e := Elem(nodes, p, idx).value;
      assert InArena(nodes, p);
      assert NamesOk(nodes, e);
      SameShape(nodes, next);
    }
  }

  /** Names and links do not depend on the scalars. */
  lemma SameShape(a: Arena, b: Arena)
    requires Sound(a) && |a| == |b|
    requires forall i :: 0 <= i < |a| ==>
      && b[i].name == a[i].name && b[i].children == a[i].children && b[i].parent == a[i].parent
      && (b[i].kind == a[i].kind || (!a[i].kind.IsAggregate() && !b[i].kind.IsAggregate()))
    ensures Sound(b)
  {
    forall p, k | 0 <= p < |b| && 0 <= k < |b[p].children|
      ensures LinkOk(b, p, k)
    {
      assert LinkOk(a, p, k);
    }
    forall q | 0 <= q < |b|
      ensures InArena(b, q) && NamesOk(b, q)
    {
      assert InArena(a, q) && NamesOk(a, q);
    }
  }

  // ---------------------------------------------------------------- the tree changed in place

  /** A `config_t` with its settings. */
  class Config {
    var nodes: Arena

    /** `config_init`: a root group and nothing in it. */
    constructor ()
      ensures nodes == [Node(None, GroupType, Default, None, [], None)] && Sound(nodes)
    {
      nodes := [Node(None, GroupType, Default, None, [], None)];
    }

    /** `__config_list_search` on the children of `p`. */
    method ListSearch(p: nat, name: string) returns (idx: nat)
      requires p < |nodes| && InArena(nodes, p)
      ensures idx == SearchFrom(nodes, p, name, 0)
    {
      idx := 0;
      while idx < |nodes[p].children|
        invariant idx <= |nodes[p].children|
        invariant SearchFrom(nodes, p, name, idx) == SearchFrom(nodes, p, name, 0)
      {
        var found := nodes[p].children[idx];
        if nodes[found].name.Some? {
          var order := NameCompare(name, nodes[found].name.value);
          if order == 0 {
            return;
          }
        }
        idx := idx + 1;
      }
    }

    method GetMember(p: nat, name: string) returns (r: Option<nat>)
      requires p < |nodes| && InArena(nodes, p)
      ensures r == Member(nodes, p, name)
    {
      if !nodes[p].kind.GroupType? {
        return None;
      }
      var k := ListSearch(p, name);
      r := if k < |nodes[p].children| then Some(nodes[p].children[k]) else None;
    }

    method SettingCreate(p: nat, name: Option<string>, kind: Type) returns (r: Option<nat>)
      requires p < |nodes|
      modifies this
      ensures Change(nodes, r) == Create(old(nodes), p, name, kind)
    {
      if !nodes[p].kind.GroupType? && !nodes[p].kind.ArrayType? && !nodes[p].kind.ListType? {
        return None;
      }
      var setting := |nodes|;
      nodes := nodes + [Node(name, kind, Default, ZeroOf(kind), [], Some(p))];
      nodes := nodes[p := nodes[p].(children := nodes[p].children + [setting])];
      r := Some(setting);
    }

    method SettingAdd(p: nat, name: Option<string>, kind: Type) returns (r: Option<nat>)
      requires Sound(nodes) && p < |nodes| && (nodes[p].kind.GroupType? ==> name.Some?)
      modifies this
      ensures Change(nodes, r) == Add(old(nodes), p, name, kind) && Sound(nodes)
    {
      AddSound(nodes, p, name, kind);
      assert InArena(nodes, p);
      var given := name;
      if nodes[p].kind.ArrayType? || nodes[p].kind.ListType? {
        given := None;
      }
      if given.Some? {
        var valid := ValidateName(given.value);
        if !valid {
          return None;
        }
      }
      if nodes[p].kind.GroupType? {
        var there := GetMember(p, given.value);
        if there.Some? {
          return None;
        }
      }
      r := SettingCreate(p, given, kind);
    }

    method SettingRemove(p: nat, name: string) returns (done: bool)
      requires Sound(nodes) && p < |nodes|
      modifies this
      ensures done <==> Remove(old(nodes), p, name).Some?
      ensures nodes == if done then Remove(old(nodes), p, name).value else old(nodes)
      ensures Sound(nodes)
    {
      if !nodes[p].kind.GroupType? {
        return false;
      }
      var idx := ListSearch(p, name);
      if idx == |nodes[p].children| {
        return false;
      }
      UnlinkSound(nodes, p, idx);
      nodes := Unlink(nodes, p, idx);
      done := true;
    }

    /** `config_setting_remove_elem`. */
    method SettingRemoveElem(p: nat, idx: nat) returns (done: bool)
      requires Sound(nodes) && p < |nodes|
      modifies this
      ensures done <==> Elem(old(nodes), p, idx).Some?
      ensures nodes == if done then Unlink(old(nodes), p, idx) else old(nodes)
      ensures Sound(nodes)
    {
      if !nodes[p].kind.IsAggregate() {
        return false;
      }
      if idx >= |nodes[p].children| {
        return false;
      }
      UnlinkSound(nodes, p, idx);
      nodes := Unlink(nodes, p, idx);
      done := true;
    }

    method VectorCheckType(p: nat, kind: Type) returns (ok: bool)
      requires p < |nodes| && InArena(nodes, p)
      ensures ok <==> CheckType(nodes, p, kind)
    {
      if |nodes[p].children| == 0 {
        return true;
      }
      if nodes[p].kind.ListType? {
        return true;
      }
      ok := nodes[nodes[p].children[0]].kind == kind;
    }

    /** The four `config_setting_set_*_elem` functions. */
    method SettingSetElem(p: nat, idx: int, v: Scalar) returns (r: Option<nat>)
      requires Sound(nodes) && p < |nodes|
      modifies this
      ensures Change(nodes, r) == SetElem(old(nodes), p, idx, v) && Sound(nodes)
    {
      SetElemSound(nodes, p, idx, v);
      assert InArena(nodes, p);
      if !nodes[p].kind.ArrayType? && !nodes[p].kind.ListType? {
        return None;
      }
      if idx < 0 {
        var ok := VectorCheckType(p, TypeOf(v));
        if !ok {
          return None;
        }
        r := SettingCreate(p, None, TypeOf(v));
      } else {
        r := Elem(nodes, p, idx);
        if r.None? {
          return;
        }
      }
      var e := r.value;
      var changed := SetValue(nodes[e], v);
      if changed.None? {
        return None;
      }
      nodes := nodes[e := changed.value];
    }
  }
}

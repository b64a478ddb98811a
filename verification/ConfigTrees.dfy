/** Settings of a configuration: the tree as the library keeps it, nodes that point to one another,
    and the tree it stands for. */
module ConfigTrees {
  import opened Wrappers

  // ---------------------------------------------------------------- names

  predicate IsAlpha(c: char) { 'a' <= c <= 'z' || 'A' <= c <= 'Z' }

  predicate IsDigit(c: char) { '0' <= c <= '9' }

  /** The characters of PATH_TOKENS. */
  predicate IsPathToken(c: char) { c == ':' || c == '.' || c == '/' }

  predicate NameStart(c: char) { IsAlpha(c) || c == '*' }

  predicate NameRest(c: char) { IsAlpha(c) || IsDigit(c) || c == '*' || c == '_' || c == '-' }

  /** The names `config_setting_add` accepts, which are those the scanner's pattern matches. */
  predicate ValidName(name: string) {
    name != "" && NameStart(name[0]) && forall k :: 1 <= k < |name| ==> NameRest(name[k])
  }

  /** `__config_validate_name`. */
  method ValidateName(name: string) returns (valid: bool)
    ensures valid <==> ValidName(name)
  {
    if name == "" {
      return false;
    }
    if !IsAlpha(name[0]) && name[0] != '*' {
      return false;
    }
    var p := 1;
    while p < |name|
      invariant 1 <= p <= |name|
      invariant forall k :: 1 <= k < p ==> NameRest(name[k])
    {
      if !(IsAlpha(name[p]) || IsDigit(name[p]) || name[p] == '*' || name[p] == '_' || name[p] == '-') {
        return false;
      }
      p := p + 1;
    }
    valid := true;
  }

  /** The first component of a path. */
  function Component(path: string): (c: string)
    ensures |c| <= |path| && c == path[..|c|]
    ensures forall k :: 0 <= k < |c| ==> !IsPathToken(c[k])
    ensures |c| < |path| ==> IsPathToken(path[|c|])
  {
    if path == "" || IsPathToken(path[0]) then "" else [path[0]] + Component(path[1..])
  }

  lemma {:induction false} ComponentIs(path: string, n: nat)
    requires n <= |path| && (forall k :: 0 <= k < n ==> !IsPathToken(path[k])) && (n < |path| ==> IsPathToken(path[n]))
    ensures Component(path) == path[..n]
  {
    if n > 0 {
      ComponentIs(path[1..], n - 1);
    }
  }

  /** One text comes before another: it is a proper beginning of it, or smaller where they first differ. */
  ghost predicate Precedes(s: string, t: string) {
    exists p: nat :: p <= |s| && p < |t| && s[..p] == t[..p] && (p == |s| || s[p] < t[p])
  }

  /** `__config_name_compare`: the order of the first components. */
  method NameCompare(a: string, b: string) returns (order: int)
    ensures order == 0 <==> Component(a) == Component(b)
    ensures order < 0 ==> order == -1 && Precedes(Component(a), Component(b))
    ensures order > 0 ==> order == 1 && Precedes(Component(b), Component(a))
  {
    hide Component, Precedes;
    var p := 0;
    while true
      invariant p <= |a| && p <= |b| && forall k :: 0 <= k < p ==> a[k] == b[k] && !IsPathToken(a[k])
      decreases |a| - p
    {
      var pd := p == |a| || IsPathToken(a[p]);
      var qd := p == |b| || IsPathToken(b[p]);
      if pd && qd {
        SameComponents(a, b, p);
        return 0;
      } else if pd {
        FirstPrecedes(a, b, p);
        return -1;
      } else if qd {
        FirstPrecedes(b, a, p);
        return 1;
      } else if a[p] < b[p] {
        FirstPrecedes(a, b, p);
        return -1;
      } else if a[p] > b[p] {
        FirstPrecedes(b, a, p);
        return 1;
      }
      p := p + 1;
    }
  }

  lemma SameComponents(a: string, b: string, p: nat)
    requires p <= |a| && p <= |b| && forall k :: 0 <= k < p ==> a[k] == b[k] && !IsPathToken(a[k])
    requires (p == |a| || IsPathToken(a[p])) && (p == |b| || IsPathToken(b[p]))
    ensures Component(a) == Component(b)
  {
    ComponentIs(a, p);
    ComponentIs(b, p);
    assert a[..p] == b[..p];
  }

  /** Where two texts first differ within their components. */
  lemma FirstPrecedes(a: string, b: string, p: nat)
    requires p <= |a| && p < |b| && !IsPathToken(b[p]) && forall k :: 0 <= k < p ==> a[k] == b[k] && !IsPathToken(a[k])
    requires p == |a| || IsPathToken(a[p]) || a[p] < b[p]
    ensures Precedes(Component(a), Component(b)) && Component(a) != Component(b)
  {
    LongerComponent(b, p);
    var s, t := Component(a), Component(b);
    if p == |a| || IsPathToken(a[p]) {
      ComponentIs(a, p);
    } else {
      LongerComponent(a, p);
    }
    assert s[..p] == t[..p];
  }

  lemma {:induction false} LongerComponent(s: string, p: nat)
    requires p < |s| && forall k :: 0 <= k <= p ==> !IsPathToken(s[k])
    ensures |Component(s)| > p && forall k :: 0 <= k <= p ==> Component(s)[k] == s[k]
  {
    if p > 0 {
      LongerComponent(s[1..], p - 1);
    }
  }

  /** A valid name is a single component. */
  lemma NameComponent(name: string, rest: string)
    requires ValidName(name) && (rest == "" || IsPathToken(rest[0]))
    ensures Component(name + rest) == name && Component(name) == name
  {
    var path := name + rest;
    forall k | 0 <= k < |name|
      ensures !IsPathToken(name[k])
    {
      assert k > 0 ==> NameRest(name[k]);
    }
    assert forall k :: 0 <= k < |name| ==> path[k] == name[k];
    ComponentIs(path, |name|);
    ComponentIs(name, |name|);
    assert path[..|name|] == name;
  }

  // ---------------------------------------------------------------- settings

  /** CONFIG_TYPE_*; floats are left out. */
  datatype Type = NoType | IntType | Int64Type | StringType | BoolType | GroupType | ArrayType | ListType
  {
    predicate IsScalar() { IntType? || Int64Type? || StringType? || BoolType? }

    predicate IsVector() { ArrayType? || ListType? }

    predicate IsAggregate() { GroupType? || IsVector() }
  }

  datatype Format = Default | Hex

  datatype Scalar = BoolValue(flag: bool) | IntValue(number: int) | Int64Value(number64: int) | StringValue(text: string)

  function TypeOf(v: Scalar): Type {
    match v
    case BoolValue(_) => BoolType
    case IntValue(_) => IntType
    case Int64Value(_) => Int64Type
    case StringValue(_) => StringType
  }

  /** A `config_setting_t`; pointers are positions in the arena, and a missing list is an empty
      one, as every operation treats it. */
  datatype Node = Node(name: Option<string>, kind: Type, format: Format, value: Option<Scalar>, children: seq<nat>, parent: Option<nat>)

  type Arena = seq<Node>

  /** A tree of settings as a value. */
  datatype Tree = Tree(name: Option<string>, body: Body)

  datatype Body =
    | Unset
    | Leaf(value: Scalar, format: Format)
    | Group(members: seq<Tree>)
    | Array(elements: seq<Tree>)
    | List(items: seq<Tree>)

  /** Settings are created after their parents and know them. */
  ghost predicate Grown(nodes: Arena) {
    forall p, k :: 0 <= p < |nodes| && 0 <= k < |nodes[p].children| ==> LinkOk(nodes, p, k)
  }

  ghost predicate LinkOk(nodes: Arena, p: nat, k: nat)
    requires p < |nodes| && k < |nodes[p].children|
  {
    var c := nodes[p].children[k]; p < c < |nodes| && nodes[c].parent == Some(p)
  }

  /** The tree below a setting. */
  ghost function TreeAt(nodes: Arena, i: nat): Tree
    requires Grown(nodes) && i < |nodes|
    decreases |nodes| - i, 0
  {
    var n := nodes[i];
    Tree(n.name, match n.kind
                 case GroupType => Group(TreesAt(nodes, i, 0))
                 case ArrayType => Array(TreesAt(nodes, i, 0))
                 case ListType => List(TreesAt(nodes, i, 0))
                 case _ => if n.value.Some? then Leaf(n.value.value, n.format) else Unset)
  }

  /** The trees below its children from the `k`-th on. */
  ghost function TreesAt(nodes: Arena, i: nat, k: nat): seq<Tree>
    requires Grown(nodes) && i < |nodes| && k <= |nodes[i].children|
    decreases |nodes| - i - 1, |nodes[i].children| - k + 1
  {
    if k == |nodes[i].children| then []
    else
      assert LinkOk(nodes, i, k);
      [TreeAt(nodes, nodes[i].children[k])] + TreesAt(nodes, i, k + 1)
  }

  // ---------------------------------------------------------------- well-formed trees

  predicate IsLeaf(t: Tree) { t.body.Leaf? }

  /** The format is decimal unless the value is an integer. */
  predicate FormatOk(v: Scalar, format: Format) { format.Hex? ==> v.IntValue? || v.Int64Value? }

  /** What can be written down and read again: groups of uniquely and validly named settings,
      arrays of scalars of one type, lists of anything. */
  ghost predicate WellFormed(b: Body)
    decreases b
  {
    match b
    case Unset => false
    case Leaf(v, format) => FormatOk(v, format)
    case Group(members) =>
      && (forall k :: 0 <= k < |members| ==> members[k].name.Some? && ValidName(members[k].name.value) && WellFormed(members[k].body))
      && (forall j, k :: 0 <= j < k < |members| ==> members[j].name != members[k].name)
    case Array(elements) =>
      && (forall k :: 0 <= k < |elements| ==> elements[k].name.None? && IsLeaf(elements[k]) && WellFormed(elements[k].body))
      && (forall k :: 0 <= k < |elements| ==> SameType(elements[0], elements[k]))
    case List(items) =>
      forall k :: 0 <= k < |items| ==> items[k].name.None? && WellFormed(items[k].body)
  }

  predicate SameType(a: Tree, b: Tree) { IsLeaf(a) && IsLeaf(b) && TypeOf(a.body.value) == TypeOf(b.body.value) }
}

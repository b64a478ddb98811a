/** What the parser keeps on any input, well-formed or not: it never follows a null pointer, and
    the tree of any text it accepts is well-formed. */
module ParserInvariants {
  import opened Wrappers
  import opened ConfigTrees
  import opened Settings
  import opened ConfigWriter
  import opened ConfigParser
  import opened TreeBuilding
  import opened RoundTrip

  // ---------------------------------------------------------------- where the parser is

  function CloserOf(kind: Type): Token { if kind.GroupType? then GroupEnd else if kind.ArrayType? then ArrayEnd else ListEnd }

  /** What is expected once everything inside `p` has been read. */
  ghost predicate Closed(nodes: Arena, p: nat, stack: seq<Symbol>)
    decreases |stack|, 0
  {
    && p < |nodes| && nodes[p].kind.IsAggregate()
    && if p == 0 then stack == [] && nodes[p].kind.GroupType?
       else
         && |stack| >= 2 && stack[0] == Close(CloserOf(nodes[p].kind)) && stack[1] == Up
         && nodes[p].parent.Some? && nodes[p].parent.value < p && AfterValue(nodes, nodes[p].parent.value, stack[2..])
  }

  /** What is expected inside `p` once a value has been read. */
  ghost predicate AfterValue(nodes: Arena, p: nat, stack: seq<Symbol>)
    decreases |stack|, 1
  {
    && p < |nodes| && stack != []
    && match nodes[p].kind
       case GroupType => |stack| >= 2 && stack[0] == NeedEnd && stack[1] == Settings && Closed(nodes, p, stack[2..])
       case ListType => stack[0] == MoreValues && Closed(nodes, p, stack[1..])
       case ArrayType => stack[0] == MoreSimples && Closed(nodes, p, stack[1..])
       case _ => false
  }

  /** The setting that has been named but has no value yet. */
  ghost predicate Named(nodes: Arena, p: nat, setting: Option<nat>) {
    setting.Some? && p < setting.value && Fresh(nodes, setting.value) && nodes[setting.value].parent == Some(p)
  }

  ghost predicate Position(nodes: Arena, p: nat, setting: Option<nat>, stack: seq<Symbol>) {
    && p < |nodes|
    && if stack == [] then p == 0
       else match stack[0]
         case Settings => nodes[p].kind.GroupType? && Closed(nodes, p, stack[1..])
         case NeedEquals =>
           nodes[p].kind.GroupType? && Named(nodes, p, setting) && |stack| >= 2 && stack[1] == Value && AfterValue(nodes, p, stack[2..])
         case Value =>
           AfterValue(nodes, p, stack[1..]) && (nodes[p].kind.ListType? || (nodes[p].kind.GroupType? && Named(nodes, p, setting)))
         case Simple => nodes[p].kind.ArrayType? && AfterValue(nodes, p, stack[1..])
         case Simples => nodes[p].kind.ArrayType? && Closed(nodes, p, stack[1..])
         case Values => nodes[p].kind.ListType? && Closed(nodes, p, stack[1..])
         case Close(_) => Closed(nodes, p, stack)
         case Up => nodes[p].parent.Some? && nodes[p].parent.value < p && AfterValue(nodes, nodes[p].parent.value, stack[1..])
         case _ => AfterValue(nodes, p, stack)
  }

  /** Positions depend on the types and parents of the settings up to `p` only. */
  ghost predicate SameBelow(a: Arena, b: Arena, p: nat) {
    p < |a| <= |b| && forall q :: 0 <= q <= p ==> b[q].kind == a[q].kind && b[q].parent == a[q].parent
  }

  lemma {:induction false} ClosedFrame(a: Arena, b: Arena, p: nat, stack: seq<Symbol>)
    requires SameBelow(a, b, p) && Closed(a, p, stack)
    ensures Closed(b, p, stack)
    decreases |stack|, 0
  {
    if p > 0 {
      AfterFrame(a, b, a[p].parent.value, stack[2..]);
    }
  }

  lemma {:induction false} AfterFrame(a: Arena, b: Arena, p: nat, stack: seq<Symbol>)
    requires SameBelow(a, b, p) && AfterValue(a, p, stack)
    ensures AfterValue(b, p, stack)
    decreases |stack|, 1
  {
    if a[p].kind.GroupType? {
      ClosedFrame(a, b, p, stack[2..]);
    } else {
      ClosedFrame(a, b, p, stack[1..]);
    }
  }

  // ---------------------------------------------------------------- finished settings

  /** A setting that needs nothing more: scalars have a value of their type, and the elements of
      an array are scalars of one type. */
  ghost predicate NodeOk(nodes: Arena, i: nat)
    requires i < |nodes| && InArena(nodes, i)
  {
    var n := nodes[i];
    && !n.kind.NoType?
    && (n.kind.IsScalar() ==> n.value.Some? && TypeOf(n.value.value) == n.kind && FormatOk(n.value.value, n.format))
    && (n.kind.ArrayType? ==> forall k :: 0 <= k < |n.children| ==>
          nodes[n.children[k]].kind.IsScalar() && nodes[n.children[k]].kind == nodes[n.children[0]].kind)
  }

  ghost predicate Finished(nodes: Arena, pending: Option<nat>) {
    forall i :: 0 <= i < |nodes| && pending != Some(i) ==> InArena(nodes, i) && NodeOk(nodes, i)
  }

  /** The setting still to be given its value. */
  ghost function Pending(st: State): Option<nat>
    requires InRange(st.ctx)
  {
    if st.stack != [] && st.ctx.parent.Some? && st.ctx.nodes[st.ctx.parent.value].kind.GroupType?
       && (st.stack[0].NeedEquals? || st.stack[0].Value?) then st.ctx.setting
    else None
  }

  /** What holds before every step of the parser. */
  ghost predicate Parsing(st: State) {
    && InRange(st.ctx) && Sound(st.ctx.nodes) && st.ctx.parent.Some?
    && Position(st.ctx.nodes, st.ctx.parent.value, st.ctx.setting, st.stack)
    && Finished(st.ctx.nodes, Pending(st))
  }

  // ---------------------------------------------------------------- the actions

  lemma LiteralOk(t: Token)
    requires LiteralOf(t).Some?
    ensures FormatOk(LiteralOf(t).value.value, LiteralOf(t).value.format)
  {
  }

  /** Changing one setting that has no children. */
  lemma ChildlessSound(nodes: Arena, s: nat, n: Node)
    requires Sound(nodes) && 0 < s < |nodes| && nodes[s].children == []
    requires n.name == nodes[s].name && n.children == [] && n.parent == nodes[s].parent
    ensures Sound(nodes[s := n])
  {
    var next := nodes[s := n];
    forall p, k | 0 <= p < |next| && 0 <= k < |next[p].children|
      ensures LinkOk(next, p, k)
    {
      assert LinkOk(nodes, p, k);
    }
    forall q | 0 <= q < |next|
      ensures InArena(next, q) && NamesOk(next, q)
    {
      assert InArena(nodes, q) && NamesOk(nodes, q);
    }
  }

  /** A setting that was pending is finished by a change to it that makes it well-formed. */
  lemma PendingDone(nodes: Arena, s: nat, n: Node)
    requires Sound(nodes) && 0 < s < |nodes| && Fresh(nodes, s) && Finished(nodes, Some(s))
    requires n.children == [] && !n.kind.NoType?
    requires n.kind.IsScalar() ==> n.value.Some? && TypeOf(n.value.value) == n.kind && FormatOk(n.value.value, n.format)
    ensures Finished(nodes[s := n], None)
  {
    var next := nodes[s := n];
    forall i | 0 <= i < |next|
      ensures InArena(next, i) && NodeOk(next, i)
    {
      if i != s {
        assert InArena(nodes, i) && NodeOk(nodes, i);
        forall k | 0 <= k < |nodes[i].children|
          ensures nodes[i].kind.ArrayType? ==> nodes[i].children[k] != s
        {
          assert LinkOk(nodes, i, k);
          assert nodes[i].kind.ArrayType? ==> nodes[nodes[i].children[k]].kind.IsScalar();
        }
      }
    }
  }

  lemma NameKeeps(ctx: Context, name: string)
    requires InRange(ctx) && Sound(ctx.nodes) && ctx.parent.Some? && ctx.nodes[ctx.parent.value].kind.GroupType?
    requires Finished(ctx.nodes, None) && NameAction(ctx, name).Done?
    ensures var next := NameAction(ctx, name).ctx; var p := ctx.parent.value;
      && Sound(next.nodes) && next.parent == ctx.parent && Named(next.nodes, p, next.setting)
      && Finished(next.nodes, next.setting) && SameBelow(ctx.nodes, next.nodes, p)
  {
    var nodes, p := ctx.nodes, ctx.parent.value;
    AddSound(nodes, p, Some(name), NoType);
    var next := NameAction(ctx, name).ctx;
    assert next.nodes == Attach(nodes, p, Some(name));
    forall i | 0 <= i < |nodes|
      ensures InArena(next.nodes, i) && NodeOk(next.nodes, i)
    {
      assert InArena(nodes, i) && NodeOk(nodes, i);
    }
  }

  lemma OpenKeeps(ctx: Context, kind: Type)
    requires InRange(ctx) && Sound(ctx.nodes) && ctx.parent.Some? && kind.IsAggregate()
    requires var n := ctx.nodes[ctx.parent.value];
      || (n.kind.ListType? && Finished(ctx.nodes, None))
      || (n.kind.GroupType? && Named(ctx.nodes, ctx.parent.value, ctx.setting) && Finished(ctx.nodes, ctx.setting))
    ensures OpenAction(ctx, kind).Done?
    ensures var next := OpenAction(ctx, kind).ctx; var p := ctx.parent.value;
      && InRange(next) && Sound(next.nodes) && Finished(next.nodes, None) && SameBelow(ctx.nodes, next.nodes, p)
      && next.parent.Some? && p < next.parent.value
      && next.nodes[next.parent.value].kind == kind && next.nodes[next.parent.value].parent == Some(p)
  {
    var nodes, p := ctx.nodes, ctx.parent.value;
    if nodes[p].kind.ListType? {
      AddSound(nodes, p, None, kind);
      var r := Add(nodes, p, None, kind);
      forall i | 0 <= i < |r.nodes|
        ensures InArena(r.nodes, i) && NodeOk(r.nodes, i)
      {
        if i < |nodes| {
          assert InArena(nodes, i) && NodeOk(nodes, i);
        }
      }
    } else {
      var s := ctx.setting.value;
      ChildlessSound(nodes, s, nodes[s].(kind := kind));
      PendingDone(nodes, s, nodes[s].(kind := kind));
    }
  }

  lemma ScalarKeeps(ctx: Context, v: Scalar, format: Format)
    requires InRange(ctx) && Sound(ctx.nodes) && ctx.parent.Some? && FormatOk(v, format)
    requires var n := ctx.nodes[ctx.parent.value];
      || (n.kind.IsVector() && Finished(ctx.nodes, None))
      || (n.kind.GroupType? && Named(ctx.nodes, ctx.parent.value, ctx.setting) && Finished(ctx.nodes, ctx.setting))
    ensures !ScalarAction(ctx, v, format).NullPointer?
    ensures ScalarAction(ctx, v, format).Done? ==>
      var next := ScalarAction(ctx, v, format).ctx; var p := ctx.parent.value;
      InRange(next) && next.parent == ctx.parent && Sound(next.nodes) && Finished(next.nodes, None) && SameBelow(ctx.nodes, next.nodes, p)
  {
    var nodes, p := ctx.nodes, ctx.parent.value;
    if nodes[p].kind.IsVector() {
      if CheckType(nodes, p, TypeOf(v)) {
        ElementKeeps(ctx, v, format);
      }
    } else {
      var s := ctx.setting.value;
      var n := SetFormat(SetValue(nodes[s], v).value, format);
      assert InArena(nodes, p) && NamesOk(nodes, p);
      ChildlessSound(nodes, s, n);
      PendingDone(nodes, s, n);
    }
  }

  /** A scalar appended to an array or list. */
  lemma ElementKeeps(ctx: Context, v: Scalar, format: Format)
    requires InRange(ctx) && Sound(ctx.nodes) && ctx.parent.Some? && FormatOk(v, format)
    requires ctx.nodes[ctx.parent.value].kind.IsVector() && Finished(ctx.nodes, None) && CheckType(ctx.nodes, ctx.parent.value, TypeOf(v))
    ensures ScalarAction(ctx, v, format).Done?
    ensures var next := ScalarAction(ctx, v, format).ctx; var p := ctx.parent.value;
      InRange(next) && next.parent == ctx.parent && Sound(next.nodes) && Finished(next.nodes, None) && SameBelow(ctx.nodes, next.nodes, p)
  {
    var nodes, p, s := ctx.nodes, ctx.parent.value, |ctx.nodes|;
    var made := SetElem(nodes, p, -1, v).nodes;
    SetElemSound(nodes, p, -1, v);
    var n := SetFormat(made[s], format);
    var next := made[s := n];
    assert ScalarAction(ctx, v, format) == Done(ctx.(nodes := next));
    hide SetElem, CheckType, Sound, Finished;
    ChildlessSound(made, s, n);
    ElementFinished(nodes, p, v, format, next);
  }

  lemma ElementFinished(nodes: Arena, p: nat, v: Scalar, format: Format, next: Arena)
    requires p < |nodes| && nodes[p].kind.IsVector() && Finished(nodes, None) && CheckType(nodes, p, TypeOf(v)) && FormatOk(v, format)
    requires |next| == |nodes| + 1 && (forall i :: 0 <= i < |nodes| && i != p ==> next[i] == nodes[i])
    requires next[p] == nodes[p].(children := nodes[p].children + [|nodes|])
    requires var n := next[|nodes|]; n.kind == TypeOf(v) && n.value == Some(v) && n.children == [] && FormatOk(v, n.format)
    ensures Finished(next, None)
  {
    forall i | 0 <= i < |next|
      ensures InArena(next, i) && NodeOk(next, i)
    {
      if i == p {
        assert InArena(nodes, p) && NodeOk(nodes, p);
        var n := |nodes[p].children|;
        assert forall k :: 0 <= k < n ==> next[p].children[k] == nodes[p].children[k];
        assert next[p].children[n] == |nodes|;
        hide TypeOf;
      } else if i < |nodes| {
        assert InArena(nodes, i) && NodeOk(nodes, i);
        hide TypeOf;
      }
    }
  }

  // ---------------------------------------------------------------- one step

  /** What a step of the parser may lead to. */
  ghost predicate Carries(r: Outcome) {
    match r
    case Running(next) => Parsing(next)
    case Accepted(nodes) => Sound(nodes) && Finished(nodes, None)
    case Rejected => true
    case Crashed => false
  }

  /** Reading a value leaves the parser where its container expects it. */
  lemma ValueKeeps(ctx: Context, k: seq<Symbol>, tokens: seq<Token>, simple: bool)
    requires InRange(ctx) && Sound(ctx.nodes) && ctx.parent.Some? && AfterValue(ctx.nodes, ctx.parent.value, k)
    requires var n := ctx.nodes[ctx.parent.value];
      && (simple <==> n.kind.ArrayType?)
      && (n.kind.IsVector() ==> Finished(ctx.nodes, None))
      && (n.kind.GroupType? ==> Named(ctx.nodes, ctx.parent.value, ctx.setting) && Finished(ctx.nodes, ctx.setting))
    ensures Carries(ValueStep(ctx, k, tokens, simple))
  {
    if tokens != [] {
      hide Sound, Finished, ScalarAction, OpenAction, AfterValue, Closed, Named, SameBelow;
      var nodes, p, t := ctx.nodes, ctx.parent.value, tokens[0];
      assert nodes[p].kind.IsAggregate() by {
        ContainerKind(nodes, p, k);
      }
      if LiteralOf(t).Some? {
        var v, format := LiteralOf(t).value.value, LiteralOf(t).value.format;
        LiteralOk(t);
        ScalarKeeps(ctx, v, format);
        if ScalarAction(ctx, v, format).Done? {
          var next := ScalarAction(ctx, v, format).ctx;
          AfterFrame(nodes, next.nodes, p, k);
          AfterPosition(next, k, tokens[1..]);
        }
      } else if !simple && (t.ArrayStart? || t.ListStart? || t.GroupStart?) {
        var kind := if t.ArrayStart? then ArrayType else if t.ListStart? then ListType else GroupType;
        OpenKeeps(ctx, kind);
        var next := OpenAction(ctx, kind).ctx;
        AfterFrame(nodes, next.nodes, p, k);
        OpenedPosition(next, p, kind, k, tokens[1..]);
      }
    }
  }

  lemma ContainerKind(nodes: Arena, p: nat, k: seq<Symbol>)
    requires AfterValue(nodes, p, k)
    ensures p < |nodes| && nodes[p].kind.IsAggregate()
  {
  }

  lemma AfterPosition(ctx: Context, k: seq<Symbol>, tokens: seq<Token>)
    requires InRange(ctx) && Sound(ctx.nodes) && ctx.parent.Some? && Finished(ctx.nodes, None) && AfterValue(ctx.nodes, ctx.parent.value, k)
    ensures Parsing(State(ctx, k, tokens))
  {
    hide Sound, Finished, Closed;
  }

  lemma OpenedPosition(ctx: Context, q: nat, kind: Type, k: seq<Symbol>, tokens: seq<Token>)
    requires InRange(ctx) && Sound(ctx.nodes) && ctx.parent.Some? && Finished(ctx.nodes, None)
    requires kind.IsAggregate() && AfterValue(ctx.nodes, q, k) && q < ctx.parent.value
    requires ctx.nodes[ctx.parent.value].kind == kind && ctx.nodes[ctx.parent.value].parent == Some(q)
    ensures var first := if kind.GroupType? then Settings else if kind.ArrayType? then Simples else Values;
      Parsing(State(ctx, [first, Close(CloserOf(kind)), Up] + k, tokens))
  {
    hide Sound, Finished, AfterValue;
    var first := if kind.GroupType? then Settings else if kind.ArrayType? then Simples else Values;
    var stack := [first, Close(CloserOf(kind)), Up] + k;
    assert stack[1..] == [Close(CloserOf(kind)), Up] + k && stack[1..][2..] == k;
    assert Closed(ctx.nodes, ctx.parent.value, stack[1..]);
  }

  /** Matching a terminal, or giving up on a row, only shortens the stack. */
  lemma ShorterPosition(st: State, tokens: seq<Token>)
    requires Parsing(st) && st.stack != [] && Pending(st).None?
    requires st.stack[0].Settings? || st.stack[0].Simples? || st.stack[0].Values? || st.stack[0].NeedEnd? || st.stack[0].Close?
          || st.stack[0].MoreSimples? || st.stack[0].MoreValues?
    ensures Parsing(State(st.ctx, st.stack[1..], tokens))
  {
    hide Sound, Finished;
    var nodes, p, rest := st.ctx.nodes, st.ctx.parent.value, st.stack[1..];
    if st.stack[0].Close? {
      assert rest[0] == Up && rest[1..] == st.stack[2..];
    } else if st.stack[0].NeedEnd? {
      assert rest[0] == Settings && rest[1..] == st.stack[2..];
    } else {
      assert Closed(nodes, p, rest);
      assert rest != [] ==> rest[0].Close?;
    }
  }

  /** Expecting one value more in a row. */
  lemma LongerPosition(st: State, tokens: seq<Token>)
    requires Parsing(st) && st.stack != [] && Pending(st).None?
    requires st.stack[0].Simples? || st.stack[0].Values? || st.stack[0].MoreSimples? || st.stack[0].MoreValues?
    ensures var simple := st.stack[0].Simples? || st.stack[0].MoreSimples?;
      Parsing(State(st.ctx, [if simple then Simple else Value, if simple then MoreSimples else MoreValues] + st.stack[1..], tokens))
  {
    hide Sound, Finished;
    var simple := st.stack[0].Simples? || st.stack[0].MoreSimples?;
    var more := if simple then MoreSimples else MoreValues;
    var stack := [if simple then Simple else Value, more] + st.stack[1..];
    assert stack[1..] == [more] + st.stack[1..] && stack[1..][1..] == st.stack[1..];
    assert Closed(st.ctx.nodes, st.ctx.parent.value, st.stack[1..]);
    assert AfterValue(st.ctx.nodes, st.ctx.parent.value, stack[1..]);
  }

  lemma NameStep(st: State)
    requires Parsing(st) && st.stack != [] && st.stack[0].Settings? && st.tokens != [] && st.tokens[0].NameToken?
    ensures Carries(Step(st))
  {
    var ctx, name, rest := st.ctx, st.tokens[0].name, st.stack[1..];
    assert !NameAction(ctx, name).NullPointer?;
    hide Sound, Finished, NameAction, Named, SameBelow, Closed;
    if NameAction(ctx, name).Done? {
      NameKeeps(ctx, name);
      var next, p := NameAction(ctx, name).ctx, ctx.parent.value;
      ClosedFrame(ctx.nodes, next.nodes, p, rest);
      assert next.nodes[p].kind.GroupType? by {
        SameKind(ctx.nodes, next.nodes, p);
      }
      NamedPosition(next, rest, st.tokens[1..]);
    }
  }

  lemma SameKind(a: Arena, b: Arena, p: nat)
    requires SameBelow(a, b, p)
    ensures p < |b| && b[p].kind == a[p].kind
  {
  }

  lemma NamedPosition(ctx: Context, rest: seq<Symbol>, tokens: seq<Token>)
    requires ctx.parent.Some? && ctx.parent.value < |ctx.nodes| && Sound(ctx.nodes) && Finished(ctx.nodes, ctx.setting)
    requires ctx.nodes[ctx.parent.value].kind.GroupType? && Named(ctx.nodes, ctx.parent.value, ctx.setting) && Closed(ctx.nodes, ctx.parent.value, rest)
    ensures Parsing(State(ctx, [NeedEquals, Value, NeedEnd, Settings] + rest, tokens))
  {
    hide Sound, Finished, Closed;
    var stack := [NeedEquals, Value, NeedEnd, Settings] + rest;
    assert stack[2..] == [NeedEnd, Settings] + rest && stack[2..][2..] == rest;
    assert AfterValue(ctx.nodes, ctx.parent.value, stack[2..]);
  }

  lemma EqualsStep(st: State)
    requires Parsing(st) && st.stack != [] && st.stack[0].NeedEquals?
    ensures Carries(Step(st))
  {
    hide Sound, Finished, AfterValue, Named;
    assert st.stack[1..][1..] == st.stack[2..];
  }

  lemma UpStep(st: State)
    requires Parsing(st) && st.stack != [] && st.stack[0].Up?
    ensures Carries(Step(st))
  {
    hide Sound, Finished, AfterValue;
    AfterPosition(CloseAction(st.ctx), st.stack[1..], st.tokens);
  }

  lemma ValueCase(st: State)
    requires Parsing(st) && st.stack != [] && (st.stack[0].Value? || st.stack[0].Simple?)
    ensures Carries(Step(st))
  {
    hide Sound, Finished, AfterValue, Named, ValueStep, Carries;
    ContainerKind(st.ctx.nodes, st.ctx.parent.value, st.stack[1..]);
    ValueKeeps(st.ctx, st.stack[1..], st.tokens, st.stack[0].Simple?);
  }

  /** Every step keeps the invariant. */
  lemma StepKeeps(st: State)
    requires Parsing(st)
    ensures Carries(Step(st))
  {
    hide Sound, Finished, Position;
    if st.stack != [] {
      match st.stack[0] {
        case Settings =>
          if st.tokens != [] && st.tokens[0].NameToken? {
            NameStep(st);
          } else {
            ShorterPosition(st, st.tokens);
          }
        case NeedEquals => EqualsStep(st);
        case Up => UpStep(st);
        case Value => ValueCase(st);
        case Simple => ValueCase(st);
        case NeedEnd => if st.tokens != [] { ShorterPosition(st, st.tokens[1..]); }
        case Close(_) => if st.tokens != [] { ShorterPosition(st, st.tokens[1..]); }
        case _ =>
          ShorterPosition(st, st.tokens);
          LongerPosition(st, st.tokens);
          if st.tokens != [] {
            LongerPosition(st, st.tokens[1..]);
          }
      }
    }
  }

  // ---------------------------------------------------------------- whole parses

  lemma {:induction false} RunKeeps(st: State)
    requires Parsing(st)
    ensures Run(st).Accepted? || Run(st).Rejected?
    ensures Run(st).Accepted? ==> Sound(Run(st).nodes) && Finished(Run(st).nodes, None)
    decreases |st.tokens|, Weight(st.stack)
  {
    hide Sound, Finished, Position, Step;
    StepKeeps(st);
    if Step(st).Running? {
      StepShrinks(st);
      RunKeeps(Step(st).state);
    }
  }

  /** Finished settings make well-formed trees. */
  lemma {:induction false} FinishedTree(nodes: Arena, i: nat)
    requires Sound(nodes) && Finished(nodes, None) && i < |nodes|
    ensures TreeAt(nodes, i).name == nodes[i].name && WellFormed(TreeAt(nodes, i).body)
    decreases |nodes| - i, 0
  {
    var n := nodes[i];
    assert InArena(nodes, i) && NamesOk(nodes, i) && NodeOk(nodes, i);
    if n.kind.IsAggregate() {
      FinishedTrees(nodes, i, 0);
      var ts := TreesAt(nodes, i, 0);
      forall k | 0 <= k < |ts|
        ensures ts[k].name == nodes[n.children[k]].name && WellFormed(ts[k].body)
      {
        assert n.children[0 + k] == n.children[k];
      }
      if n.kind.ArrayType? {
        ArrayTree(nodes, i);
      }
      hide Sound, Finished, TreesAt, NodeOk;
    }
  }

  lemma ArrayTree(nodes: Arena, i: nat)
    requires Sound(nodes) && Finished(nodes, None) && i < |nodes| && nodes[i].kind.ArrayType?
    requires var ts := TreesAt(nodes, i, 0);
      |ts| == |nodes[i].children| && forall j :: 0 <= j < |ts| ==> nodes[i].children[j] < |nodes| && ts[j] == TreeAt(nodes, nodes[i].children[j])
    ensures var ts := TreesAt(nodes, i, 0); forall k :: 0 <= k < |ts| ==> IsLeaf(ts[k]) && SameType(ts[0], ts[k])
  {
    assert InArena(nodes, i) && NodeOk(nodes, i);
    var ts := TreesAt(nodes, i, 0);
    forall k | 0 <= k < |ts|
      ensures IsLeaf(ts[k]) && SameType(ts[0], ts[k])
    {
      ScalarTree(nodes, nodes[i].children[0]);
      ScalarTree(nodes, nodes[i].children[k]);
    }
  }

  lemma ScalarTree(nodes: Arena, i: nat)
    requires Sound(nodes) && Finished(nodes, None) && i < |nodes| && nodes[i].kind.IsScalar()
    ensures var n := nodes[i];
      n.value.Some? && TreeAt(nodes, i).body == Leaf(n.value.value, n.format) && TypeOf(n.value.value) == n.kind
  {
    assert InArena(nodes, i) && NodeOk(nodes, i);
  }

  lemma {:induction false} FinishedTrees(nodes: Arena, i: nat, k: nat)
    requires Sound(nodes) && Finished(nodes, None) && i < |nodes| && k <= |nodes[i].children|
    ensures var ts := TreesAt(nodes, i, k);
      && |ts| == |nodes[i].children| - k
      && forall j :: 0 <= j < |ts| ==>
           && nodes[i].children[k + j] < |nodes|
           && ts[j] == TreeAt(nodes, nodes[i].children[k + j])
           && ts[j].name == nodes[nodes[i].children[k + j]].name && WellFormed(ts[j].body)
    decreases |nodes| - i - 1, |nodes[i].children| - k + 1
  {
    if k < |nodes[i].children| {
      assert LinkOk(nodes, i, k);
      FinishedTree(nodes, nodes[i].children[k]);
      FinishedTrees(nodes, i, k + 1);
      var ts, rest := TreesAt(nodes, i, k), TreesAt(nodes, i, k + 1);
      forall j | 0 <= j < |ts|
        ensures nodes[i].children[k + j] < |nodes| && ts[j] == TreeAt(nodes, nodes[i].children[k + j])
        ensures ts[j].name == nodes[nodes[i].children[k + j]].name && WellFormed(ts[j].body)
      {
        if j > 0 {
          assert ts[j] == rest[j - 1];
          assert nodes[i].children[(k + 1) + (j - 1)] == nodes[i].children[k + j];
        }
      }
    }
  }

  lemma StartParsing(tokens: seq<Token>)
    ensures Parsing(State(Context(EMPTY, Some(0), Some(0)), [Settings], tokens))
  {
    assert [Settings][1..] == [];
    assert InArena(EMPTY, 0) && NamesOk(EMPTY, 0) && NodeOk(EMPTY, 0);
  }

  /** On every text the parser accepts or rejects, never following a null pointer; what it builds
      for an accepted one is a sound configuration and a well-formed tree. */
  lemma ParserSound(tokens: seq<Token>)
    ensures Parse(tokens).Accepted? || Parse(tokens).Rejected?
    ensures Parse(tokens).Accepted? ==>
      var nodes := Parse(tokens).nodes;
      && Sound(nodes) && TreeAt(nodes, 0).name.None? && TreeAt(nodes, 0).body.Group? && WellFormed(TreeAt(nodes, 0).body)
  {
    StartParsing(tokens);
    RunKeeps(State(Context(EMPTY, Some(0), Some(0)), [Settings], tokens));
    if Parse(tokens).Accepted? {
      FinishedTree(Parse(tokens).nodes, 0);
    }
  }

  /** Writing what was parsed and parsing it again changes nothing, as long as no name read as
      such is a boolean word. */
  lemma ParsedAgain(tokens: seq<Token>)
    requires Parse(tokens).Accepted?
    requires Sound(Parse(tokens).nodes) ==> Readable(TreeAt(Parse(tokens).nodes, 0).body)
    ensures Sound(Parse(tokens).nodes)
    ensures var t := TreeAt(Parse(tokens).nodes, 0);
      var again := Parse(Written(t));
      again.Accepted? && Sound(again.nodes) && TreeAt(again.nodes, 0) == t
  {
    hide Run, Readable, WellFormed;
    ParserSound(tokens);
    var t := TreeAt(Parse(tokens).nodes, 0);
    RoundTripIff(t);
    ParserSound(Written(t));
  }
}

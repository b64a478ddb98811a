/** Writing a configuration and parsing what was written gives the configuration back. */
module RoundTrip {
  import opened Wrappers
  import opened ConfigTrees
  import opened Settings
  import opened ConfigWriter
  import opened ConfigParser
  import opened TreeBuilding

  /** No setting is named by a word the scanner reads as a boolean. */
  ghost predicate Readable(b: Body)
    decreases b
  {
    match b
    case Group(members) =>
      forall k :: 0 <= k < |members| ==> members[k].name.Some? && !IsBooleanWord(members[k].name.value) && Readable(members[k].body)
    case List(items) => forall k :: 0 <= k < |items| ==> Readable(items[k].body)
    case _ => true
  }

  function At(nodes: Arena, p: nat, setting: Option<nat>, stack: seq<Symbol>, tokens: seq<Token>): State {
    State(Context(nodes, Some(p), setting), stack, tokens)
  }

  predicate Pointing(nodes: Arena, setting: Option<nat>) { setting.Some? ==> setting.value < |nodes| }

  lemma RunStep(st: State)
    requires InRange(st.ctx) && Step(st).Running?
    ensures Run(st) == Run(Step(st).state)
  {
    hide Step;
  }

  // ---------------------------------------------------------------- scalars

  lemma LiteralReads(v: Scalar, format: Format)
    requires FormatOk(v, format)
    ensures LiteralOf(ScalarToken(v, format)) == Some(Literal(v, format))
  {
  }

  /** A scalar in a group fills the setting just named. */
  lemma ScalarInGroup(nodes: Arena, p: nat, s: nat, v: Scalar, format: Format)
    requires p < |nodes| && Fresh(nodes, s) && nodes[p].kind.GroupType? && FormatOk(v, format)
    ensures ScalarAction(Context(nodes, Some(p), Some(s)), v, format)
         == Done(Context(Fill(nodes, s, Leaf(v, format)), Some(p), Some(s)))
  {
  }

  /** A scalar in an array or list is appended, if the array takes its type. */
  lemma ScalarInVector(nodes: Arena, p: nat, setting: Option<nat>, v: Scalar, format: Format)
    requires p < |nodes| && Pointing(nodes, setting) && nodes[p].kind.IsVector() && CheckType(nodes, p, TypeOf(v)) && FormatOk(v, format)
    ensures ScalarAction(Context(nodes, Some(p), setting), v, format)
         == Done(Context(Graft(nodes, p, Tree(None, Leaf(v, format))), Some(p), setting))
  {
    var t := Tree(None, Leaf(v, format));
    var made := Attach(nodes, p, None);
    assert Graft(nodes, p, t) == made[|nodes| := made[|nodes|].(kind := TypeOf(v), value := Some(v), format := format)];
    var r := SetElem(nodes, p, -1, v);
    assert r.nodes[|nodes| := SetFormat(r.nodes[|nodes|], format)] == Graft(nodes, p, t);
  }

  // ---------------------------------------------------------------- opening and closing

  /** The children of a group, array or list. */
  function ChildrenOf(b: Body): seq<Tree> {
    match b
    case Group(members) => members
    case Array(elements) => elements
    case List(items) => items
    case _ => []
  }

  function KindOf(b: Body): Type {
    match b
    case Group(_) => GroupType
    case Array(_) => ArrayType
    case List(_) => ListType
    case Leaf(v, _) => TypeOf(v)
    case Unset => NoType
  }

  predicate IsOpen(b: Body) { b.Group? || b.Array? || b.List? }

  function Opener(b: Body): Token { if b.Group? then GroupStart else if b.Array? then ArrayStart else ListStart }

  function Closer(b: Body): Token { if b.Group? then GroupEnd else if b.Array? then ArrayEnd else ListEnd }

  function Inside(b: Body): Symbol { if b.Group? then Settings else if b.Array? then Simples else Values }

  function InnerTokens(b: Body, depth: nat): seq<Token> {
    if b.Group? then MemberTokens(b.members, depth) else ItemTokens(ChildrenOf(b), depth)
  }

  lemma OpenTokens(b: Body, depth: nat, rest: seq<Token>)
    requires IsOpen(b) && depth > 0
    ensures BodyTokens(b, depth) + rest == [Opener(b)] + (InnerTokens(b, depth + 1) + ([Closer(b)] + rest))
  {
    hide MemberTokens, ItemTokens;
    var inner := InnerTokens(b, depth + 1);
    assert BodyTokens(b, depth) == [Opener(b)] + inner + [Closer(b)];
    assert [Opener(b)] + inner + [Closer(b)] + rest == [Opener(b)] + (inner + ([Closer(b)] + rest));
  }

  lemma LeafTokens(b: Body, depth: nat)
    requires b.Leaf?
    ensures BodyTokens(b, depth) == [ScalarToken(b.value, b.format)]
  {
  }

  lemma FillOpen(nodes: Arena, i: nat, b: Body)
    requires i < |nodes| && IsOpen(b)
    ensures Fill(nodes, i, b) == GraftAll(nodes[i := nodes[i].(kind := KindOf(b))], i, ChildrenOf(b))
  {
    hide GraftAll;
  }

  /** An opening token in a group turns the setting just named into the new parent. */
  lemma OpenInGroup(nodes: Arena, p: nat, s: nat, b: Body, k: seq<Symbol>, rest: seq<Token>)
    requires p < |nodes| && s < |nodes| && nodes[p].kind.GroupType? && IsOpen(b)
    ensures Run(At(nodes, p, Some(s), [Value] + k, [Opener(b)] + rest))
         == Run(At(nodes[s := nodes[s].(kind := KindOf(b))], s, None, [Inside(b), Close(Closer(b)), Up] + k, rest))
  {
    hide Run;
    var st := At(nodes, p, Some(s), [Value] + k, [Opener(b)] + rest);
    assert st.stack[0] == Value && st.stack[1..] == k && st.tokens[0] == Opener(b) && st.tokens[1..] == rest;
    assert Step(st) == Running(At(nodes[s := nodes[s].(kind := KindOf(b))], s, None, [Inside(b), Close(Closer(b)), Up] + k, rest));
    RunStep(st);
  }

  /** In a list it appends an element. */
  lemma OpenInList(nodes: Arena, p: nat, setting: Option<nat>, b: Body, k: seq<Symbol>, rest: seq<Token>)
    requires p < |nodes| && Pointing(nodes, setting) && nodes[p].kind.ListType? && IsOpen(b)
    ensures var made := Attach(nodes, p, None);
      Run(At(nodes, p, setting, [Value] + k, [Opener(b)] + rest))
      == Run(At(made[|nodes| := made[|nodes|].(kind := KindOf(b))], |nodes|, setting, [Inside(b), Close(Closer(b)), Up] + k, rest))
  {
    hide Run;
    var st := At(nodes, p, setting, [Value] + k, [Opener(b)] + rest);
    var made := Attach(nodes, p, None);
    var next := made[|nodes| := made[|nodes|].(kind := KindOf(b))];
    assert st.stack[0] == Value && st.stack[1..] == k && st.tokens[0] == Opener(b) && st.tokens[1..] == rest;
    assert Add(nodes, p, None, KindOf(b)) == Change(next, Some(|nodes|));
    assert Step(st) == Running(At(next, |nodes|, setting, [Inside(b), Close(Closer(b)), Up] + k, rest));
    RunStep(st);
  }

  /** The closing token returns to the parent. */
  lemma CloseUp(nodes: Arena, i: nat, q: nat, setting: Option<nat>, closer: Token, k: seq<Symbol>, rest: seq<Token>)
    requires i < |nodes| && q < |nodes| && Pointing(nodes, setting) && nodes[i].parent == Some(q)
    ensures Run(At(nodes, i, setting, [Close(closer), Up] + k, [closer] + rest)) == Run(At(nodes, q, setting, k, rest))
  {
    hide Run;
    var st := At(nodes, i, setting, [Close(closer), Up] + k, [closer] + rest);
    assert st.stack[0] == Close(closer) && st.stack[1..] == [Up] + k && st.tokens[1..] == rest;
    RunStep(st);
    var up := At(nodes, i, setting, [Up] + k, rest);
    assert up.stack[0] == Up && up.stack[1..] == k;
    RunStep(up);
  }

  // ---------------------------------------------------------------- single steps

  /** A scalar token where a value is expected. */
  lemma TakeScalar(ctx: Context, v: Scalar, format: Format, top: Symbol, k: seq<Symbol>, rest: seq<Token>, next: Context)
    requires InRange(ctx) && FormatOk(v, format) && (top.Value? || top.Simple?) && ScalarAction(ctx, v, format) == Done(next)
    ensures Run(State(ctx, [top] + k, [ScalarToken(v, format)] + rest)) == Run(State(next, k, rest))
  {
    hide Run, ScalarAction;
    LiteralReads(v, format);
    var st := State(ctx, [top] + k, [ScalarToken(v, format)] + rest);
    assert st.stack[0] == top && st.stack[1..] == k && st.tokens[0] == ScalarToken(v, format) && st.tokens[1..] == rest;
    RunStep(st);
  }

  lemma TakeToken(ctx: Context, top: Symbol, t: Token, k: seq<Symbol>, rest: seq<Token>)
    requires InRange(ctx) && ((top.NeedEquals? && t.Equals?) || (top.NeedEnd? && t.End?))
    ensures Run(State(ctx, [top] + k, [t] + rest)) == Run(State(ctx, k, rest))
  {
    hide Run;
    var st := State(ctx, [top] + k, [t] + rest);
    assert st.stack[0] == top && st.stack[1..] == k && st.tokens[0] == t && st.tokens[1..] == rest;
    RunStep(st);
  }

  /** A comma asks for one value more. */
  lemma TakeComma(ctx: Context, simple: bool, k: seq<Symbol>, rest: seq<Token>)
    requires InRange(ctx)
    ensures Run(State(ctx, [if simple then MoreSimples else MoreValues] + k, [Comma] + rest))
         == Run(State(ctx, [if simple then Simple else Value, if simple then MoreSimples else MoreValues] + k, rest))
  {
    hide Run;
    var st := State(ctx, [if simple then MoreSimples else MoreValues] + k, [Comma] + rest);
    assert st.stack[1..] == k && st.tokens[0] == Comma && st.tokens[1..] == rest;
    RunStep(st);
  }

  /** Without one the row is over. */
  lemma NoMore(ctx: Context, top: Symbol, k: seq<Symbol>, tokens: seq<Token>)
    requires InRange(ctx)
    requires match top
             case Settings => tokens == [] || !tokens[0].NameToken?
             case Simples => !StartsScalar(tokens)
             case Values => !StartsValue(tokens)
             case MoreSimples => tokens == [] || !tokens[0].Comma?
             case MoreValues => tokens == [] || !tokens[0].Comma?
             case _ => false
    ensures Run(State(ctx, [top] + k, tokens)) == Run(State(ctx, k, tokens))
  {
    hide Run;
    var st := State(ctx, [top] + k, tokens);
    assert st.stack[0] == top && st.stack[1..] == k;
    RunStep(st);
  }

  /** A row that is not empty starts with a value. */
  lemma FirstOf(ctx: Context, simple: bool, k: seq<Symbol>, tokens: seq<Token>)
    requires InRange(ctx) && if simple then StartsScalar(tokens) else StartsValue(tokens)
    ensures Run(State(ctx, [if simple then Simples else Values] + k, tokens))
         == Run(State(ctx, [if simple then Simple else Value, if simple then MoreSimples else MoreValues] + k, tokens))
  {
    hide Run;
    var st := State(ctx, [if simple then Simples else Values] + k, tokens);
    assert st.stack[1..] == k;
    RunStep(st);
  }

  // ---------------------------------------------------------------- values

  /** The tokens of any well-formed value start one. */
  lemma StartsWell(b: Body, depth: nat, rest: seq<Token>)
    requires WellFormed(b) && depth > 0
    ensures StartsValue(BodyTokens(b, depth) + rest) && (b.Leaf? ==> StartsScalar(BodyTokens(b, depth) + rest))
  {
    if b.Leaf? {
      LiteralReads(b.value, b.format);
    } else {
      OpenTokens(b, depth, rest);
    }
  }

  /** A written value in a group fills the setting just named. */
  lemma {:induction false} ValueInGroup(nodes: Arena, p: nat, s: nat, b: Body, depth: nat, k: seq<Symbol>, rest: seq<Token>) returns (left: Option<nat>)
    requires Grown(nodes) && p < s == |nodes| - 1 && Fresh(nodes, s) && nodes[s].parent == Some(p) && nodes[p].kind.GroupType?
    requires WellFormed(b) && Readable(b) && depth > 0
    ensures Pointing(Fill(nodes, s, b), left)
    ensures Run(At(nodes, p, Some(s), [Value] + k, BodyTokens(b, depth) + rest)) == Run(At(Fill(nodes, s, b), p, left, k, rest))
    decreases b, 3
  {
    hide Run, BodyTokens, InnerTokens, GraftAll;
    if b.Leaf? {
      LeafTokens(b, depth);
      ScalarInGroup(nodes, p, s, b.value, b.format);
      left := Some(s);
      TakeScalar(Context(nodes, Some(p), Some(s)), b.value, b.format, Value, k, rest, Context(Fill(nodes, s, b), Some(p), left));
    } else {
      OpenTokens(b, depth, rest);
      var inner := InnerTokens(b, depth + 1);
      OpenInGroup(nodes, p, s, b, k, inner + ([Closer(b)] + rest));
      var grown := nodes[s := nodes[s].(kind := KindOf(b))];
      RetypedGrown(nodes, s, grown[s]);
      left := Inner(grown, s, p, None, b, depth + 1, k, rest);
      FillOpen(nodes, s, b);
    }
  }

  /** A written value in a list is appended to it. */
  lemma {:induction false} ValueInList(nodes: Arena, p: nat, setting: Option<nat>, t: Tree, depth: nat, k: seq<Symbol>, rest: seq<Token>) returns (left: Option<nat>)
    requires Grown(nodes) && p < |nodes| && Pointing(nodes, setting) && nodes[p].kind.ListType?
    requires t.name.None? && WellFormed(t.body) && Readable(t.body) && depth > 0
    ensures Pointing(Graft(nodes, p, t), left)
    ensures Run(At(nodes, p, setting, [Value] + k, BodyTokens(t.body, depth) + rest)) == Run(At(Graft(nodes, p, t), p, left, k, rest))
    decreases t.body, 3
  {
    hide Run, BodyTokens, InnerTokens, GraftAll;
    var b := t.body;
    if b.Leaf? {
      LeafTokens(b, depth);
      ScalarInVector(nodes, p, setting, b.value, b.format);
      assert t == Tree(None, b);
      left := setting;
      TakeScalar(Context(nodes, Some(p), setting), b.value, b.format, Value, k, rest, Context(Graft(nodes, p, t), Some(p), setting));
    } else {
      OpenTokens(b, depth, rest);
      var inner := InnerTokens(b, depth + 1);
      OpenInList(nodes, p, setting, b, k, inner + ([Closer(b)] + rest));
      var made := Attach(nodes, p, None);
      AttachGrown(nodes, p, None);
      var grown := made[|nodes| := made[|nodes|].(kind := KindOf(b))];
      RetypedGrown(made, |nodes|, grown[|nodes|]);
      left := Inner(grown, |nodes|, p, setting, b, depth + 1, k, rest);
      FillOpen(made, |nodes|, b);
    }
  }

  /** What stands between an opening and a closing token builds the children in between. */
  lemma {:induction false} Inner(nodes: Arena, i: nat, q: nat, setting: Option<nat>, b: Body, depth: nat, k: seq<Symbol>, rest: seq<Token>) returns (left: Option<nat>)
    requires Grown(nodes) && q < i < |nodes| && Pointing(nodes, setting)
    requires IsOpen(b) && nodes[i].kind == KindOf(b) && nodes[i].children == [] && nodes[i].parent == Some(q)
    requires WellFormed(b) && Readable(b) && depth > 0
    ensures Pointing(GraftAll(nodes, i, ChildrenOf(b)), left)
    ensures Run(At(nodes, i, setting, [Inside(b), Close(Closer(b)), Up] + k, InnerTokens(b, depth) + ([Closer(b)] + rest)))
         == Run(At(GraftAll(nodes, i, ChildrenOf(b)), q, left, k, rest))
    decreases b, 2
  {
    hide Run, MemberTokens, ItemTokens;
    var after, below := [Closer(b)] + rest, [Close(Closer(b)), Up] + k;
    assert [Inside(b), Close(Closer(b)), Up] + k == [Inside(b)] + below;
    var ts := ChildrenOf(b);
    if b.Group? {
      MembersOf(b);
      left := Members(nodes, i, setting, ts, depth, below, after);
    } else if b.Array? {
      left := Elements(nodes, i, setting, ts, depth, below, after);
    } else {
      left := Items(nodes, i, setting, ts, depth, below, after);
    }
    ChildrenWellFormed(b);
    GraftAllFacts(nodes, i, ts);
    CloseUp(GraftAll(nodes, i, ts), i, q, left, Closer(b), k, rest);
  }

  lemma ChildrenWellFormed(b: Body)
    requires WellFormed(b) && IsOpen(b)
    ensures forall k :: 0 <= k < |ChildrenOf(b)| ==> WellFormed(ChildrenOf(b)[k].body)
  {
  }

  // ---------------------------------------------------------------- rows of values

  /** What follows the first of a row. */
  function TailTokens(ts: seq<Tree>, depth: nat): seq<Token> { if ts == [] then [] else [Comma] + ItemTokens(ts, depth) }

  lemma RowTokens(ts: seq<Tree>, depth: nat, rest: seq<Token>)
    requires ts != []
    ensures ItemTokens(ts, depth) + rest == BodyTokens(ts[0].body, depth) + (TailTokens(ts[1..], depth) + rest)
  {
    hide BodyTokens;
    if |ts| > 1 {
      var tail := ItemTokens(ts[1..], depth);
      Append(BodyTokens(ts[0].body, depth), [Comma], tail);
      Append(BodyTokens(ts[0].body, depth), [Comma] + tail, rest);
    } else {
      assert [] + rest == rest;
    }
  }

  /** What the elements of a list must be. */
  ghost predicate ItemsOk(ts: seq<Tree>) {
    forall k :: 0 <= k < |ts| ==> ts[k].name.None? && WellFormed(ts[k].body) && Readable(ts[k].body)
  }

  /** The elements of a list, separated by commas, are appended in order. */
  lemma {:induction false} Items(nodes: Arena, p: nat, setting: Option<nat>, ts: seq<Tree>, depth: nat, k: seq<Symbol>, rest: seq<Token>) returns (left: Option<nat>)
    requires Grown(nodes) && p < |nodes| && Pointing(nodes, setting) && nodes[p].kind.ListType? && depth > 0
    requires ItemsOk(ts) && rest != [] && rest[0] == ListEnd
    ensures Pointing(GraftAll(nodes, p, ts), left)
    ensures Run(At(nodes, p, setting, [Values] + k, ItemTokens(ts, depth) + rest)) == Run(At(GraftAll(nodes, p, ts), p, left, k, rest))
    decreases ts, 4
  {
    hide Run, BodyTokens;
    var ctx := Context(nodes, Some(p), setting);
    if ts == [] {
      left := setting;
      assert ItemTokens(ts, depth) + rest == rest;
      NoMore(ctx, Values, k, rest);
    } else {
      RowTokens(ts, depth, rest);
      StartsWell(ts[0].body, depth, TailTokens(ts[1..], depth) + rest);
      FirstOf(ctx, false, k, ItemTokens(ts, depth) + rest);
      left := ItemsLeft(nodes, p, setting, ts, depth, k, rest);
    }
  }

  lemma {:induction false} ItemsLeft(nodes: Arena, p: nat, setting: Option<nat>, ts: seq<Tree>, depth: nat, k: seq<Symbol>, rest: seq<Token>) returns (left: Option<nat>)
    requires Grown(nodes) && p < |nodes| && Pointing(nodes, setting) && nodes[p].kind.ListType? && depth > 0
    requires ts != [] && ItemsOk(ts) && rest != [] && rest[0] == ListEnd
    ensures Pointing(GraftAll(nodes, p, ts), left)
    ensures Run(At(nodes, p, setting, [Value, MoreValues] + k, ItemTokens(ts, depth) + rest)) == Run(At(GraftAll(nodes, p, ts), p, left, k, rest))
    decreases ts, 3
  {
    hide Run, BodyTokens, ItemTokens;
    RowTokens(ts, depth, rest);
    var t, more := ts[0], ts[1..];
    var next := Graft(nodes, p, t);
    assert t.body < t;
    assert [Value, MoreValues] + k == [Value] + ([MoreValues] + k);
    left := ValueInList(nodes, p, setting, t, depth, [MoreValues] + k, TailTokens(more, depth) + rest);
    GraftFacts(nodes, p, t);
    if more == [] {
      assert TailTokens(more, depth) + rest == rest;
      NoMore(Context(next, Some(p), left), MoreValues, k, rest);
    } else {
      Append([Comma], ItemTokens(more, depth), rest);
      TakeComma(Context(next, Some(p), left), false, k, ItemTokens(more, depth) + rest);
      left := ItemsLeft(next, p, left, more, depth, k, rest);
    }
  }

  /** What the elements of an array must be, and that the array takes them. */
  ghost predicate ElementsOk(nodes: Arena, p: nat, ts: seq<Tree>)
    requires p < |nodes|
  {
    && (forall k :: 0 <= k < |ts| ==> ts[k].name.None? && IsLeaf(ts[k]) && WellFormed(ts[k].body) && SameType(ts[0], ts[k]))
    && (ts != [] ==> CheckType(nodes, p, TypeOf(ts[0].body.value)))
  }

  lemma Elements(nodes: Arena, p: nat, setting: Option<nat>, ts: seq<Tree>, depth: nat, k: seq<Symbol>, rest: seq<Token>) returns (left: Option<nat>)
    requires Grown(nodes) && p < |nodes| && Pointing(nodes, setting) && nodes[p].kind.ArrayType? && depth > 0
    requires ElementsOk(nodes, p, ts) && rest != [] && rest[0] == ArrayEnd
    ensures Pointing(GraftAll(nodes, p, ts), left)
    ensures Run(At(nodes, p, setting, [Simples] + k, ItemTokens(ts, depth) + rest)) == Run(At(GraftAll(nodes, p, ts), p, left, k, rest))
    decreases ts, 4
  {
    hide Run, BodyTokens;
    var ctx := Context(nodes, Some(p), setting);
    left := setting;
    if ts == [] {
      assert ItemTokens(ts, depth) + rest == rest;
      NoMore(ctx, Simples, k, rest);
    } else {
      RowTokens(ts, depth, rest);
      StartsWell(ts[0].body, depth, TailTokens(ts[1..], depth) + rest);
      FirstOf(ctx, true, k, ItemTokens(ts, depth) + rest);
      ElementsLeft(nodes, p, setting, ts, depth, k, rest);
    }
  }

  lemma {:induction false} ElementsLeft(nodes: Arena, p: nat, setting: Option<nat>, ts: seq<Tree>, depth: nat, k: seq<Symbol>, rest: seq<Token>)
    requires Grown(nodes) && p < |nodes| && Pointing(nodes, setting) && nodes[p].kind.ArrayType? && depth > 0
    requires ts != [] && ElementsOk(nodes, p, ts) && rest != [] && rest[0] == ArrayEnd
    ensures Pointing(GraftAll(nodes, p, ts), setting)
    ensures Run(At(nodes, p, setting, [Simple, MoreSimples] + k, ItemTokens(ts, depth) + rest)) == Run(At(GraftAll(nodes, p, ts), p, setting, k, rest))
    decreases ts, 3
  {
    hide Run, ItemTokens;
    RowTokens(ts, depth, rest);
    var t, more := ts[0], ts[1..];
    var next := Graft(nodes, p, t);
    var ctx := Context(next, Some(p), setting);
    var v, format := t.body.value, t.body.format;
    assert t == Tree(None, Leaf(v, format));
    assert [Simple, MoreSimples] + k == [Simple] + ([MoreSimples] + k);
    ScalarInVector(nodes, p, setting, v, format);
    TakeScalar(Context(nodes, Some(p), setting), v, format, Simple, [MoreSimples] + k, TailTokens(more, depth) + rest, ctx);
    GraftFacts(nodes, p, t);
    if more == [] {
      assert TailTokens(more, depth) + rest == rest;
      NoMore(ctx, MoreSimples, k, rest);
    } else {
      Append([Comma], ItemTokens(more, depth), rest);
      TakeComma(ctx, true, k, ItemTokens(more, depth) + rest);
      StillTaken(nodes, p, ts);
      ElementsLeft(next, p, setting, more, depth, k, rest);
    }
  }

  /** An array that took one element takes the others. */
  lemma {:induction false} StillTaken(nodes: Arena, p: nat, ts: seq<Tree>)
    requires Grown(nodes) && p < |nodes| && nodes[p].kind.ArrayType? && ts != [] && ElementsOk(nodes, p, ts)
    ensures ElementsOk(Graft(nodes, p, ts[0]), p, ts[1..])
  {
    var t, more := ts[0], ts[1..];
    var next := Graft(nodes, p, t);
    GraftFacts(nodes, p, t);
    assert next[|nodes|].kind == TypeOf(t.body.value);
    forall k | 0 <= k < |more|
      ensures more[k].name.None? && IsLeaf(more[k]) && WellFormed(more[k].body) && SameType(more[0], more[k])
    {
      assert more[k] == ts[k + 1] && more[0] == ts[1];
      assert SameType(ts[0], ts[k + 1]) && SameType(ts[0], ts[1]);
    }
    if more != [] {
      assert SameType(t, more[0]);
      if nodes[p].children != [] {
        assert LinkOk(nodes, p, 0);
        assert next[p].children[0] == nodes[p].children[0];
      } else {
        assert next[p].children[0] == |nodes|;
      }
    }
  }

  // ---------------------------------------------------------------- the members of a group

  /** A member the scanner and the parser can read. */
  ghost predicate MemberReadable(t: Tree) { t.name.Some? && !IsBooleanWord(t.name.value) && Readable(t.body) }

  ghost predicate AllReadable(ts: seq<Tree>) { forall k :: 0 <= k < |ts| ==> MemberReadable(ts[k]) }

  /** What the members of a group must be, and that their names are still free in it. */
  ghost predicate MembersOk(nodes: Arena, p: nat, ts: seq<Tree>)
    requires p < |nodes|
  {
    && (forall k :: 0 <= k < |ts| ==>
          ts[k].name.Some? && ValidName(ts[k].name.value) && WellFormed(ts[k].body) && !Taken(nodes, p, ts[k].name.value))
    && (forall j, k :: 0 <= j < k < |ts| ==> ts[j].name != ts[k].name)
  }

  /** Named settings are added in order. */
  lemma {:induction false} Members(nodes: Arena, p: nat, setting: Option<nat>, ts: seq<Tree>, depth: nat, k: seq<Symbol>, rest: seq<Token>) returns (left: Option<nat>)
    requires Grown(nodes) && p < |nodes| && Pointing(nodes, setting) && nodes[p].kind.GroupType? && depth > 0
    requires InArena(nodes, p) && NamesOk(nodes, p) && MembersOk(nodes, p, ts) && AllReadable(ts)
    requires rest == [] || !rest[0].NameToken?
    ensures Pointing(GraftAll(nodes, p, ts), left)
    ensures Run(At(nodes, p, setting, [Settings] + k, MemberTokens(ts, depth) + rest)) == Run(At(GraftAll(nodes, p, ts), p, left, k, rest))
    decreases ts, 4
  {
    hide Run, SettingTokens, WellFormed, Readable, Taken;
    if ts == [] {
      left := setting;
      assert MemberTokens(ts, depth) + rest == rest;
      NoMore(Context(nodes, Some(p), setting), Settings, k, rest);
    } else {
      var t, more := ts[0], ts[1..];
      assert MemberReadable(t);
      Append(SettingTokens(t, depth), MemberTokens(more, depth), rest);
      left := OneMember(nodes, p, setting, t, depth, k, MemberTokens(more, depth) + rest);
      var next := Graft(nodes, p, t);
      GraftFacts(nodes, p, t);
      OthersFree(nodes, p, ts);
      left := Members(next, p, left, more, depth, k, rest);
    }
  }

  /** The names of the other members are still free when the first has been added. */
  lemma {:induction false} OthersFree(nodes: Arena, p: nat, ts: seq<Tree>)
    requires Grown(nodes) && p < |nodes| && nodes[p].kind.GroupType? && InArena(nodes, p) && NamesOk(nodes, p)
    requires ts != [] && MembersOk(nodes, p, ts)
    ensures var next := Graft(nodes, p, ts[0]);
      InArena(next, p) && NamesOk(next, p) && MembersOk(next, p, ts[1..])
  {
    hide WellFormed, Readable;
    var t, more := ts[0], ts[1..];
    var next := Graft(nodes, p, t);
    GraftFacts(nodes, p, t);
    var n := |nodes[p].children|;
    forall j | 0 <= j < n
      ensures next[p].children[j] == nodes[p].children[j] < |nodes|
      ensures next[next[p].children[j]].name == nodes[nodes[p].children[j]].name && next[next[p].children[j]].name != t.name
    {
      assert LinkOk(nodes, p, j);
      assert !Bears(nodes, p, j, t.name.value);
    }
    assert next[p].children[n] == |nodes|;
    forall j | 0 <= j < |more|
      ensures !Taken(next, p, more[j].name.value)
    {
      assert more[j] == ts[j + 1];
      StillFree(nodes, p, t, more[j].name.value);
    }
  }

  lemma StillFree(nodes: Arena, p: nat, t: Tree, name: string)
    requires Grown(nodes) && p < |nodes| && WellFormed(t.body) && !Taken(nodes, p, name) && t.name != Some(name)
    ensures !Taken(Graft(nodes, p, t), p, name)
  {
    hide WellFormed;
    var next := Graft(nodes, p, t);
    GraftFacts(nodes, p, t);
    forall j | 0 <= j < |next[p].children|
      ensures !Bears(next, p, j, name)
    {
      if j < |nodes[p].children| {
        assert LinkOk(nodes, p, j);
        assert !Bears(nodes, p, j, name);
      }
    }
  }

  /** One named setting. */
  lemma {:induction false} OneMember(nodes: Arena, p: nat, setting: Option<nat>, t: Tree, depth: nat, k: seq<Symbol>, rest: seq<Token>) returns (left: Option<nat>)
    requires Grown(nodes) && p < |nodes| && Pointing(nodes, setting) && nodes[p].kind.GroupType? && depth > 0
    requires InArena(nodes, p) && NamesOk(nodes, p)
    requires t.name.Some? && ValidName(t.name.value) && !IsBooleanWord(t.name.value) && !Taken(nodes, p, t.name.value)
    requires WellFormed(t.body) && Readable(t.body)
    ensures Pointing(Graft(nodes, p, t), left)
    ensures Run(At(nodes, p, setting, [Settings] + k, SettingTokens(t, depth) + rest)) == Run(At(Graft(nodes, p, t), p, left, [Settings] + k, rest))
    decreases t, 3
  {
    hide Run, BodyTokens, Taken, Readable;
    var s, name := |nodes|, t.name.value;
    var made := Attach(nodes, p, t.name);
    var below := [NeedEnd, Settings] + k;
    var body := BodyTokens(t.body, depth) + ([End] + rest);
    assert SettingTokens(t, depth) + rest == [NameToken(name)] + ([Equals] + body);
    TakeName(nodes, p, setting, name, k, [Equals] + body);
    var ctx := Context(made, Some(p), Some(s));
    assert [NeedEquals, Value, NeedEnd, Settings] + k == [NeedEquals] + ([Value] + below);
    TakeToken(ctx, NeedEquals, Equals, [Value] + below, body);
    AttachGrown(nodes, p, t.name);
    assert t.body < t;
    left := ValueInGroup(made, p, s, t.body, depth, below, [End] + rest);
    assert below == [NeedEnd] + ([Settings] + k);
    TakeToken(Context(Graft(nodes, p, t), Some(p), left), NeedEnd, End, [Settings] + k, rest);
  }

  /** The name of a setting that is still free. */
  lemma TakeName(nodes: Arena, p: nat, setting: Option<nat>, name: string, k: seq<Symbol>, rest: seq<Token>)
    requires p < |nodes| && Pointing(nodes, setting) && nodes[p].kind.GroupType?
    requires InArena(nodes, p) && NamesOk(nodes, p) && ValidName(name) && !Taken(nodes, p, name)
    ensures Run(At(nodes, p, setting, [Settings] + k, [NameToken(name)] + rest))
         == Run(At(Attach(nodes, p, Some(name)), p, Some(|nodes|), [NeedEquals, Value, NeedEnd, Settings] + k, rest))
  {
    MemberIff(nodes, p, name);
    hide Run, Taken, Member, NamesOk;
    var st := At(nodes, p, setting, [Settings] + k, [NameToken(name)] + rest);
    assert st.stack[0] == Settings && st.stack[1..] == k && st.tokens[0] == NameToken(name) && st.tokens[1..] == rest;
    assert Add(nodes, p, Some(name), NoType) == Change(Attach(nodes, p, Some(name)), Some(|nodes|));
    assert NameAction(st.ctx, name) == Done(Context(Attach(nodes, p, Some(name)), Some(p), Some(|nodes|)));
    RunStep(st);
  }

  // ---------------------------------------------------------------- names that read as booleans

  /** Expected symbols under which a boolean word cannot stand. */
  predicate Ends(k: seq<Symbol>) { k == [] || (k[0].Close? && !k[0].closer.BoolToken?) }

  /** A boolean word where a setting's name is due is a syntax error. */
  lemma WordRejected(nodes: Arena, p: nat, setting: Option<nat>, flag: bool, k: seq<Symbol>, rest: seq<Token>)
    requires p < |nodes| && Pointing(nodes, setting) && Ends(k)
    ensures Run(At(nodes, p, setting, [Settings] + k, [BoolToken(flag)] + rest)) == Rejected
  {
    hide Run;
    var tokens := [BoolToken(flag)] + rest;
    NoMore(Context(nodes, Some(p), setting), Settings, k, tokens);
    var st := At(nodes, p, setting, k, tokens);
    assert Step(st) == Rejected;
    RunEnds(st);
  }

  lemma RunEnds(st: State)
    requires InRange(st.ctx) && !Step(st).Running?
    ensures Run(st) == Step(st)
  {
    hide Step;
  }

  /** Only groups and lists can hide such a name. */
  lemma UnreadableOpen(b: Body)
    requires !Readable(b)
    ensures b.Group? || b.List?
  {
  }

  lemma {:induction false} RejectInGroup(nodes: Arena, p: nat, s: nat, b: Body, depth: nat, k: seq<Symbol>, rest: seq<Token>)
    requires Grown(nodes) && p < s == |nodes| - 1 && Fresh(nodes, s) && nodes[s].parent == Some(p) && nodes[p].kind.GroupType?
    requires WellFormed(b) && !Readable(b) && depth > 0
    ensures Run(At(nodes, p, Some(s), [Value] + k, BodyTokens(b, depth) + rest)) == Rejected
    decreases b, 3
  {
    hide Run, BodyTokens, InnerTokens;
    UnreadableOpen(b);
    OpenTokens(b, depth, rest);
    var inner := InnerTokens(b, depth + 1);
    OpenInGroup(nodes, p, s, b, k, inner + ([Closer(b)] + rest));
    var grown := nodes[s := nodes[s].(kind := KindOf(b))];
    RetypedGrown(nodes, s, grown[s]);
    RejectInner(grown, s, p, None, b, depth + 1, k, rest);
  }

  lemma {:induction false} RejectInList(nodes: Arena, p: nat, setting: Option<nat>, t: Tree, depth: nat, k: seq<Symbol>, rest: seq<Token>)
    requires Grown(nodes) && p < |nodes| && Pointing(nodes, setting) && nodes[p].kind.ListType?
    requires WellFormed(t.body) && !Readable(t.body) && depth > 0
    ensures Run(At(nodes, p, setting, [Value] + k, BodyTokens(t.body, depth) + rest)) == Rejected
    decreases t.body, 3
  {
    hide Run, BodyTokens, InnerTokens;
    var b := t.body;
    UnreadableOpen(b);
    OpenTokens(b, depth, rest);
    var inner := InnerTokens(b, depth + 1);
    OpenInList(nodes, p, setting, b, k, inner + ([Closer(b)] + rest));
    var made := Attach(nodes, p, None);
    AttachGrown(nodes, p, None);
    var grown := made[|nodes| := made[|nodes|].(kind := KindOf(b))];
    RetypedGrown(made, |nodes|, grown[|nodes|]);
    RejectInner(grown, |nodes|, p, setting, b, depth + 1, k, rest);
  }

  lemma {:induction false} RejectInner(nodes: Arena, i: nat, q: nat, setting: Option<nat>, b: Body, depth: nat, k: seq<Symbol>, rest: seq<Token>)
    requires Grown(nodes) && q < i < |nodes| && Pointing(nodes, setting)
    requires IsOpen(b) && nodes[i].kind == KindOf(b) && nodes[i].children == [] && nodes[i].parent == Some(q)
    requires WellFormed(b) && !Readable(b) && depth > 0
    ensures Run(At(nodes, i, setting, [Inside(b), Close(Closer(b)), Up] + k, InnerTokens(b, depth) + ([Closer(b)] + rest))) == Rejected
    decreases b, 2
  {
    hide Run, MemberTokens, ItemTokens;
    var below := [Close(Closer(b)), Up] + k;
    assert [Inside(b), Close(Closer(b)), Up] + k == [Inside(b)] + below;
    if b.Group? {
      MembersOf(b);
      RejectMembers(nodes, i, setting, b.members, depth, below, [GroupEnd] + rest);
    } else {
      RejectItems(nodes, i, setting, b.items, depth, below, [ListEnd] + rest);
    }
  }

  lemma {:induction false} RejectItems(nodes: Arena, p: nat, setting: Option<nat>, ts: seq<Tree>, depth: nat, k: seq<Symbol>, rest: seq<Token>)
    requires Grown(nodes) && p < |nodes| && Pointing(nodes, setting) && nodes[p].kind.ListType? && depth > 0
    requires (forall j :: 0 <= j < |ts| ==> ts[j].name.None? && WellFormed(ts[j].body)) && !ItemsOk(ts)
    ensures Run(At(nodes, p, setting, [Values] + k, ItemTokens(ts, depth) + rest)) == Rejected
    decreases ts, 4
  {
    hide Run, BodyTokens;
    RowTokens(ts, depth, rest);
    StartsWell(ts[0].body, depth, TailTokens(ts[1..], depth) + rest);
    FirstOf(Context(nodes, Some(p), setting), false, k, ItemTokens(ts, depth) + rest);
    RejectItemsLeft(nodes, p, setting, ts, depth, k, rest);
  }

  lemma {:induction false} RejectItemsLeft(nodes: Arena, p: nat, setting: Option<nat>, ts: seq<Tree>, depth: nat, k: seq<Symbol>, rest: seq<Token>)
    requires Grown(nodes) && p < |nodes| && Pointing(nodes, setting) && nodes[p].kind.ListType? && depth > 0
    requires ts != [] && (forall j :: 0 <= j < |ts| ==> ts[j].name.None? && WellFormed(ts[j].body)) && !ItemsOk(ts)
    ensures Run(At(nodes, p, setting, [Value, MoreValues] + k, ItemTokens(ts, depth) + rest)) == Rejected
    decreases ts, 3
  {
    hide Run, BodyTokens, ItemTokens;
    RowTokens(ts, depth, rest);
    var t, more := ts[0], ts[1..];
    assert t.body < t;
    assert [Value, MoreValues] + k == [Value] + ([MoreValues] + k);
    if Readable(t.body) {
      var left := ValueInList(nodes, p, setting, t, depth, [MoreValues] + k, TailTokens(more, depth) + rest);
      GraftFacts(nodes, p, t);
      assert more != [] && !ItemsOk(more);
      Append([Comma], ItemTokens(more, depth), rest);
      TakeComma(Context(Graft(nodes, p, t), Some(p), left), false, k, ItemTokens(more, depth) + rest);
      RejectItemsLeft(Graft(nodes, p, t), p, left, more, depth, k, rest);
    } else {
      RejectInList(nodes, p, setting, t, depth, [MoreValues] + k, TailTokens(more, depth) + rest);
    }
  }

  lemma {:induction false} RejectMembers(nodes: Arena, p: nat, setting: Option<nat>, ts: seq<Tree>, depth: nat, k: seq<Symbol>, rest: seq<Token>)
    requires Grown(nodes) && p < |nodes| && Pointing(nodes, setting) && nodes[p].kind.GroupType? && depth > 0
    requires InArena(nodes, p) && NamesOk(nodes, p) && MembersOk(nodes, p, ts)
    requires Ends(k) && !AllReadable(ts)
    ensures Run(At(nodes, p, setting, [Settings] + k, MemberTokens(ts, depth) + rest)) == Rejected
    decreases ts, 4
  {
    hide Run, SettingTokens, WellFormed, Readable, Taken;
    var t, more := ts[0], ts[1..];
    var after := MemberTokens(more, depth) + rest;
    Append(SettingTokens(t, depth), MemberTokens(more, depth), rest);
    if MemberReadable(t) {
      var left := OneMember(nodes, p, setting, t, depth, k, after);
      var next := Graft(nodes, p, t);
      GraftFacts(nodes, p, t);
      OthersFree(nodes, p, ts);
      var j :| 0 <= j < |ts| && !MemberReadable(ts[j]);
      assert more[j - 1] == ts[j];
      RejectMembers(next, p, left, more, depth, k, rest);
    } else {
      RejectMember(nodes, p, setting, t, depth, k, after);
    }
  }

  lemma {:induction false} RejectMember(nodes: Arena, p: nat, setting: Option<nat>, t: Tree, depth: nat, k: seq<Symbol>, rest: seq<Token>)
    requires Grown(nodes) && p < |nodes| && Pointing(nodes, setting) && nodes[p].kind.GroupType? && depth > 0
    requires InArena(nodes, p) && NamesOk(nodes, p) && Ends(k)
    requires t.name.Some? && ValidName(t.name.value) && !Taken(nodes, p, t.name.value) && WellFormed(t.body) && !MemberReadable(t)
    ensures Run(At(nodes, p, setting, [Settings] + k, SettingTokens(t, depth) + rest)) == Rejected
    decreases t, 3
  {
    hide Run, BodyTokens, Taken, Readable;
    var s, name := |nodes|, t.name.value;
    var body := BodyTokens(t.body, depth) + ([End] + rest);
    assert SettingTokens(t, depth) + rest == [WordToken(name)] + ([Equals] + body);
    if IsBooleanWord(name) {
      WordRejected(nodes, p, setting, LowerAll(name) == "true", k, [Equals] + body);
    } else {
      var made := Attach(nodes, p, t.name);
      var below := [NeedEnd, Settings] + k;
      TakeName(nodes, p, setting, name, k, [Equals] + body);
      assert [NeedEquals, Value, NeedEnd, Settings] + k == [NeedEquals] + ([Value] + below);
      TakeToken(Context(made, Some(p), Some(s)), NeedEquals, Equals, [Value] + below, body);
      AttachGrown(nodes, p, t.name);
      assert t.body < t;
      RejectInGroup(made, p, s, t.body, depth, below, [End] + rest);
    }
  }

  // ---------------------------------------------------------------- the round trip

  lemma EmptyGrown()
    ensures Grown(EMPTY) && InArena(EMPTY, 0) && NamesOk(EMPTY, 0)
    ensures TreesAt(EMPTY, 0, 0) == [] && forall name: string :: !Taken(EMPTY, 0, name)
  {
  }

  lemma RootTokens(t: Tree)
    requires t.name.None? && t.body.Group?
    ensures Written(t) == MemberTokens(t.body.members, 1)
  {
    hide MemberTokens;
    var body := BodyTokens(t.body, 0);
    assert body == MemberTokens(t.body.members, 1);
    assert SettingTokens(t, 0) == [] + body + [];
    assert [] + body + [] == body;
  }

  /** Writing a well-formed configuration and parsing the result gives it back, names, types,
      formats, values and order, if and only if no setting in it is named by a boolean word; with
      one that is, the text is rejected. */
  lemma RoundTripIff(t: Tree)
    requires t.name.None? && t.body.Group? && WellFormed(t.body)
    ensures Readable(t.body) ==>
      var r := Parse(Written(t)); r.Accepted? && r.nodes != [] && Grown(r.nodes) && TreeAt(r.nodes, 0) == t
    ensures !Readable(t.body) ==> Parse(Written(t)) == Rejected
  {
    hide Run, MemberTokens, Readable, WellFormed, Taken;
    var ms := t.body.members;
    EmptyGrown();
    RootTokens(t);
    assert MemberTokens(ms, 1) + [] == MemberTokens(ms, 1) && [Settings] + [] == [Settings];
    MembersOf(t.body);
    if Readable(t.body) {
      var left := Members(EMPTY, 0, Some(0), ms, 1, [], []);
      var built := GraftAll(EMPTY, 0, ms);
      RunEnds(At(built, 0, left, [], []));
      GraftAllFacts(EMPTY, 0, ms);
    } else {
      RejectMembers(EMPTY, 0, Some(0), ms, 1, [], []);
    }
  }

  /** The members of a well-formed group. */
  lemma MembersOf(b: Body)
    requires b.Group? && WellFormed(b)
    ensures forall k :: 0 <= k < |b.members| ==>
      b.members[k].name.Some? && ValidName(b.members[k].name.value) && WellFormed(b.members[k].body)
    ensures forall j, k :: 0 <= j < k < |b.members| ==> b.members[j].name != b.members[k].name
    ensures Readable(b) <==> AllReadable(b.members)
  {
  }
}

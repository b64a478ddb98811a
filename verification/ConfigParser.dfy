/** The parser (`libconfig_yyparse`): the grammar as a machine over a stack of symbols, and the
    actions that build the tree through `ctx->parent` and `ctx->setting`. */
module ConfigParser {
  import opened Wrappers
  import opened ConfigTrees
  import opened Settings
  import opened ConfigWriter

  // ---------------------------------------------------------------- actions

  /** `struct parse_context` with the configuration it points to. */
  datatype Context = Context(nodes: Arena, parent: Option<nat>, setting: Option<nat>)

  /** An action carries on, gives up (YYABORT), or follows a null pointer. */
  datatype Effect = Done(ctx: Context) | Abort | NullPointer

  predicate InRange(ctx: Context) {
    && (ctx.parent.Some? ==> ctx.parent.value < |ctx.nodes|)
    && (ctx.setting.Some? ==> ctx.setting.value < |ctx.nodes|)
  }

  predicate InList(ctx: Context)
    requires InRange(ctx)
  {
    ctx.parent.Some? && ctx.nodes[ctx.parent.value].kind.ListType?
  }

  predicate InArray(ctx: Context)
    requires InRange(ctx)
  {
    ctx.parent.Some? && ctx.nodes[ctx.parent.value].kind.ArrayType?
  }

  /** The action after a setting's name (rule 8). */
  function NameAction(ctx: Context, name: string): Effect
    requires InRange(ctx)
  {
    if ctx.parent.None? then Abort
    else
      var r := Add(ctx.nodes, ctx.parent.value, Some(name), NoType);
      if r.result.None? then Abort else Done(ctx.(nodes := r.nodes, setting := r.result))
  }

  /** The actions that open an array, a list or a group (rules 10, 12 and 33). */
  function OpenAction(ctx: Context, kind: Type): (r: Effect)
    requires InRange(ctx)
    ensures !r.Abort?
  {
    if InList(ctx) then
      var r := Add(ctx.nodes, ctx.parent.value, None, kind);
      if r.result.None? then NullPointer else Done(ctx.(nodes := r.nodes, parent := r.result))
    else if ctx.setting.None? then NullPointer
    else
      var s := ctx.setting.value;
      Done(Context(ctx.nodes[s := ctx.nodes[s].(kind := kind)], Some(s), None))
  }

  /** The actions that close one (rules 11, 13 and 34). */
  function CloseAction(ctx: Context): Context
    requires InRange(ctx)
  {
    if ctx.parent.Some? then ctx.(parent := ctx.nodes[ctx.parent.value].parent) else ctx
  }

  /** The actions of the scalar values (rules 18 to 24). */
  function ScalarAction(ctx: Context, v: Scalar, format: Format): Effect
    requires InRange(ctx)
  {
    if InArray(ctx) || InList(ctx) then
      var r := SetElem(ctx.nodes, ctx.parent.value, -1, v);
      if r.result.None? || r.result.value >= |r.nodes| then Abort
      else
        var e := r.result.value;
        Done(ctx.(nodes := r.nodes[e := SetFormat(r.nodes[e], format)]))
    else if ctx.setting.None? then NullPointer
    else
      var s := ctx.setting.value;
      var n := SetValue(ctx.nodes[s], v);
      Done(ctx.(nodes := ctx.nodes[s := SetFormat(if n.Some? then n.value else ctx.nodes[s], format)]))
  }

  // ---------------------------------------------------------------- the grammar

  /** What is still expected: a nonterminal or terminal of the rule table, or a closing action. */
  datatype Symbol =
    | Settings           // setting_list_optional, or the whole configuration
    | NeedEquals
    | Value
    | NeedEnd
    | Simple
    | Simples            // simple_value_list_optional
    | MoreSimples        // the rest of a simple_value_list
    | Values             // value_list_optional
    | MoreValues         // the rest of a value_list
    | Close(closer: Token)
    | Up                 // the action at the end of an array, list or group

  datatype State = State(ctx: Context, stack: seq<Symbol>, tokens: seq<Token>)

  datatype Outcome = Running(state: State) | Accepted(nodes: Arena) | Rejected | Crashed

  datatype Literal = Literal(value: Scalar, format: Format)

  /** The value and format of a scalar token. */
  function LiteralOf(t: Token): Option<Literal> {
    match t
    case BoolToken(b) => Some(Literal(BoolValue(b), Default))
    case IntToken(n) => Some(Literal(IntValue(n), Default))
    case HexToken(n) => Some(Literal(IntValue(n), Hex))
    case Int64Token(n) => Some(Literal(Int64Value(n), Default))
    case Hex64Token(n) => Some(Literal(Int64Value(n), Hex))
    case StringToken(s) => Some(Literal(StringValue(s), Default))
    case _ => None
  }

  predicate StartsScalar(tokens: seq<Token>) { tokens != [] && LiteralOf(tokens[0]).Some? }

  predicate StartsValue(tokens: seq<Token>) {
    tokens != [] && (LiteralOf(tokens[0]).Some? || tokens[0].ArrayStart? || tokens[0].ListStart? || tokens[0].GroupStart?)
  }

  /** Going on with an action's effect, a new stack and the remaining tokens. */
  function After(e: Effect, stack: seq<Symbol>, tokens: seq<Token>): Outcome {
    match e
    case Done(ctx) => Running(State(ctx, stack, tokens))
    case Abort => Rejected
    case NullPointer => Crashed
  }

  /** A value, simple or not, with `rest` below it on the stack. */
  function ValueStep(ctx: Context, rest: seq<Symbol>, tokens: seq<Token>, simple: bool): Outcome
    requires InRange(ctx)
  {
    if tokens == [] then Rejected
    else
      var t, more := tokens[0], tokens[1..];
      if LiteralOf(t).Some? then After(ScalarAction(ctx, LiteralOf(t).value.value, LiteralOf(t).value.format), rest, more)
      else if simple then Rejected
      else if t.ArrayStart? then After(OpenAction(ctx, ArrayType), [Simples, Close(ArrayEnd), Up] + rest, more)
      else if t.ListStart? then After(OpenAction(ctx, ListType), [Values, Close(ListEnd), Up] + rest, more)
      else if t.GroupStart? then After(OpenAction(ctx, GroupType), [Settings, Close(GroupEnd), Up] + rest, more)
      else Rejected
  }

  /** Matching one terminal. */
  function Expect(st: State, t: Token): Outcome
    requires st.stack != []
  {
    if st.tokens != [] && st.tokens[0] == t then Running(State(st.ctx, st.stack[1..], st.tokens[1..])) else Rejected
  }

  function Step(st: State): Outcome
    requires InRange(st.ctx)
  {
    if st.stack == [] then if st.tokens == [] then Accepted(st.ctx.nodes) else Rejected
    else
      var rest := st.stack[1..];
      match st.stack[0]
      case Settings =>
        if st.tokens != [] && st.tokens[0].NameToken? then
          After(NameAction(st.ctx, st.tokens[0].name), [NeedEquals, Value, NeedEnd, Settings] + rest, st.tokens[1..])
        else Running(st.(stack := rest))
      case NeedEquals => Expect(st, Equals)
      case NeedEnd => Expect(st, End)
      case Close(t) => Expect(st, t)
      case Value => ValueStep(st.ctx, rest, st.tokens, false)
      case Simple => ValueStep(st.ctx, rest, st.tokens, true)
      case Simples =>
        Running(st.(stack := if StartsScalar(st.tokens) then [Simple, MoreSimples] + rest else rest))
      case MoreSimples =>
        if st.tokens != [] && st.tokens[0].Comma? then Running(State(st.ctx, [Simple, MoreSimples] + rest, st.tokens[1..]))
        else Running(st.(stack := rest))
      case Values =>
        Running(st.(stack := if StartsValue(st.tokens) then [Value, MoreValues] + rest else rest))
      case MoreValues =>
        if st.tokens != [] && st.tokens[0].Comma? then Running(State(st.ctx, [Value, MoreValues] + rest, st.tokens[1..]))
        else Running(st.(stack := rest))
      case Up => Running(State(CloseAction(st.ctx), rest, st.tokens))
  }

  /** How much work the stack stands for when no token is read. */
  function Weight(stack: seq<Symbol>): nat {
    if stack == [] then 0 else (if stack[0].Simples? || stack[0].Values? then 3 else 1) + Weight(stack[1..])
  }

  /** Every step reads a token or lightens the stack. */
  lemma StepShrinks(st: State)
    requires InRange(st.ctx) && Step(st).Running?
    ensures var next := Step(st).state;
      |next.tokens| < |st.tokens| || (next.tokens == st.tokens && Weight(next.stack) < Weight(st.stack))
  {
    hide NameAction, OpenAction, ScalarAction, CloseAction;
    var rest := st.stack[1..];
    assert ([Simple, MoreSimples] + rest)[1..] == [MoreSimples] + rest && ([MoreSimples] + rest)[1..] == rest;
    assert ([Value, MoreValues] + rest)[1..] == [MoreValues] + rest && ([MoreValues] + rest)[1..] == rest;
  }

  /** The machine run to its end; pointers out of range, which never arise, count as null. */
  function Run(st: State): Outcome
    decreases |st.tokens|, Weight(st.stack)
  {
    if !InRange(st.ctx) then Crashed
    else
      var r := Step(st);
      if r.Running? then
        StepShrinks(st);
        Run(r.state)
      else r
  }

  /** `config_init`. */
  const EMPTY: Arena := [Node(None, GroupType, Default, None, [], None)]

  /** `config_read` on scanned text. */
  function Parse(tokens: seq<Token>): Outcome {
    Run(State(Context(EMPTY, Some(0), Some(0)), [Settings], tokens))
  }
}

/** The parser as it runs: a loop over its stack whose actions change the configuration and the
    parse context in place (`config_read`, `libconfig_yyparse`). It is proved equal to `Parse`. */
module Parsers {
  import opened Wrappers
  import opened ConfigTrees
  import opened Settings
  import opened ConfigWriter
  import opened ConfigParser
  import opened ParserInvariants

  class Parser {
    const config: Config
    var parent: Option<nat>
    var setting: Option<nat>
    var stack: seq<Symbol>

    /** A parser about to read into a configuration just initialised. */
    constructor (config: Config)
      requires config.nodes == EMPTY
      ensures this.config == config && Ctx() == Context(EMPTY, Some(0), Some(0)) && stack == [Settings]
    {
      this.config := config;
      parent := Some(0);
      setting := Some(0);
      stack := [Settings];
    }

    /** The parse context with the configuration it points to. */
    function Ctx(): Context
      reads this, config
    {
      Context(config.nodes, parent, setting)
    }

    /** Rule 8. */
    method NameRule(name: string) returns (ok: bool)
      requires InRange(Ctx()) && Sound(config.nodes) && parent.Some?
      modifies this, config
      ensures NameAction(old(Ctx()), name) == if ok then Done(Ctx()) else Abort
      ensures stack == old(stack)
    {
      setting := config.SettingAdd(parent.value, Some(name), NoType);
      ok := setting.Some?;
    }

    /** Rules 10, 12 and 33. */
    method OpenRule(kind: Type)
      requires InRange(Ctx()) && Sound(config.nodes) && OpenAction(Ctx(), kind).Done?
      modifies this, config
      ensures OpenAction(old(Ctx()), kind) == Done(Ctx())
      ensures stack == old(stack)
    {
      if parent.Some? && config.nodes[parent.value].kind.ListType? {
        parent := config.SettingAdd(parent.value, None, kind);
      } else {
        var s := setting.value;
        config.nodes := config.nodes[s := config.nodes[s].(kind := kind)];
        parent := setting;
        setting := None;
      }
    }

    /** Rules 11, 13 and 34. */
    method CloseRule()
      requires InRange(Ctx())
      modifies this
      ensures Ctx() == CloseAction(old(Ctx())) && stack == old(stack)
    {
      if parent.Some? {
        parent := config.nodes[parent.value].parent;
      }
    }

    /** Rules 18 to 24. */
    method ScalarRule(v: Scalar, format: Format) returns (ok: bool)
      requires InRange(Ctx()) && Sound(config.nodes) && !ScalarAction(Ctx(), v, format).NullPointer?
      modifies this, config
      ensures ScalarAction(old(Ctx()), v, format) == if ok then Done(Ctx()) else Abort
      ensures stack == old(stack)
    {
      ok := true;
      if parent.Some? && (config.nodes[parent.value].kind.ArrayType? || config.nodes[parent.value].kind.ListType?) {
        var e := config.SettingSetElem(parent.value, -1, v);
        if e.None? {
          return false;
        }
        config.nodes := config.nodes[e.value := SetFormat(config.nodes[e.value], format)];
      } else {
        var s := setting.value;
        var n := SetValue(config.nodes[s], v);
        if n.Some? {
          config.nodes := config.nodes[s := n.value];
        }
        config.nodes := config.nodes[s := SetFormat(config.nodes[s], format)];
      }
    }

    /** A value: a scalar, or what opens an array, a list or a group. */
    method ReadValue(tokens: seq<Token>, simple: bool) returns (ok: bool)
      requires InRange(Ctx()) && Sound(config.nodes) && Carries(ValueStep(Ctx(), stack, tokens, simple))
      modifies this, config
      ensures var r := ValueStep(old(Ctx()), old(stack), tokens, simple);
        if ok then tokens != [] && r == Running(State(Ctx(), stack, tokens[1..])) else r == Rejected
    {
      hide OpenAction, ScalarAction, Sound, Parsing;
      if tokens == [] {
        return false;
      }
      var t := tokens[0];
      var literal := LiteralOf(t);
      ok := true;
      if literal.Some? {
        ok := ScalarRule(literal.value.value, literal.value.format);
      } else if simple {
        ok := false;
      } else if t.ArrayStart? {
        OpenRule(ArrayType);
        stack := [Simples, Close(ArrayEnd), Up] + stack;
      } else if t.ListStart? {
        OpenRule(ListType);
        stack := [Values, Close(ListEnd), Up] + stack;
      } else if t.GroupStart? {
        OpenRule(GroupType);
        stack := [Settings, Close(GroupEnd), Up] + stack;
      } else {
        ok := false;
      }
    }

    /** Taking one token that must be there. */
    method Match(tokens: seq<Token>, t: Token) returns (rest: seq<Token>, ok: bool)
      ensures ok <==> tokens != [] && tokens[0] == t
      ensures ok ==> rest == tokens[1..]
    {
      ok := tokens != [] && tokens[0] == t;
      rest := if ok then tokens[1..] else tokens;
    }

    /** `config_read` of scanned text, from the state the constructor leaves. */
    method Parse(text: seq<Token>) returns (accepted: bool)
      requires Ctx() == Context(EMPTY, Some(0), Some(0)) && stack == [Settings]
      modifies this, config
      ensures ConfigParser.Parse(text) == if accepted then Accepted(config.nodes) else Rejected
    {
      var tokens := text;
      StartParsing(tokens);
      while true
        invariant Parsing(State(Ctx(), stack, tokens))
        invariant Run(State(Ctx(), stack, tokens)) == ConfigParser.Parse(text)
        decreases |tokens|, Weight(stack)
      {
        hide Run, Parsing, Sound, Finished, ValueStep, NameAction, OpenAction, ScalarAction;
        ghost var st := State(Ctx(), stack, tokens);
        ParsingSound(st);
        StepKeeps(st);
        RunUnfold(st);
        if stack == [] {
          return tokens == [];
        }
        var top := stack[0];
        stack := stack[1..];
        var ok := true;
        match top {
          case Settings =>
            if tokens != [] && tokens[0].NameToken? {
              NameNeverCrashes(st.ctx, tokens[0].name);
              ok := NameRule(tokens[0].name);
              stack := [NeedEquals, Value, NeedEnd, Settings] + stack;
              tokens := tokens[1..];
            }
          case NeedEquals =>
            tokens, ok := Match(tokens, Equals);
          case NeedEnd =>
            tokens, ok := Match(tokens, End);
          case Close(t) =>
            tokens, ok := Match(tokens, t);
          case Value =>
            ok := ReadValue(tokens, false);
            tokens := if ok then tokens[1..] else tokens;
          case Simple =>
            ok := ReadValue(tokens, true);
            tokens := if ok then tokens[1..] else tokens;
          case Simples =>
            if tokens != [] && LiteralOf(tokens[0]).Some? {
              stack := [Simple, MoreSimples] + stack;
            }
          case MoreSimples =>
            if tokens != [] && tokens[0].Comma? {
              tokens := tokens[1..];
              stack := [Simple, MoreSimples] + stack;
            }
          case Values =>
            if StartsValue(tokens) {
              stack := [Value, MoreValues] + stack;
            }
          case MoreValues =>
            if tokens != [] && tokens[0].Comma? {
              tokens := tokens[1..];
              stack := [Value, MoreValues] + stack;
            }
          case Up =>
            CloseRule();
        }
        if !ok {
          return false;
        }
        assert Step(st) == Running(State(Ctx(), stack, tokens));
        StepShrinks(st);
      }
    }
  }

  lemma ParsingSound(st: State)
    requires Parsing(st)
    ensures InRange(st.ctx) && Sound(st.ctx.nodes) && st.ctx.parent.Some?
  {
  }

  lemma NameNeverCrashes(ctx: Context, name: string)
    requires InRange(ctx)
    ensures !NameAction(ctx, name).NullPointer?
  {
  }

  /** A run is its first step and the rest. */
  lemma RunUnfold(st: State)
    requires InRange(st.ctx)
    ensures Run(st) == if Step(st).Running? then Run(Step(st).state) else Step(st)
  {
    hide Step;
  }
}

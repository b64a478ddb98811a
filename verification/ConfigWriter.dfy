/** The writer (`config_write`), seen as the tokens it puts out. */
module ConfigWriter {
  import opened Wrappers
  import opened ConfigTrees

  /** The tokens of scanner.l; floats are left out. */
  datatype Token =
    | BoolToken(flag: bool)
    | IntToken(number: int)
    | HexToken(number: int)
    | Int64Token(number: int)
    | Hex64Token(number: int)
    | StringToken(text: string)
    | NameToken(name: string)
    | Equals
    | ArrayStart
    | ArrayEnd
    | ListStart
    | ListEnd
    | Comma
    | GroupStart
    | GroupEnd
    | End
    | Garbage

  function Lower(c: char): char { if 'A' <= c <= 'Z' then 'a' + (c - 'A') else c }

  function LowerAll(s: string): (r: string)
    ensures |r| == |s|
  {
    if s == "" then "" else [Lower(s[0])] + LowerAll(s[1..])
  }

  /** Names the scanner takes for a boolean: its patterns for true and false come first. */
  predicate IsBooleanWord(name: string) { LowerAll(name) == "true" || LowerAll(name) == "false" }

  /** A name as the scanner reads it. */
  function WordToken(name: string): Token {
    if IsBooleanWord(name) then BoolToken(LowerAll(name) == "true") else NameToken(name)
  }

  function ScalarToken(v: Scalar, format: Format): Token {
    match v
    case BoolValue(b) => BoolToken(b)
    case IntValue(n) => if format.Hex? then HexToken(n) else IntToken(n)
    case Int64Value(n) => if format.Hex? then Hex64Token(n) else Int64Token(n)
    case StringValue(s) => StringToken(s)
  }

  /** `__config_write_value`; the root group, at depth 0, goes without braces. */
  function BodyTokens(b: Body, depth: nat): seq<Token>
    decreases b, 0
  {
    match b
    case Unset => [Garbage, Garbage, Garbage]
    case Leaf(v, format) => [ScalarToken(v, format)]
    case Group(members) =>
      if depth > 0 then [GroupStart] + MemberTokens(members, depth + 1) + [GroupEnd] else MemberTokens(members, depth + 1)
    case Array(elements) => [ArrayStart] + ItemTokens(elements, depth + 1) + [ArrayEnd]
    case List(items) => [ListStart] + ItemTokens(items, depth + 1) + [ListEnd]
  }

  /** `__config_write_setting` of every member of a group. */
  function MemberTokens(ts: seq<Tree>, depth: nat): seq<Token>
    decreases ts, 0
  {
    if ts == [] then [] else SettingTokens(ts[0], depth) + MemberTokens(ts[1..], depth)
  }

  function SettingTokens(t: Tree, depth: nat): seq<Token>
    decreases t, 0
  {
    (if t.name.Some? then [WordToken(t.name.value), Equals] else [])
    + BodyTokens(t.body, depth)
    + (if depth > 0 then [End] else [])
  }

  /** The elements of an array or list, with commas between them. */
  function ItemTokens(ts: seq<Tree>, depth: nat): seq<Token>
    decreases ts, 0
  {
    if ts == [] then []
    else
      var t := ts[0];
      assert t.body < t;
      if |ts| == 1 then BodyTokens(t.body, depth) else BodyTokens(t.body, depth) + [Comma] + ItemTokens(ts[1..], depth)
  }

  /** `config_write`. */
  function Written(t: Tree): seq<Token> { SettingTokens(t, 0) }

  /** The writer with its stream. */
  class Writer {
    var out: seq<Token>

    constructor ()
      ensures out == []
    {
      out := [];
    }

    /** `config_write`. */
    method Write(nodes: Arena)
      requires Grown(nodes) && nodes != []
      modifies this
      ensures out == old(out) + Written(TreeAt(nodes, 0))
    {
      WriteSetting(nodes, 0, 0);
    }

    /** `__config_write_setting`. */
    method WriteSetting(nodes: Arena, i: nat, depth: nat)
      requires Grown(nodes) && i < |nodes|
      modifies this
      ensures out == old(out) + SettingTokens(TreeAt(nodes, i), depth)
      decreases |nodes| - i, 1
    {
      if nodes[i].name.Some? {
        out := out + [WordToken(nodes[i].name.value)];
        out := out + [Equals];
      }
      WriteValue(nodes, i, depth);
      if depth > 0 {
        out := out + [End];
      }
    }

    /** `__config_write_value`. */
    method WriteValue(nodes: Arena, i: nat, depth: nat)
      requires Grown(nodes) && i < |nodes|
      modifies this
      ensures out == old(out) + BodyTokens(TreeAt(nodes, i).body, depth)
      decreases |nodes| - i, 0
    {
      ValueCases(nodes, i, depth);
      hide BodyTokens, TreeAt, TreesAt, ItemTokens, MemberTokens;
      match nodes[i].kind {
        case ListType =>
          out := out + [ListStart];
          WriteItems(nodes, i, depth);
          out := out + [ListEnd];
        case ArrayType =>
          out := out + [ArrayStart];
          WriteItems(nodes, i, depth);
          out := out + [ArrayEnd];
        case GroupType =>
          if depth > 0 {
            out := out + [GroupStart];
          }
          WriteMembers(nodes, i, depth);
          if depth > 0 {
            out := out + [GroupEnd];
          }
        case _ =>
          if nodes[i].value.Some? {
            out := out + [ScalarToken(nodes[i].value.value, nodes[i].format)];
          } else {
            out := out + [Garbage, Garbage, Garbage];
          }
      }
    }

    /** The loop of the list and array cases. */
    method WriteItems(nodes: Arena, i: nat, depth: nat)
      requires Grown(nodes) && i < |nodes|
      modifies this
      ensures out == old(out) + ItemTokens(TreesAt(nodes, i, 0), depth + 1)
      decreases |nodes| - i - 1, 2
    {
      var k := 0;
      while k < |nodes[i].children|
        invariant k <= |nodes[i].children|
        invariant out + ItemTokens(TreesAt(nodes, i, k), depth + 1) == old(out) + ItemTokens(TreesAt(nodes, i, 0), depth + 1)
      {
        hide BodyTokens, TreeAt;
        assert LinkOk(nodes, i, k);
        ghost var before := out;
        ghost var item := BodyTokens(TreeAt(nodes, nodes[i].children[k]).body, depth + 1);
        ghost var rest := TreesAt(nodes, i, k + 1);
        ItemStep(nodes, i, k, depth + 1);
        WriteValue(nodes, nodes[i].children[k], depth + 1);
        if k + 1 < |nodes[i].children| {
          out := out + [Comma];
          Append(before + item, [Comma], ItemTokens(rest, depth + 1));
          Append(before, item, [Comma] + ItemTokens(rest, depth + 1));
          Append(item, [Comma], ItemTokens(rest, depth + 1));
        } else {
          assert out + [] == out;
        }
        k := k + 1;
      }
      assert TreesAt(nodes, i, k) == [];
      assert out + [] == out;
    }

    /** The loop of the group case. */
    method WriteMembers(nodes: Arena, i: nat, depth: nat)
      requires Grown(nodes) && i < |nodes|
      modifies this
      ensures out == old(out) + MemberTokens(TreesAt(nodes, i, 0), depth + 1)
      decreases |nodes| - i - 1, 2
    {
      var k := 0;
      while k < |nodes[i].children|
        invariant k <= |nodes[i].children|
        invariant out + MemberTokens(TreesAt(nodes, i, k), depth + 1) == old(out) + MemberTokens(TreesAt(nodes, i, 0), depth + 1)
      {
        hide SettingTokens, TreeAt;
        assert LinkOk(nodes, i, k);
        ghost var before := out;
        ghost var member := SettingTokens(TreeAt(nodes, nodes[i].children[k]), depth + 1);
        MemberStep(nodes, i, k, depth + 1);
        WriteSetting(nodes, nodes[i].children[k], depth + 1);
        Append(before, member, MemberTokens(TreesAt(nodes, i, k + 1), depth + 1));
        k := k + 1;
      }
      assert TreesAt(nodes, i, k) == [];
      assert out + [] == out;
    }
  }

  lemma ItemStep(nodes: Arena, i: nat, k: nat, depth: nat)
    requires Grown(nodes) && i < |nodes| && k < |nodes[i].children|
    ensures LinkOk(nodes, i, k)
    ensures var item := BodyTokens(TreeAt(nodes, nodes[i].children[k]).body, depth);
      var rest := TreesAt(nodes, i, k + 1);
      && (rest == [] <==> k + 1 == |nodes[i].children|)
      && ItemTokens(TreesAt(nodes, i, k), depth) == (if rest == [] then item else item + [Comma] + ItemTokens(rest, depth))
      && (rest == [] ==> ItemTokens(rest, depth) == [])
  {
    hide BodyTokens, TreeAt;
    assert LinkOk(nodes, i, k);
    var ts := TreesAt(nodes, i, k);
    assert ts[0] == TreeAt(nodes, nodes[i].children[k]) && ts[1..] == TreesAt(nodes, i, k + 1);
  }

  lemma MemberStep(nodes: Arena, i: nat, k: nat, depth: nat)
    requires Grown(nodes) && i < |nodes| && k < |nodes[i].children|
    ensures LinkOk(nodes, i, k)
    ensures MemberTokens(TreesAt(nodes, i, k), depth)
         == SettingTokens(TreeAt(nodes, nodes[i].children[k]), depth) + MemberTokens(TreesAt(nodes, i, k + 1), depth)
  {
    hide SettingTokens, TreeAt;
    assert LinkOk(nodes, i, k);
    var ts := TreesAt(nodes, i, k);
    assert ts[0] == TreeAt(nodes, nodes[i].children[k]) && ts[1..] == TreesAt(nodes, i, k + 1);
  }

  lemma ValueCases(nodes: Arena, i: nat, depth: nat)
    requires Grown(nodes) && i < |nodes|
    ensures var n := nodes[i];
      BodyTokens(TreeAt(nodes, i).body, depth) ==
        match n.kind
        case ListType => [ListStart] + ItemTokens(TreesAt(nodes, i, 0), depth + 1) + [ListEnd]
        case ArrayType => [ArrayStart] + ItemTokens(TreesAt(nodes, i, 0), depth + 1) + [ArrayEnd]
        case GroupType =>
          if depth > 0 then [GroupStart] + MemberTokens(TreesAt(nodes, i, 0), depth + 1) + [GroupEnd]
          else MemberTokens(TreesAt(nodes, i, 0), depth + 1)
        case _ => if n.value.Some? then [ScalarToken(n.value.value, n.format)] else [Garbage, Garbage, Garbage]
  {
    hide TreesAt, ItemTokens, MemberTokens;
  }
}

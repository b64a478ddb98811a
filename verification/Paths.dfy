/** Paths to settings: `config_lookup` finds what a printed path names. */
module Paths {
  import opened Wrappers
  import opened ConfigTrees
  import opened Settings

  // ---------------------------------------------------------------- numbers

  function Digit(n: nat): char
    requires n < 10
  {
    '0' + n as char
  }

  function DigitValue(c: char): nat
    requires IsDigit(c)
  {
    (c - '0') as nat
  }

  predicate AllDigits(s: string) { forall k :: 0 <= k < |s| ==> IsDigit(s[k]) }

  /** `%d` of a natural number. */
  function Decimal(n: nat): (s: string)
    ensures s != "" && AllDigits(s)
  {
    if n < 10 then [Digit(n)] else Decimal(n / 10) + [Digit(n % 10)]
  }

  /** The leading digits of a text, added to what has been read. */
  function ReadDigits(s: string, sofar: nat): nat {
    if s == "" || !IsDigit(s[0]) then sofar else ReadDigits(s[1..], sofar * 10 + DigitValue(s[0]))
  }

  predicate IsSpace(c: char) { c == ' ' || '\t' <= c <= '\r' }

  function SkipSpaces(s: string): string { if s != "" && IsSpace(s[0]) then SkipSpaces(s[1..]) else s }

  /** `atoi`, where the number fits an int. */
  function Atoi(s: string): int {
    var t := SkipSpaces(s);
    if t != "" && t[0] == '-' then -(ReadDigits(t[1..], 0) as int)
    else if t != "" && t[0] == '+' then ReadDigits(t[1..], 0)
    else ReadDigits(t, 0)
  }

  lemma {:induction false} ReadAppend(s: string, rest: string, sofar: nat)
    requires AllDigits(s)
    ensures ReadDigits(s + rest, sofar) == ReadDigits(rest, ReadDigits(s, sofar))
  {
    if s == "" {
      assert s + rest == rest;
    } else {
      assert (s + rest)[0] == s[0] && (s + rest)[1..] == s[1..] + rest;
      ReadAppend(s[1..], rest, sofar * 10 + DigitValue(s[0]));
    }
  }

  /** A printed number is read back. */
  lemma {:induction false} DecimalRead(n: nat, rest: string)
    requires rest == "" || !IsDigit(rest[0])
    ensures ReadDigits(Decimal(n) + rest, 0) == n
  {
    var last := [Digit(n % 10)];
    var tail := last + rest;
    assert tail[0] == Digit(n % 10) && tail[1..] == rest && DigitValue(Digit(n % 10)) == n % 10;
    if n < 10 {
      assert Decimal(n) + rest == tail;
    } else {
      var front := Decimal(n / 10);
      DecimalRead(n / 10, "");
      assert front + "" == front;
      ReadAppend(front, tail, 0);
      assert Decimal(n) + rest == front + tail;
    }
  }

  // ---------------------------------------------------------------- printing a path

  /** `config_setting_index`: which child of its parent a setting is, or the number of children. */
  function IndexFrom(nodes: Arena, p: nat, i: nat, k: nat): (r: nat)
    requires p < |nodes| && k <= |nodes[p].children|
    ensures k <= r <= |nodes[p].children|
    ensures r < |nodes[p].children| ==> nodes[p].children[r] == i
    decreases |nodes[p].children| - k
  {
    if k == |nodes[p].children| || nodes[p].children[k] == i then k else IndexFrom(nodes, p, i, k + 1)
  }

  /** The setting belongs to the tree below the root. */
  ghost predicate Attached(nodes: Arena, i: nat)
  {
    i < |nodes| && (i == 0 || (nodes[i].parent.Some? && nodes[i].parent.value < i && i in nodes[nodes[i].parent.value].children && Attached(nodes, nodes[i].parent.value)))
  }

  /** The last part of a printed path. */
  function Part(nodes: Arena, p: nat, i: nat): string
    requires p < |nodes| && i < |nodes|
  {
    if nodes[i].name.Some? then nodes[i].name.value else "[" + Decimal(IndexFrom(nodes, p, i, 0)) + "]"
  }

  /** What `print_path` of samples/c/sample3.c prints. */
  function PathOf(nodes: Arena, i: nat): string
    requires i < |nodes|
    decreases i
  {
    if nodes[i].parent.None? || nodes[i].parent.value >= i then ""
    else
      var p := nodes[i].parent.value;
      (if nodes[p].parent.Some? then PathOf(nodes, p) + "." else "") + Part(nodes, p, i)
  }

  method Index(nodes: Arena, p: nat, i: nat) returns (k: nat)
    requires p < |nodes|
    ensures k == IndexFrom(nodes, p, i, 0)
  {
    k := 0;
    while k < |nodes[p].children|
      invariant k <= |nodes[p].children| && IndexFrom(nodes, p, i, k) == IndexFrom(nodes, p, i, 0)
    {
      if nodes[p].children[k] == i {
        return;
      }
      k := k + 1;
    }
  }

  /** `print_path`; `more` is its return value. */
  method PrintPath(nodes: Arena, i: nat) returns (out: string, more: bool)
    requires Sound(nodes) && Attached(nodes, i)
    ensures out == PathOf(nodes, i) && (more <==> i != 0)
    decreases i
  {
    if nodes[i].parent.None? {
      return "", false;
    }
    var p := nodes[i].parent.value;
    out, more := PrintPath(nodes, p);
    if more {
      out := out + ".";
    }
    var part: string;
    if nodes[i].name.Some? {
      part := nodes[i].name.value;
    } else {
      var k := Index(nodes, p, i);
      part := "[" + Decimal(k) + "]";
    }
    out, more := out + part, true;
  }

  // ---------------------------------------------------------------- looking a path up

  function SkipTokens(path: string): (rest: string)
    ensures |rest| <= |path| && (rest == "" || !IsPathToken(rest[0]))
  {
    if path != "" && IsPathToken(path[0]) then SkipTokens(path[1..]) else path
  }

  /** The search at one component: the setting it names below `i`, and the text it is read from. */
  function StepInto(nodes: Arena, i: nat, q: string): (Option<nat>, string)
    requires i < |nodes| && q != ""
  {
    if q[0] == '[' then (Elem(nodes, i, Atoi(q[1..])), q[1..]) else (Member(nodes, i, q), q)
  }

  /** `config_lookup` from setting `i` on. */
  function LookupFrom(nodes: Arena, i: nat, path: string): Option<nat>
    requires i < |nodes|
    decreases |path|
  {
    var q := SkipTokens(path);
    if q == "" then Some(i)
    else
      var step := StepInto(nodes, i, q);
      if step.0.None? || step.0.value >= |nodes| then if step.1 == "" then Some(i) else None
      else LookupFrom(nodes, step.0.value, step.1[|Component(step.1)|..])
  }

  /** `config_lookup`. */
  method Lookup(config: Config, path: string) returns (r: Option<nat>)
    requires Sound(config.nodes)
    ensures r == LookupFrom(config.nodes, 0, path)
  {
    var p := path;
    var setting: nat := 0;
    while true
      invariant setting < |config.nodes|
      invariant LookupFrom(config.nodes, setting, p) == LookupFrom(config.nodes, 0, path)
      decreases |p|
    {
      hide Component, Elem, Member;
      ghost var before := p;
      while p != "" && IsPathToken(p[0])
        invariant SkipTokens(p) == SkipTokens(before) && |p| <= |before|
        decreases |p|
      {
        p := p[1..];
      }
      if p == "" {
        return Some(setting);
      }
      var found: Option<nat>;
      assert InArena(config.nodes, setting);
      if p[0] == '[' {
        p := p[1..];
        found := Elem(config.nodes, setting, Atoi(p));
      } else {
        found := config.GetMember(setting, p);
      }
      ElemInArena(config.nodes, setting, p);
      if found.None? {
        return if p == "" then Some(setting) else None;
      }
      setting := found.value;
      var rest := AfterComponent(p);
      p := rest;
    }
  }

  lemma ElemInArena(nodes: Arena, i: nat, q: string)
    requires Sound(nodes) && i < |nodes|
    ensures Elem(nodes, i, Atoi(q)).Some? ==> Elem(nodes, i, Atoi(q)).value < |nodes|
    ensures Member(nodes, i, q).Some? ==> Member(nodes, i, q).value < |nodes|
  {
    assert InArena(nodes, i);
  }

  /** The last loop of `config_lookup`. */
  method AfterComponent(path: string) returns (rest: string)
    ensures rest == path[|Component(path)|..]
  {
    var n := 0;
    while n < |path| && !IsPathToken(path[n])
      invariant n <= |path| && forall k :: 0 <= k < n ==> !IsPathToken(path[k])
    {
      n := n + 1;
    }
    ComponentIs(path, n);
    rest := path[n..];
  }

  // ---------------------------------------------------------------- lookup inverts printing

  /** A part of a path leads from a setting to its child. */
  lemma PartFound(nodes: Arena, p: nat, i: nat, rest: string)
    requires Sound(nodes) && p < i < |nodes| && nodes[i].parent == Some(p) && i in nodes[p].children
    requires rest == "" || IsPathToken(rest[0])
    ensures LookupFrom(nodes, p, Part(nodes, p, i) + rest) == LookupFrom(nodes, i, rest)
  {
    var q := Part(nodes, p, i) + rest;
    assert InArena(nodes, p) && NamesOk(nodes, p);
    var j :| 0 <= j < |nodes[p].children| && nodes[p].children[j] == i;
    if nodes[i].name.Some? {
      NamedPart(nodes, p, i, j, rest);
    } else {
      IndexedPart(nodes, p, i, rest);
    }
  }

  lemma NamedPart(nodes: Arena, p: nat, i: nat, j: nat, rest: string)
    requires Sound(nodes) && p < i < |nodes| && j < |nodes[p].children| && nodes[p].children[j] == i && nodes[i].name.Some?
    requires rest == "" || IsPathToken(rest[0])
    ensures LookupFrom(nodes, p, nodes[i].name.value + rest) == LookupFrom(nodes, i, rest)
  {
    var name := nodes[i].name.value;
    var q := name + rest;
    assert InArena(nodes, p) && NamesOk(nodes, p);
    NameComponent(name, rest);
    SearchFinds(nodes, p, q, 0, j);
    assert SkipTokens(q) == q && q[0] != '[';
    assert q[|name|..] == rest;
    assert StepInto(nodes, p, q) == (Some(i), q);
  }

  lemma {:induction false} IndexedPart(nodes: Arena, p: nat, i: nat, rest: string)
    requires Sound(nodes) && p < i < |nodes| && i in nodes[p].children && nodes[i].name.None?
    requires rest == "" || IsPathToken(rest[0])
    ensures LookupFrom(nodes, p, "[" + Decimal(IndexFrom(nodes, p, i, 0)) + "]" + rest) == LookupFrom(nodes, i, rest)
  {
    var k := IndexFrom(nodes, p, i, 0);
    assert InArena(nodes, p) && NamesOk(nodes, p);
    IndexFound(nodes, p, i, 0);
    var d := Decimal(k);
    var q := "[" + d + "]" + rest;
    var inner := d + ("]" + rest);
    assert q[0] == '[' && q[1..] == inner;
    DecimalRead(k, "]" + rest);
    AtoiDigits(inner);
    assert SkipTokens(q) == q;
    assert StepInto(nodes, p, q) == (Some(i), inner);
    ComponentIs(inner, |d| + 1);
    assert inner[|d| + 1..] == rest;
  }

  lemma {:induction false} IndexFound(nodes: Arena, p: nat, i: nat, k: nat)
    requires p < |nodes| && k <= |nodes[p].children| && i in nodes[p].children[k..]
    ensures IndexFrom(nodes, p, i, k) < |nodes[p].children|
    decreases |nodes[p].children| - k
  {
    if nodes[p].children[k] != i {
      IndexFound(nodes, p, i, k + 1);
    }
  }

  lemma AtoiDigits(s: string)
    requires s != "" && IsDigit(s[0])
    ensures Atoi(s) == ReadDigits(s, 0)
  {
  }

  /** How a path is put together. */
  lemma PathSplit(nodes: Arena, i: nat, rest: string)
    requires Attached(nodes, i) && 0 < i && nodes[i].parent.Some?
    ensures var p := nodes[i].parent.value;
      var part := Part(nodes, p, i) + rest;
      PathOf(nodes, i) + rest == if nodes[p].parent.Some? then PathOf(nodes, p) + ("." + part) else part
  {
    hide Part;
    var p := nodes[i].parent.value;
    var front, part := PathOf(nodes, p), Part(nodes, p, i);
    assert front + "." + part + rest == front + ("." + (part + rest));
    assert "" + part == part;
  }

  lemma {:induction false} PathFound(nodes: Arena, i: nat, rest: string)
    requires Sound(nodes) && Attached(nodes, i) && (rest == "" || IsPathToken(rest[0]))
    ensures LookupFrom(nodes, 0, PathOf(nodes, i) + rest) == LookupFrom(nodes, i, rest)
    decreases i
  {
    if i == 0 {
      assert PathOf(nodes, i) + rest == rest;
    } else {
      hide LookupFrom, PathOf, Part, Sound;
      PathSplit(nodes, i, rest);
      var p := nodes[i].parent.value;
      PartFound(nodes, p, i, rest);
      if nodes[p].parent.Some? {
        var part := Part(nodes, p, i) + rest;
        PathFound(nodes, p, "." + part);
        SkipDot(nodes, p, part);
      }
    }
  }

  lemma SkipDot(nodes: Arena, p: nat, part: string)
    requires p < |nodes|
    ensures LookupFrom(nodes, p, "." + part) == LookupFrom(nodes, p, part)
  {
    assert ("." + part)[1..] == part;
  }

  /** Looking up the printed path of any setting of a configuration returns that very setting. */
  lemma LookupInverts(nodes: Arena, i: nat)
    requires Sound(nodes) && Attached(nodes, i)
    ensures LookupFrom(nodes, 0, PathOf(nodes, i)) == Some(i)
  {
    PathFound(nodes, i, "");
    assert PathOf(nodes, i) + "" == PathOf(nodes, i);
  }
}

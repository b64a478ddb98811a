/** What `config_lookup` finds for any path at all, read as the parts between its separators. */
module PathWalks {
  import opened Wrappers
  import opened ConfigTrees
  import opened Settings
  import opened Paths

  ghost predicate AllTokens(s: string) { forall k :: 0 <= k < |s| ==> IsPathToken(s[k]) }

  ghost predicate NoToken(s: string) { forall k :: 0 <= k < |s| ==> !IsPathToken(s[k]) }

  /** A path is these parts, in order, with separators between them, and any number before and after. */
  ghost predicate Splits(path: string, parts: seq<string>)
    decreases |parts|
  {
    if parts == [] then AllTokens(path)
    else exists gap: string, rest: string :: Begins(path, gap, parts[0], rest) && Splits(rest, parts[1..])
  }

  ghost predicate Begins(path: string, gap: string, part: string, rest: string) {
    && path == gap + (part + rest) && AllTokens(gap)
    && part != "" && NoToken(part)
    && (rest == "" || IsPathToken(rest[0]))
  }

  /** A part in brackets, its closing one not required, gives the position of a child of any aggregate, the
      text being read by `atoi`; any other part gives the name of a member of a group. */
  ghost predicate Leads(nodes: Arena, i: nat, part: string, c: nat)
    requires part != ""
  {
    && i < |nodes|
    && if part[0] == '[' then
         var k := Atoi(part[1..]);
         nodes[i].kind.IsAggregate() && 0 <= k < |nodes[i].children| && nodes[i].children[k] == c
       else
         nodes[i].kind.GroupType? && c in nodes[i].children && c < |nodes| && nodes[c].name == Some(part)
  }

  ghost predicate Walk(nodes: Arena, i: nat, parts: seq<string>, c: nat)
    decreases |parts|
  {
    if parts == [] then c == i
    else parts[0] != "" && exists d: nat :: Leads(nodes, i, parts[0], d) && Walk(nodes, d, parts[1..], c)
  }

  /** A path that ends in an opening bracket where there is no element to name. */
  ghost predicate Dangles(nodes: Arena, i: nat, path: string, parts: seq<string>, c: nat) {
    && path != "" && path[|path| - 1] == '['
    && parts != [] && parts[|parts| - 1] == "["
    && Walk(nodes, i, parts[..|parts| - 1], c)
    && forall d: nat :: !Leads(nodes, c, "[", d)
  }

  // ---------------------------------------------------------------- one part

  lemma {:induction false} SkipGap(gap: string, q: string)
    requires AllTokens(gap) && (q == "" || !IsPathToken(q[0]))
    ensures SkipTokens(gap + q) == q
  {
    if gap == "" {
      assert gap + q == q;
    } else {
      assert (gap + q)[0] == gap[0] && (gap + q)[1..] == gap[1..] + q;
      SkipGap(gap[1..], q);
    }
  }

  lemma PartComponent(part: string, rest: string)
    requires NoToken(part) && (rest == "" || IsPathToken(rest[0]))
    ensures Component(part + rest) == part && (part + rest)[|part|..] == rest
  {
    ComponentIs(part + rest, |part|);
    assert (part + rest)[..|part|] == part;
  }

  lemma {:induction false} DigitsStop(s: string, rest: string, sofar: nat)
    requires rest == "" || IsPathToken(rest[0])
    ensures ReadDigits(s + rest, sofar) == ReadDigits(s, sofar)
  {
    if s == "" {
      assert s + rest == rest;
    } else {
      assert (s + rest)[0] == s[0] && (s + rest)[1..] == s[1..] + rest;
      if IsDigit(s[0]) {
        DigitsStop(s[1..], rest, sofar * 10 + DigitValue(s[0]));
      }
    }
  }

  lemma {:induction false} SpacesStop(s: string, rest: string)
    requires rest == "" || IsPathToken(rest[0])
    ensures SkipSpaces(s + rest) == SkipSpaces(s) + rest
  {
    if s == "" {
      assert s + rest == rest && SkipSpaces(s) == s;
    } else {
      assert (s + rest)[0] == s[0] && (s + rest)[1..] == s[1..] + rest;
      if IsSpace(s[0]) {
        SpacesStop(s[1..], rest);
      }
    }
  }

  /** `atoi` reads no further than the part. */
  lemma AtoiStops(s: string, rest: string)
    requires rest == "" || IsPathToken(rest[0])
    ensures Atoi(s + rest) == Atoi(s)
  {
    SpacesStop(s, rest);
    var t := SkipSpaces(s);
    hide ReadDigits, SkipSpaces;
    if t == "" {
      assert t + rest == rest;
      DigitsStop("", rest, 0);
      assert "" + rest == rest;
    } else {
      assert (t + rest)[0] == t[0] && (t + rest)[1..] == t[1..] + rest;
      DigitsStop(t, rest, 0);
      DigitsStop(t[1..], rest, 0);
    }
  }

  ghost predicate Blank(s: string) { forall k :: 0 <= k < |s| ==> IsSpace(s[k]) }

  lemma {:induction false} SkipBlank(spaces: string, t: string)
    requires Blank(spaces) && (t == "" || !IsSpace(t[0]))
    ensures SkipSpaces(spaces + t) == t
  {
    if spaces == "" {
      assert spaces + t == t;
    } else {
      assert (spaces + t)[0] == spaces[0] && (spaces + t)[1..] == spaces[1..] + t;
      SkipBlank(spaces[1..], t);
    }
  }

  /** It reads blanks, a sign and the number that follows, and 0 where none does. */
  lemma AtoiReads(spaces: string, sign: string, n: nat, rest: string)
    requires Blank(spaces) && (sign == "" || sign == "+" || sign == "-") && (rest == "" || !IsDigit(rest[0]))
    ensures Atoi(spaces + (sign + (Decimal(n) + rest))) == if sign == "-" then -(n as int) else n
    ensures (sign != "" || rest == "" || !(IsSpace(rest[0]) || rest[0] == '+' || rest[0] == '-')) ==> Atoi(spaces + (sign + rest)) == 0
  {
    hide Decimal, SkipSpaces, ReadDigits;
    var number := Decimal(n) + rest;
    DecimalRead(n, rest);
    assert number[0] == Decimal(n)[0];
    assert sign == "" ==> sign + number == number && sign + rest == rest;
    assert sign != "" ==> (sign + number)[1..] == number && (sign + rest)[1..] == rest && (sign + number)[0] == sign[0] == (sign + rest)[0];
    SkipBlank(spaces, sign + number);
    if sign != "" || rest == "" || !IsSpace(rest[0]) {
      SkipBlank(spaces, sign + rest);
      NoDigits(rest);
    }
  }

  lemma NoDigits(s: string)
    requires s == "" || !IsDigit(s[0])
    ensures ReadDigits(s, 0) == 0
  {
  }

  /** The step of the search is the child the part leads to. */
  lemma StepLeads(nodes: Arena, i: nat, part: string, rest: string, d: nat)
    requires Sound(nodes) && i < |nodes| && part != "" && NoToken(part) && (rest == "" || IsPathToken(rest[0]))
    ensures var step := StepInto(nodes, i, part + rest);
      && (Leads(nodes, i, part, d) <==> step.0 == Some(d))
      && step.1 == (if part[0] == '[' then part[1..] else part) + rest
      && step.1[|Component(step.1)|..] == rest
  {
    var q := part + rest;
    if part[0] == '[' {
      assert q[1..] == part[1..] + rest;
      PartComponent(part[1..], rest);
      AtoiStops(part[1..], rest);
    } else {
      PartComponent(part, rest);
      MemberNamed(nodes, i, part, rest, d);
    }
  }

  lemma MemberNamed(nodes: Arena, p: nat, part: string, rest: string, c: nat)
    requires Sound(nodes) && p < |nodes| && NoToken(part) && (rest == "" || IsPathToken(rest[0]))
    ensures Member(nodes, p, part + rest) == Some(c)
      <==> nodes[p].kind.GroupType? && c in nodes[p].children && c < |nodes| && nodes[c].name == Some(part)
  {
    var q := part + rest;
    assert InArena(nodes, p) && NamesOk(nodes, p);
    PartComponent(part, rest);
    if nodes[p].kind.GroupType? {
      var r := SearchFrom(nodes, p, q, 0);
      if c in nodes[p].children && c < |nodes| && nodes[c].name == Some(part) {
        var j :| 0 <= j < |nodes[p].children| && nodes[p].children[j] == c;
        SearchFinds(nodes, p, q, 0, j);
      }
      if r < |nodes[p].children| {
        FoundAnswers(nodes, p, q, 0);
        var found := nodes[nodes[p].children[r]].name.value;
        NameComponent(found, "");
        assert found + "" == found;
      }
    }
  }

  // ---------------------------------------------------------------- whole paths

  /** A path of some parts: what comes first, and that more follows if there are more. */
  lemma NextPart(path: string, parts: seq<string>) returns (gap: string, rest: string)
    requires Splits(path, parts) && parts != []
    ensures Begins(path, gap, parts[0], rest) && Splits(rest, parts[1..])
    ensures parts[1..] != [] ==> rest != ""
    ensures parts[1..] == [] ==> AllTokens(rest)
    ensures path != "" && (path[|path| - 1] == '[' <==> if rest == "" then parts[0][|parts[0]| - 1] == '[' else rest[|rest| - 1] == '[')
  {
    gap, rest :| Begins(path, gap, parts[0], rest) && Splits(rest, parts[1..]);
  }

  /** `config_lookup` returns the setting its parts lead to; there is one other case in which it returns
      one, a path that dangles. */
  lemma {:induction false} LookupIs(nodes: Arena, i: nat, path: string, parts: seq<string>, c: nat)
    requires Sound(nodes) && i < |nodes| && Splits(path, parts)
    ensures LookupFrom(nodes, i, path) == Some(c) <==> Walk(nodes, i, parts, c) || Dangles(nodes, i, path, parts, c)
    decreases |parts|
  {
    if parts == [] {
      SkipGap(path, "");
      assert path + "" == path;
    } else {
      hide StepInto, Sound, Splits;
      var gap, rest := NextPart(path, parts);
      var part := parts[0];
      SkipGap(gap, part + rest);
      var step := StepInto(nodes, i, part + rest);
      forall d: nat
        ensures Leads(nodes, i, part, d) <==> step.0 == Some(d)
      {
        StepLeads(nodes, i, part, rest, d);
      }
      StepLeads(nodes, i, part, rest, 0);
      if step.0.Some? {
        var d := step.0.value;
        assert Leads(nodes, i, part, d);
        LeadsInside(nodes, i, part, d);
        LookupIs(nodes, d, rest, parts[1..], c);
        WalkOn(nodes, i, d, path, rest, parts, c);
      } else {
        NoStep(nodes, i, path, rest, parts, c);
      }
    }
  }

  lemma LeadsInside(nodes: Arena, i: nat, part: string, d: nat)
    requires Sound(nodes) && part != "" && Leads(nodes, i, part, d)
    ensures d < |nodes|
  {
    assert InArena(nodes, i);
  }

  /** A first part that leads somewhere. */
  lemma WalkOn(nodes: Arena, i: nat, d: nat, path: string, rest: string, parts: seq<string>, c: nat)
    requires parts != [] && parts[0] != "" && Leads(nodes, i, parts[0], d)
    requires forall e: nat :: Leads(nodes, i, parts[0], e) ==> e == d
    requires path != "" && (parts[1..] != [] ==> rest != "" && (path[|path| - 1] == '[' <==> rest[|rest| - 1] == '['))
    ensures Walk(nodes, i, parts, c) <==> Walk(nodes, d, parts[1..], c)
    ensures Dangles(nodes, i, path, parts, c) <==> Dangles(nodes, d, rest, parts[1..], c)
  {
    hide Leads;
    var (front, later) := (parts[..|parts| - 1], parts[1..]);
    if later != [] {
      assert front[0] == parts[0] && front[1..] == later[..|later| - 1];
      assert later[|later| - 1] == parts[|parts| - 1];
    } else {
      assert front == [];
      assert !Dangles(nodes, i, path, parts, c) by {
        if parts[0] == "[" && c == i {
          assert Leads(nodes, c, "[", d);
        }
      }
    }
  }

  /** A first part that leads nowhere. */
  lemma NoStep(nodes: Arena, i: nat, path: string, rest: string, parts: seq<string>, c: nat)
    requires parts != [] && parts[0] != "" && forall d: nat :: !Leads(nodes, i, parts[0], d)
    requires path != "" && (path[|path| - 1] == '[' <==> if rest == "" then parts[0][|parts[0]| - 1] == '[' else rest[|rest| - 1] == '[')
    requires if parts[1..] == [] then AllTokens(rest) else rest != ""
    ensures !Walk(nodes, i, parts, c)
    ensures Dangles(nodes, i, path, parts, c) <==> c == i && parts[0] == "[" && rest == ""
  {
    hide Leads;
    var front := parts[..|parts| - 1];
    if parts[1..] == [] {
      assert front == [] && parts == [parts[0]];
      if rest != "" {
        assert IsPathToken(rest[|rest| - 1]);
      }
    } else {
      assert front[0] == parts[0];
    }
  }

  /** Every path is some parts. */
  lemma {:induction false} PartsOf(path: string) returns (parts: seq<string>)
    ensures Splits(path, parts)
    decreases |path|
  {
    var gap, q := Skipped(path);
    if q == "" {
      parts := [];
      assert path == gap;
    } else {
      var part := Component(q);
      var rest := q[|part|..];
      assert q == part + rest && part != "";
      assert Begins(path, gap, part, rest);
      var later := PartsOf(rest);
      parts := [part] + later;
      assert parts[0] == part && parts[1..] == later;
    }
  }

  lemma Skipped(path: string) returns (gap: string, q: string)
    ensures path == gap + q && AllTokens(gap) && (q == "" || !IsPathToken(q[0]))
  {
    gap, q := "", path;
    while q != "" && IsPathToken(q[0])
      invariant path == gap + q && AllTokens(gap)
      decreases |q|
    {
      gap, q := gap + [q[0]], q[1..];
    }
  }

  /** An opening bracket alone names no element of an empty configuration, and is answered with its root. */
  lemma BracketFindsRoot(nodes: Arena)
    requires |nodes| == 1 && nodes[0].kind.GroupType? && nodes[0].children == []
    ensures LookupFrom(nodes, 0, "a.[") == None && LookupFrom(nodes, 0, "[") == Some(0)
  {
    assert SkipTokens("[") == "[" && SkipTokens("a.[") == "a.[";
    assert "["[1..] == "";
  }
}

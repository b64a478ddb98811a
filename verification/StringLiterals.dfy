/** String values as text: the writer's quoting (`__config_write_value`) and the scanner's in-place
    decoder (`make_string`), which undoes it. */
module StringLiterals {
  import opened Wrappers

  const NUL: char := '\0'
  const FORM_FEED: char := '\U{000C}'

  /** A C string: what lies before the terminator. */
  predicate NulFree(s: string) { NUL !in s }

  // ---------------------------------------------------------------- writing

  /** What the writer emits for one character. */
  function EscapeChar(c: char): string {
    if c == '\"' || c == '\\' then ['\\', c]
    else if c == '\n' then "\\n"
    else if c == '\r' then "\\r"
    else if c == FORM_FEED then "\\f"
    else if c == '\t' then "\\t"
    else [c]
  }

  function Escape(s: string): string {
    if s == "" then "" else EscapeChar(s[0]) + Escape(s[1..])
  }

  function Quote(s: string): string { "\"" + Escape(s) + "\"" }

  lemma {:induction false} EscapeConcat(s: string, t: string)
    ensures Escape(s + t) == Escape(s) + Escape(t)
  {
    if s == "" {
      assert s + t == t;
    } else {
      assert (s + t)[0] == s[0] && (s + t)[1..] == s[1..] + t;
      EscapeConcat(s[1..], t);
      assert Escape(s + t) == EscapeChar(s[0]) + (Escape(s[1..]) + Escape(t));
    }
  }

  /** The string case of `__config_write_value`. */
  method WriteString(value: string) returns (text: string)
    ensures text == Quote(value)
  {
    text := "\"";
    var p := 0;
    while p < |value|
      invariant p <= |value| && text == "\"" + Escape(value[..p])
    {
      var c := value[p];
      EscapeStep(value, p);
      ghost var before := text;
      var piece: string;
      if c == '\"' || c == '\\' {
        piece := ['\\', c];
      } else if c == '\n' {
        piece := "\\n";
      } else if c == '\r' {
        piece := "\\r";
      } else if c == FORM_FEED {
        piece := "\\f";
      } else if c == '\t' {
        piece := "\\t";
      } else {
        piece := [c];
      }
      assert piece == EscapeChar(c);
      hide Escape, EscapeChar;
      Append("\"", Escape(value[..p]), piece);
      text := text + piece;
      p := p + 1;
    }
    assert value[..p] == value;
    text := text + "\"";
    assert text == Quote(value);
  }

  lemma EscapeStep(value: string, p: nat)
    requires p < |value|
    ensures Escape(value[..p + 1]) == Escape(value[..p]) + EscapeChar(value[p])
  {
    EscapeConcat(value[..p], [value[p]]);
    assert value[..p + 1] == value[..p] + [value[p]];
    assert Escape([value[p]]) == EscapeChar(value[p]) + Escape("");
  }

  // ---------------------------------------------------------------- the scanner's segments

  /** The inside of one `segment` of scanner.l: no bare quote, and every backslash followed by a
      character other than a newline. */
  predicate InSegment(t: string) {
    || t == ""
    || (t[0] != '\"' && t[0] != '\\' && InSegment(t[1..]))
    || (t[0] == '\\' && |t| >= 2 && t[1] != '\n' && InSegment(t[2..]))
  }

  lemma SegmentStep(c: char, t: string)
    requires InSegment(t)
    ensures InSegment(EscapeChar(c) + t)
  {
    var e := EscapeChar(c);
    assert (e + t)[|e|..] == t;
  }

  /** What the writer emits is one segment without a terminator in it. */
  lemma {:induction false} EscapeIsSegment(s: string)
    requires NulFree(s)
    ensures InSegment(Escape(s)) && NulFree(Escape(s))
  {
    if s != "" {
      EscapeIsSegment(s[1..]);
      SegmentStep(s[0], Escape(s[1..]));
      hide InSegment;
    }
  }

  // ---------------------------------------------------------------- reading

  function Unescape(c: char): char {
    if c == 'n' then '\n' else if c == 'r' then '\r' else if c == 'f' then FORM_FEED else if c == 't' then '\t' else c
  }

  datatype Found = Nowhere | At(index: nat)

  /** The first newline after `p`. */
  function LineEnd(t: string, p: nat): (f: Found)
    ensures f.At? ==> p < f.index < |t| && t[f.index] == '\n'
    decreases |t| - p
  {
    if p + 1 >= |t| then Nowhere else if t[p + 1] == '\n' then At(p + 1) else LineEnd(t, p + 1)
  }

  /** The slash that closes a block comment after `p`. */
  function CommentEnd(t: string, p: nat): (f: Found)
    ensures f.At? ==> p < f.index < |t|
    decreases |t| - p
  {
    if p + 2 >= |t| then Nowhere
    else if t[p + 1] == '*' && t[p + 2] == '/' then At(p + 2)
    else CommentEnd(t, p + 1)
  }

  /** The quote that opens the next segment after `p`, past blanks and comments; `Nowhere` if the
      search runs off the text. */
  function NextSegment(t: string, p: nat): (f: Found)
    ensures f.At? ==> p < f.index < |t| && t[f.index] == '\"'
    decreases |t| - p
  {
    if p + 1 >= |t| then Nowhere
    else if t[p + 1] == '\"' then At(p + 1)
    else if t[p + 1] == '#' then
      var e := LineEnd(t, p + 1);
      if e.Nowhere? then Nowhere else NextSegment(t, e.index)
    else if t[p + 1] == '/' then
      if p + 2 >= |t| then Nowhere
      else
        var e := if t[p + 2] == '/' then LineEnd(t, p + 2) else CommentEnd(t, p + 2);
        if e.Nowhere? then Nowhere else NextSegment(t, e.index)
    else NextSegment(t, p + 1)
  }

  datatype Decoded = Runaway | Text(s: string)

  function Prepend(c: char, d: Decoded): Decoded { if d.Runaway? then Runaway else Text([c] + d.s) }

  /** What the text between the outer quotes denotes, from position `p` on. */
  function Decode(t: string, p: nat, esc: bool): Decoded
    requires p <= |t|
    decreases |t| - p
  {
    if p == |t| then Text("")
    else if t[p] == '\\' && !esc then Decode(t, p + 1, true)
    else if esc then Prepend(Unescape(t[p]), Decode(t, p + 1, false))
    else if t[p] == '\"' then
      var f := NextSegment(t, p);
      if f.Nowhere? then Runaway else Decode(t, f.index + 1, false)
    else Prepend(t[p], Decode(t, p + 1, false))
  }

  /** One written character is read back. */
  lemma DecodeOne(t: string, p: nat, c: char, rest: string)
    requires p <= |t| && t[p..] == EscapeChar(c) + rest
    ensures var n := p + |EscapeChar(c)|;
      n <= |t| && t[n..] == rest && Decode(t, p, false) == Prepend(c, Decode(t, n, false))
  {
    hide NextSegment;
    var e := EscapeChar(c);
    assert t[p] == t[p..][0] == e[0];
    if |e| == 2 {
      assert t[p + 1] == t[p..][1] == e[1];
      assert Decode(t, p, false) == Decode(t, p + 1, true);
    }
  }

  lemma EscapeUnfold(s: string)
    ensures Escape(s) == if s == "" then "" else EscapeChar(s[0]) + Escape(s[1..])
  {
  }

  /** Characters are read as they were written. */
  lemma {:induction false} DecodeEscaped(t: string, p: nat, s: string)
    requires p <= |t| && t[p..] == Escape(s)
    ensures Decode(t, p, false) == Text(s)
    decreases |s|
  {
    hide Decode, EscapeChar, Escape;
    EscapeUnfold(s);
    if s == "" {
      assert |t[p..]| == 0;
      DecodeEnds(t, false);
    } else {
      DecodeOne(t, p, s[0], Escape(s[1..]));
      DecodeEscaped(t, p + |EscapeChar(s[0])|, s[1..]);
      assert [s[0]] + s[1..] == s;
    }
  }

  /** One turn of the decoder. */
  lemma DecodeStep(t: string, p: nat, esc: bool)
    requires p < |t|
    ensures var c := t[p];
      Decode(t, p, esc) ==
        if c == '\\' && !esc then Decode(t, p + 1, true)
        else if esc then Prepend(Unescape(c), Decode(t, p + 1, false))
        else if c == '\"' then
          if NextSegment(t, p).Nowhere? then Runaway else Decode(t, NextSegment(t, p).index + 1, false)
        else Prepend(c, Decode(t, p + 1, false))
  {
  }

  // ---------------------------------------------------------------- the scanner's strings

  predicate IsBlank(c: char) { c == ' ' || c == '\t' || c == FORM_FEED || c == '\r' || c == '\n' }

  /** `(#|\/\/).*\n` */
  predicate IsLine(c: string) {
    && |c| >= 2 && c[|c| - 1] == '\n' && (forall k :: 0 <= k < |c| - 1 ==> c[k] != '\n')
    && (c[0] == '#' || (|c| >= 3 && c[0] == '/' && c[1] == '/'))
  }

  /** `\/\*(.|\n)*\*\/`, which may hold end marks before the one it stops at; with `first` it may not. */
  predicate IsBlock(c: string, first: bool) {
    && |c| >= 4 && c[0] == '/' && c[1] == '*' && c[|c| - 2] == '*' && c[|c| - 1] == '/'
    && (first ==> forall k :: 2 <= k < |c| - 2 ==> !(c[k] == '*' && c[k + 1] == '/'))
  }

  /** A blank or a comment. */
  predicate IsFiller(c: string, first: bool) { (|c| == 1 && IsBlank(c[0])) || IsLine(c) || IsBlock(c, first) }

  /** The inside `t` of a `string` of scanner.l, segments with blanks and comments between, denotes `s`;
      with `first` every block comment stops at its first end mark. */
  ghost predicate Denotes(t: string, s: string, first: bool)
    decreases |t|
  {
    if t == "" then s == ""
    else if t[0] == '\"' then DenotesPast(t[1..], s, first)
    else if t[0] == '\\' then |t| >= 2 && t[1] != '\n' && s != "" && s[0] == Unescape(t[1]) && Denotes(t[2..], s[1..], first)
    else s != "" && s[0] == t[0] && Denotes(t[1..], s[1..], first)
  }

  /** The same from within a gap. */
  ghost predicate DenotesPast(t: string, s: string, first: bool)
    decreases |t|
  {
    || (t != "" && t[0] == '\"' && Denotes(t[1..], s, first))
    || exists n: nat :: 0 < n <= |t| && IsFiller(t[..n], first) && DenotesPast(t[n..], s, first)
  }

  lemma LineEndIs(t: string, p: nat, n: nat)
    requires p < n < |t| && t[n] == '\n' && forall k :: p < k < n ==> t[k] != '\n'
    ensures LineEnd(t, p) == At(n)
    decreases |t| - p
  {
    if p + 1 < n {
      LineEndIs(t, p + 1, n);
    }
  }

  lemma CommentEndIs(t: string, p: nat, n: nat)
    requires p + 1 < n < |t| && t[n - 1] == '*' && t[n] == '/' && forall k :: p < k < n - 1 ==> !(t[k] == '*' && t[k + 1] == '/')
    ensures CommentEnd(t, p) == At(n)
    decreases |t| - p
  {
    if p + 2 < n {
      CommentEndIs(t, p + 1, n);
    }
  }

  lemma LineSkipped(t: string, p: nat, n: nat)
    requires p < |t| && n <= |t| - (p + 1) && IsLine(t[p + 1..][..n])
    ensures NextSegment(t, p) == NextSegment(t, p + n)
  {
    var c := t[p + 1..][..n];
    assert forall k :: 0 <= k < n ==> c[k] == t[p + 1 + k];
    assert forall k :: p + 1 < k < p + n ==> t[k] == c[k - (p + 1)];
    if c[0] == '#' {
      LineEndIs(t, p + 1, p + n);
    } else {
      LineEndIs(t, p + 2, p + n);
    }
  }

  lemma BlockSkipped(t: string, p: nat, n: nat)
    requires p < |t| && n <= |t| - (p + 1) && IsBlock(t[p + 1..][..n], true)
    ensures NextSegment(t, p) == NextSegment(t, p + n)
  {
    var c := t[p + 1..][..n];
    assert forall k :: 0 <= k < n ==> c[k] == t[p + 1 + k];
    forall k | p + 2 < k < p + n - 1
      ensures !(t[k] == '*' && t[k + 1] == '/')
    {
      assert c[k - (p + 1)] == t[k] && c[k - p] == t[k + 1];
    }
    CommentEndIs(t, p + 2, p + n);
  }

  /** A string whose block comments stop at their first end mark is decoded to what it denotes. */
  lemma DecodeRight(t: string, p: nat, s: string)
    requires p <= |t| && Denotes(t[p..], s, true)
    ensures Decode(t, p, false) == Text(s)
    decreases |t| - p, 1
  {
    hide NextSegment, IsFiller;
    if p < |t| {
      assert t[p..][0] == t[p] && t[p..][1..] == t[p + 1..];
      if t[p] == '\"' {
        DecodePast(t, p, s, p);
      } else if t[p] == '\\' {
        assert t[p..][1] == t[p + 1] && t[p..][2..] == t[p + 2..];
        DecodeRight(t, p + 2, s[1..]);
        assert [s[0]] + s[1..] == s;
      } else {
        DecodeRight(t, p + 1, s[1..]);
        assert [s[0]] + s[1..] == s;
      }
    }
  }

  /** Blanks and comments in a gap are skipped. */
  lemma FillerSkipped(t: string, p: nat, n: nat)
    requires p < |t| && n <= |t| - (p + 1) && IsFiller(t[p + 1..][..n], true)
    ensures NextSegment(t, p) == NextSegment(t, p + n)
  {
    var c := t[p + 1..][..n];
    if IsLine(c) {
      LineSkipped(t, p, n);
    } else if IsBlock(c, true) {
      BlockSkipped(t, p, n);
    } else {
      assert c[0] == t[p + 1];
    }
  }

  lemma QuoteFound(t: string, p: nat)
    requires p + 1 < |t| && t[p + 1] == '\"'
    ensures NextSegment(t, p) == At(p + 1)
  {
  }

  /** The same from `p` within a gap that began at the quote at `open`. */
  lemma DecodePast(t: string, open: nat, s: string, p: nat)
    requires open <= p < |t| && t[open] == '\"' && DenotesPast(t[p + 1..], s, true)
    requires NextSegment(t, p) == NextSegment(t, open)
    ensures Decode(t, open, false) == Text(s)
    decreases |t| - p, 0
  {
    hide IsFiller, Decode, Denotes, NextSegment;
    var u := t[p + 1..];
    if u != "" && u[0] == '\"' && Denotes(u[1..], s, true) {
      assert u[0] == t[p + 1] && u[1..] == t[p + 2..];
      QuoteFound(t, p);
      DecodeRight(t, p + 2, s);
      DecodeStep(t, open, false);
    } else {
      var n: nat :| 0 < n <= |u| && IsFiller(u[..n], true) && DenotesPast(u[n..], s, true);
      hide DenotesPast;
      FillerSkipped(t, p, n);
      assert u[n..] == t[p + n + 1..];
      DecodePast(t, open, s, p + n);
    }
  }

  // ---------------------------------------------------------------- running off the text

  /** Where the decoder is in a text: in a segment, after a backslash there, in a gap, after a slash
      there, in a line comment, in a block comment, after an asterisk there. */
  datatype Mode = InText | Escaped | InGap | Slashed | InLine | InBlock | Starred

  function Next(m: Mode, c: char): Mode {
    match m
    case InText => if c == '\\' then Escaped else if c == '\"' then InGap else InText
    case Escaped => InText
    case InGap => if c == '\"' then InText else if c == '#' then InLine else if c == '/' then Slashed else InGap
    case Slashed => if c == '/' then InLine else InBlock
    case InLine => if c == '\n' then InGap else InLine
    case InBlock => if c == '*' then Starred else InBlock
    case Starred => if c == '/' then InGap else if c == '*' then Starred else InBlock
  }

  /** The mode at the end of the text, from `m` at `p`. */
  function Last(t: string, p: nat, m: Mode): Mode
    requires p <= |t|
    decreases |t| - p
  {
    if p == |t| then m else Last(t, p + 1, Next(m, t[p]))
  }

  predicate Reading(m: Mode) { m.InText? || m.Escaped? }

  lemma LineMode(t: string, p: nat)
    requires p < |t|
    ensures var e := LineEnd(t, p);
      if e.At? then Last(t, p + 1, InLine) == Last(t, e.index + 1, InGap) else !Reading(Last(t, p + 1, InLine))
    decreases |t| - p
  {
    if p + 1 < |t| && t[p + 1] != '\n' {
      LineMode(t, p + 1);
    }
  }

  lemma BlockMode(t: string, p: nat)
    requires p < |t|
    ensures var e := CommentEnd(t, p);
      if e.At? then Last(t, p + 1, InBlock) == Last(t, e.index + 1, InGap) else !Reading(Last(t, p + 1, InBlock))
    decreases |t| - p
  {
    if p + 2 < |t| && !(t[p + 1] == '*' && t[p + 2] == '/') {
      BlockMode(t, p + 1);
      if t[p + 1] == '*' {
        assert Last(t, p + 1, InBlock) == Last(t, p + 2, Starred);
        assert Last(t, p + 2, Starred) == Last(t, p + 2, InBlock) by {
          assert Next(Starred, t[p + 2]) == Next(InBlock, t[p + 2]);
        }
      }
    }
  }

  lemma GapMode(t: string, p: nat)
    requires p < |t|
    ensures var f := NextSegment(t, p);
      if f.At? then Last(t, p + 1, InGap) == Last(t, f.index + 1, InText) else !Reading(Last(t, p + 1, InGap))
    decreases |t| - p
  {
    if p + 1 < |t| && t[p + 1] != '\"' {
      if t[p + 1] == '#' {
        LineMode(t, p + 1);
        if LineEnd(t, p + 1).At? {
          GapMode(t, LineEnd(t, p + 1).index);
        }
      } else if t[p + 1] == '/' {
        SlashMode(t, p);
      } else {
        GapMode(t, p + 1);
      }
    }
  }

  lemma SlashMode(t: string, p: nat)
    requires p + 1 < |t| && t[p + 1] == '/'
    ensures var f := NextSegment(t, p);
      if f.At? then Last(t, p + 1, InGap) == Last(t, f.index + 1, InText) else !Reading(Last(t, p + 1, InGap))
    decreases |t| - p, 0
  {
    assert Last(t, p + 1, InGap) == Last(t, p + 2, Slashed);
    if p + 2 < |t| {
      var line := t[p + 2] == '/';
      assert Last(t, p + 2, Slashed) == Last(t, p + 3, if line then InLine else InBlock);
      LineMode(t, p + 2);
      BlockMode(t, p + 2);
      var e := if line then LineEnd(t, p + 2) else CommentEnd(t, p + 2);
      if e.At? {
        GapMode(t, e.index);
      }
    }
  }

  /** A text is decoded exactly if it ends within a segment, by what the decoder takes for segments,
      gaps and comments; otherwise the decoder runs off it. */
  lemma DecodesIff(t: string, p: nat, esc: bool)
    requires p <= |t|
    ensures Decode(t, p, esc).Text? <==> Reading(Last(t, p, if esc then Escaped else InText))
    decreases |t| - p
  {
    hide NextSegment;
    if p < |t| {
      DecodeStep(t, p, esc);
      if t[p] == '\"' && !esc {
        GapMode(t, p);
        if NextSegment(t, p).At? {
          DecodesIff(t, NextSegment(t, p).index + 1, false);
        }
      } else {
        DecodesIff(t, p + 1, t[p] == '\\' && !esc);
      }
    }
  }

  /** `a"`, a comment with two end marks, `"c`. */
  const OVERRUN: string := ['a'] + ("\"" + ("/**/*/" + ("\"" + ['c'])))

  /** A string of the scanner, one comment between two segments, that the decoder runs off. */
  lemma StringOverrun()
    ensures Denotes(OVERRUN, "ac", false) && Decode(OVERRUN, 0, false).Runaway?
  {
    OverrunDenotes();
    hide Denotes;
    var t := OVERRUN;
    DecodesIff(t, 0, false);
    assert Last(t, 8, Slashed) == Last(t, 9, InBlock) == InBlock;
    assert Last(t, 6, InGap) == Last(t, 7, InGap) == Last(t, 8, Slashed);
    assert Last(t, 4, InBlock) == Last(t, 5, Starred) == Last(t, 6, InGap);
    assert Last(t, 0, InText) == Last(t, 1, InText) == Last(t, 2, InGap) == Last(t, 3, Slashed) == Last(t, 4, InBlock);
  }

  lemma CharDenotes(c: char, t: string, s: string, first: bool)
    requires c != '\"' && c != '\\' && Denotes(t, s, first)
    ensures Denotes([c] + t, [c] + s, first)
  {
    assert ([c] + t)[1..] == t && ([c] + s)[1..] == s;
  }

  lemma QuoteDenotes(t: string, s: string, first: bool)
    ensures DenotesPast(t, s, first) ==> Denotes("\"" + t, s, first)
    ensures Denotes(t, s, first) ==> DenotesPast("\"" + t, s, first)
  {
    assert ("\"" + t)[1..] == t;
  }

  lemma FillerDenotes(c: string, t: string, s: string, first: bool)
    requires c != "" && IsFiller(c, first) && DenotesPast(t, s, first)
    ensures DenotesPast(c + t, s, first)
  {
    hide IsFiller;
    assert (c + t)[..|c|] == c && (c + t)[|c|..] == t;
  }

  lemma OverrunDenotes()
    ensures Denotes(OVERRUN, "ac", false)
  {
    CommentFills();
    LastChar('c', false);
    hide Denotes, DenotesPast, IsFiller;
    var tail := "\"" + ['c'];
    QuoteDenotes(['c'], ['c'], false);
    FillerDenotes("/**/*/", tail, ['c'], false);
    QuoteDenotes("/**/*/" + tail, ['c'], false);
    CharDenotes('a', "\"" + ("/**/*/" + tail), ['c'], false);
    assert ['a'] + ['c'] == "ac";
  }

  lemma CommentFills()
    ensures IsFiller("/**/*/", false)
  {
  }

  lemma LastChar(c: char, first: bool)
    requires c != '\"' && c != '\\'
    ensures Denotes([c], [c], first)
  {
    assert [c][1..] == "";
  }

  // ---------------------------------------------------------------- in place

  /** What precedes, and what a decoding yields. */
  function Prefixed(done: string, d: Decoded): Decoded { if d.Runaway? then Runaway else Text(done + d.s) }

  /** `make_string` on a literal: `a` holds the opening quote, the text, the closing quote and the
      terminator. It overwrites the text with what it denotes, never writing ahead of where it reads,
      and returns where that starts. `overrun` tells that the read cursor passed the terminator, where
      the code goes on past the end of the buffer; here the search stops. */
  method MakeString(a: array<char>) returns (r: nat, overrun: bool)
    requires a.Length >= 3 && a[a.Length - 1] == NUL && forall k :: 0 <= k < a.Length - 1 ==> a[k] != NUL
    modifies a
    ensures r == 1
    ensures overrun <==> Decode(old(a[1..a.Length - 2]), 0, false).Runaway?
    ensures !overrun ==>
      var s := Decode(old(a[1..a.Length - 2]), 0, false).s;
      |s| + 1 < a.Length && a[1..|s| + 1] == s && a[|s| + 1] == NUL
  {
    ghost var t := a[1..a.Length - 2];
    r := 1;
    a[a.Length - 2] := NUL;
    var q;
    q, overrun := DecodeInPlace(a, t);
    if !overrun {
      a[q] := NUL;
    }
  }

  /** The main loop of `make_string`: the read cursor runs to the terminator, the write cursor
      behind it. */
  method DecodeInPlace(a: array<char>, ghost t: string) returns (q: nat, overrun: bool)
    requires |t| + 3 == a.Length && a[a.Length - 2] == NUL
    requires forall k :: 1 <= k < a.Length - 2 ==> a[k] == t[k - 1]
    modifies a
    ensures overrun <==> Decode(t, 0, false).Runaway?
    ensures 1 <= q <= a.Length - 2 && (!overrun ==> a[1..q] == Decode(t, 0, false).s)
  {
    hide NextSegment, Decode, Unescape, Escape, EscapeChar;
    var end := a.Length - 2;
    var p, esc := 1, false;
    q, overrun := 1, false;
    ghost var done := "";
    while p < end
      invariant 1 <= q <= p <= end == a.Length - 2 && a[end] == NUL
      invariant forall k :: p <= k < end ==> a[k] == t[k - 1]
      invariant |done| == q - 1 && forall k :: 0 <= k < |done| ==> a[k + 1] == done[k]
      invariant Decode(t, 0, false) == Prefixed(done, Decode(t, p - 1, esc))
      decreases end - p
    {
      var c := a[p];
      DecodeStep(t, p - 1, esc);
      if c == '\\' && !esc {
        esc := true;
      } else if !esc && c == '\"' {
        p, overrun := SkipGap(a, p, t);
        if overrun {
          return;
        }
      } else {
        var d := if esc then Unescape(c) else c;
        Extends(done, d, Decode(t, p, false));
        a[q] := d;
        q := q + 1;
        esc := false;
        done := done + [d];
      }
      p := p + 1;
    }
    DecodeEnds(t, esc);
    assert done + "" == done;
  }

  lemma DecodeEnds(t: string, esc: bool)
    ensures Decode(t, |t|, esc) == Text("")
  {
  }

  lemma Extends(done: string, c: char, rest: Decoded)
    ensures Prefixed(done, Prepend(c, rest)) == Prefixed(done + [c], rest)
  {
    if rest.Text? {
      Append(done, [c], rest.s);
    }
  }

  /** The loop between two segments of `make_string`. */
  method SkipGap(a: array<char>, start: nat, ghost t: string) returns (p: nat, overrun: bool)
    requires 1 <= start < a.Length - 2 && |t| == a.Length - 3 && a[a.Length - 2] == NUL
    requires forall k :: start <= k < a.Length - 2 ==> a[k] == t[k - 1]
    ensures overrun <==> NextSegment(t, start - 1).Nowhere?
    ensures !overrun ==> start < p < a.Length - 2 && NextSegment(t, start - 1) == At(p - 1)
  {
    var end := a.Length - 2;
    p, overrun := start + 1, false;
    while p < end && a[p] != '\"'
      invariant start < p <= end == a.Length - 2
      invariant NextSegment(t, p - 2) == NextSegment(t, start - 1)
      decreases end - p
    {
      if a[p] == '#' {
        p := SkipLine(a, p, t);
      } else if a[p] == '/' {
        p := p + 1;
        if p == end {
          return p, true;
        }
        if a[p] == '/' {
          p := SkipLine(a, p, t);
        } else {
          p := SkipComment(a, p, t);
        }
      }
      if p == end {
        return p, true;
      }
      p := p + 1;
    }
    overrun := p == end;
  }

  /** To the end of the line, or to the terminator. */
  method SkipLine(a: array<char>, start: nat, ghost t: string) returns (p: nat)
    requires 1 <= start < a.Length - 2 && |t| == a.Length - 3
    requires forall k :: start <= k < a.Length - 2 ==> a[k] == t[k - 1]
    ensures start < p <= a.Length - 2
    ensures LineEnd(t, start - 1) == if p < a.Length - 2 then At(p - 1) else Nowhere
  {
    var end := a.Length - 2;
    p := start + 1;
    while p < end && a[p] != '\n'
      invariant start < p <= end == a.Length - 2 && LineEnd(t, p - 2) == LineEnd(t, start - 1)
      decreases end - p
    {
      p := p + 1;
    }
  }

  /** To the slash that ends a block comment, or to the terminator. */
  method SkipComment(a: array<char>, start: nat, ghost t: string) returns (p: nat)
    requires 1 <= start < a.Length - 2 && |t| == a.Length - 3 && a[a.Length - 2] == NUL
    requires forall k :: start <= k < a.Length - 2 ==> a[k] == t[k - 1]
    ensures start < p <= a.Length - 2
    ensures CommentEnd(t, start - 1) == if p < a.Length - 2 then At(p - 1) else Nowhere
  {
    var end := a.Length - 2;
    p := start + 1;
    while p < end && (a[p] != '*' || a[p + 1] != '/')
      invariant start < p <= end == a.Length - 2 && CommentEnd(t, p - 2) == CommentEnd(t, start - 1)
      decreases end - p
    {
      p := p + 1;
    }
    if p < end {
      p := p + 1;
    }
  }

  /** Reading back a written string, in place, yields that string. */
  method ReadBack(s: string) returns (a: array<char>, r: nat)
    requires NulFree(s)
    ensures fresh(a)
    ensures r + |s| < a.Length && a[r..r + |s|] == s && a[r + |s|] == NUL
  {
    var text := WriteString(s);
    EscapeIsSegment(s);
    a := new char[|text| + 1];
    forall k | 0 <= k < a.Length {
      a[k] := if k < |text| then text[k] else NUL;
    }
    assert a[1..a.Length - 2] == Escape(s);
    DecodeEscaped(Escape(s), 0, s);
    forall k | 0 <= k < a.Length - 1
      ensures a[k] != NUL
    {
      assert a[k] == text[k];
    }
    var overrun;
    r, overrun := MakeString(a);
  }
}

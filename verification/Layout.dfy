/**
  Manifests as trees of text segments: what a YAML parser that reports where its scalars stand has
  read.  Plain scalars stand in the text as they are; quoted ones do not; everything else is raw text.
*/
module Layouts {
  import opened Wrappers
  import opened Lines
  import opened Patch
  import opened Reparse

  datatype Layout =
    | Raw(text: string)
    | Plain(value: string)
    | Quoted(text: string, value: string)
    | Group(kind: Kind, parts: seq<Layout>)

  function Render(l: Layout): string
    decreases l, 1
  {
    match l
    case Raw(text) => text
    case Plain(value) => value
    case Quoted(text, _) => text
    case Group(_, parts) => RenderAll(parts)
  }

  function RenderAll(parts: seq<Layout>): string
    decreases parts, 0
  {
    if parts == [] then "" else Render(parts[0]) + RenderAll(parts[1..])
  }

  // A quoted scalar is at least as long as its value and does not begin with it.
  predicate WellFormed(l: Layout)
    decreases l, 1
  {
    match l
    case Quoted(text, value) => |value| <= |text| && !(value <= text)
    case Group(kind, parts) => !kind.ScalarNode? && WellFormedAll(parts)
    case _ => true
  }

  predicate WellFormedAll(parts: seq<Layout>)
    decreases parts, 0
  {
    parts == [] || (WellFormed(parts[0]) && WellFormedAll(parts[1..]))
  }

  function Newlines(text: string): nat {
    if text == "" then 0
    else Newlines(text[..|text| - 1]) + if text[|text| - 1] == '\n' then 1 else 0
  }

  // Bytes since the last newline.
  function Tail(text: string): (n: nat)
    ensures n <= |text|
  {
    if text == "" || text[|text| - 1] == '\n' then 0 else 1 + Tail(text[..|text| - 1])
  }

  // The tree the parser reports, each node at the position where its text starts.
  function Read(l: Layout, prefix: string): Node
    requires !l.Raw?
    decreases l, 1
  {
    var line, column := Newlines(prefix) + 1, Tail(prefix) + 1;
    match l
    case Plain(value) => Node(ScalarNode, value, [], line, column)
    case Quoted(_, value) => Node(ScalarNode, value, [], line, column)
    case Group(kind, parts) => Node(kind, "", ReadAll(parts, prefix), line, column)
  }

  function ReadAll(parts: seq<Layout>, prefix: string): seq<Node>
    decreases parts, 0
  {
    if parts == [] then []
    else
      (if parts[0].Raw? then [] else [Read(parts[0], prefix)]) + ReadAll(parts[1..], prefix + Render(parts[0]))
  }

  // The layout with the plain scalar `before` at offset o rewritten; k is the offset of the layout.
  function Replace(l: Layout, k: nat, o: nat, before: string, after: string): Layout
    decreases l, 1
  {
    match l
    case Plain(value) => if k == o && value == before then Plain(after) else l
    case Group(kind, parts) => Group(kind, ReplaceAll(parts, k, o, before, after))
    case _ => l
  }

  function ReplaceAll(parts: seq<Layout>, k: nat, o: nat, before: string, after: string): seq<Layout>
    decreases parts, 0
  {
    if parts == [] then []
    else [Replace(parts[0], k, o, before, after)] + ReplaceAll(parts[1..], k + |Render(parts[0])|, o, before, after)
  }

  predicate Has(l: Layout, k: nat, o: nat, before: string)
    decreases l, 1
  {
    match l
    case Plain(value) => k == o && value == before
    case Group(_, parts) => HasAll(parts, k, o, before)
    case _ => false
  }

  predicate HasAll(parts: seq<Layout>, k: nat, o: nat, before: string)
    decreases parts, 0
  {
    parts != [] && (Has(parts[0], k, o, before) || HasAll(parts[1..], k + |Render(parts[0])|, o, before))
  }

  // Text t at offset k, rewritten at offset o: either nothing to rewrite, or one splice.
  ghost predicate Rewritten(t: string, t': string, has: bool, k: nat, o: nat, before: string, after: string) {
    if !has then t' == t
    else
      && k <= o && o - k + |before| <= |t|
      && t[o - k..o - k + |before|] == before
      && t' == Splice(t, o - k, before, after)
  }

  lemma SpliceLeft(t: string, u: string, i: nat, before: string, after: string)
    requires i + |before| <= |t| && t[i..i + |before|] == before
    ensures (t + u)[i..i + |before|] == before && Splice(t + u, i, before, after) == Splice(t, i, before, after) + u
  {
    assert (t + u)[..i] == t[..i];
    assert (t + u)[i + |before|..] == t[i + |before|..] + u;
  }

  lemma SpliceRight(t: string, u: string, i: nat, before: string, after: string)
    requires i + |before| <= |u| && u[i..i + |before|] == before
    ensures (t + u)[|t| + i..|t| + i + |before|] == before
      && Splice(t + u, |t| + i, before, after) == t + Splice(u, i, before, after)
  {
    assert (t + u)[..|t| + i] == t + u[..i];
    assert (t + u)[|t| + i + |before|..] == u[i + |before|..];
  }

  lemma RewrittenBoth(
    t: string, t': string, hasT: bool, u: string, u': string, hasU: bool, k: nat, o: nat, before: string,
    after: string)
    requires before != ""
    requires Rewritten(t, t', hasT, k, o, before, after)
    requires Rewritten(u, u', hasU, k + |t|, o, before, after)
    ensures Rewritten(t + u, t' + u', hasT || hasU, k, o, before, after)
  {
    if hasT {
      SpliceLeft(t, u, o - k, before, after);
    } else if hasU {
      SpliceRight(t, u, o - k - |t|, before, after);
    }
  }

  lemma {:induction false} RenderCons(first: Layout, rest: seq<Layout>)
    ensures RenderAll([first] + rest) == Render(first) + RenderAll(rest)
  {
    assert ([first] + rest)[1..] == rest;
  }

  // Rewriting the tree and rendering it is splicing the rendered text.
  lemma {:induction false} RenderOfReplace(l: Layout, k: nat, o: nat, before: string, after: string)
    requires before != ""
    ensures Rewritten(Render(l), Render(Replace(l, k, o, before, after)), Has(l, k, o, before), k, o, before, after)
    decreases l, 1
  {
    match l
    case Group(_, parts) => RenderOfReplaceAll(parts, k, o, before, after);
    case Plain(value) => assert value[0..] == value;
    case _ =>
  }

  lemma {:induction false} RenderOfReplaceAll(parts: seq<Layout>, k: nat, o: nat, before: string, after: string)
    requires before != ""
    ensures Rewritten(RenderAll(parts), RenderAll(ReplaceAll(parts, k, o, before, after)), HasAll(parts, k, o, before),
      k, o, before, after)
    decreases parts, 0
  {
    if parts != [] {
      var t, u := Render(parts[0]), RenderAll(parts[1..]);
      var first := Replace(parts[0], k, o, before, after);
      var rest := ReplaceAll(parts[1..], k + |t|, o, before, after);
      var hasFirst, hasRest := Has(parts[0], k, o, before), HasAll(parts[1..], k + |t|, o, before);
      assert Rewritten(t, Render(first), hasFirst, k, o, before, after) by {
        RenderOfReplace(parts[0], k, o, before, after);
      }
      assert Rewritten(u, RenderAll(rest), hasRest, k + |t|, o, before, after) by {
        RenderOfReplaceAll(parts[1..], k + |t|, o, before, after);
      }
      RewrittenBoth(t, Render(first), hasFirst, u, RenderAll(rest), hasRest, k, o, before, after);
      RenderCons(first, rest);
    }
  }

  lemma {:induction false} PositionsAfterLine(first: string, text: string)
    requires FullLine(first)
    ensures Newlines(first + text) == 1 + Newlines(text)
    ensures Tail(first + text) == Tail(text)
  {
    if text == "" {
      assert first + text == first;
      NoNewlinePositions(first[..|first| - 1]);
    } else {
      PositionsAfterLine(first, text[..|text| - 1]);
      assert (first + text)[..|first + text| - 1] == first + text[..|text| - 1];
    }
  }

  lemma {:induction false} NoNewlinePositions(text: string)
    requires NoNewline(text)
    ensures Newlines(text) == 0 && Tail(text) == |text|
  {
    if text != "" {
      NoNewlinePositions(text[..|text| - 1]);
      assert text[|text| - 1] in text;
    }
  }

  lemma LineStartAfterLine(first: string, c: string, n: nat)
    requires FullLine(first) && LineStart(c, n).Some?
    ensures LineStart(first + c, n + 1) == Some(|first| + LineStart(c, n).value)
  {
    FullLineFirst(first, c);
    assert (first + c)[..|first|] == first && (first + c)[|first|..] == c;
  }

  // A reported position leads back to the offset it was taken at.
  ghost predicate LeadsBack(prefix: string, rest: string) {
    LineStart(prefix + rest, Newlines(prefix)) == Some(|prefix| - Tail(prefix))
  }

  lemma {:induction false} LeadsBackAfterLine(first: string, text: string, rest: string)
    requires FullLine(first) && LeadsBack(text, rest)
    ensures LeadsBack(first + text, rest)
  {
    PositionsAfterLine(first, text);
    LeadsBackBehind(first, text, rest, Newlines(text), |text| - Tail(text));
  }

  lemma {:induction false} LeadsBackBehind(first: string, text: string, rest: string, n: nat, o: nat)
    requires FullLine(first) && LineStart(text + rest, n) == Some(o)
    ensures LineStart((first + text) + rest, n + 1) == Some(|first| + o)
  {
    LineStartAfterLine(first, text + rest, n);
    assert (first + text) + rest == first + (text + rest);
  }

  lemma {:induction false} LeadsBackOnLine(prefix: string, rest: string)
    requires NoNewline(prefix)
    ensures LeadsBack(prefix, rest)
  {
    NoNewlinePositions(prefix);
  }

  lemma {:induction false} OneLineOff(text: string) returns (first: string, others: string)
    requires !NoNewline(text)
    ensures FullLine(first) && text == first + others && |others| < |text|
  {
    var n := FirstLine(text);
    FirstLineNoNewline(text);
    first, others := text[..n], text[n..];
  }

  lemma {:induction false} PositionIsOffset(prefix: string, rest: string)
    ensures LineStart(prefix + rest, Newlines(prefix)) == Some(|prefix| - Tail(prefix))
    decreases |prefix|
  {
    if NoNewline(prefix) {
      LeadsBackOnLine(prefix, rest);
    } else {
      var first, others := OneLineOff(prefix);
      PositionIsOffset(others, rest);
      LeadsBackAfterLine(first, others, rest);
    }
  }

  lemma {:induction false} LineOfOffset(content: string, i: nat)
    requires i <= |content|
    ensures LineStart(content, Newlines(content[..i])) == Some(i - Tail(content[..i]))
  {
    var prefix, rest := content[..i], content[i..];
    assert prefix + rest == content;
    PositionIsOffset(prefix, rest);
  }

  lemma {:induction false} SamePosition(content: string, i: nat, j: nat)
    requires i <= |content| && j <= |content|
    requires Newlines(content[..i]) == Newlines(content[..j]) && Tail(content[..i]) == Tail(content[..j])
    ensures i == j
  {
    LineOfOffset(content, i);
    LineOfOffset(content, j);
  }

  // Offset o of the content reads `before`, and (line, column) is its position, counted from 1.
  ghost predicate At(content: string, o: nat, before: string, line: int, column: int) {
    && o + |before| <= |content|
    && content[o..o + |before|] == before
    && line == Newlines(content[..o]) + 1
    && column == Tail(content[..o]) + 1
  }

  // A quoted scalar never stands where the content reads its value.
  lemma QuotedElsewhere(content: string, prefix: string, text: string, rest: string, value: string)
    requires content == prefix + text + rest && |value| <= |text| && !(value <= text)
    ensures |prefix| + |value| <= |content| && content[|prefix|..|prefix| + |value|] != value
  {
    assert content[|prefix|..|prefix| + |value|] == text[..|value|];
  }

  lemma {:induction false} OnlyAt(
    content: string, prefix: string, rest: string, o: nat, before: string, line: int, column: int)
    requires content == prefix + rest && At(content, o, before, line, column)
    ensures Newlines(prefix) + 1 == line && Tail(prefix) + 1 == column <==> |prefix| == o
  {
    assert content[..|prefix|] == prefix;
    if Newlines(prefix) + 1 == line && Tail(prefix) + 1 == column { SamePosition(content, |prefix|, o); }
  }

  // Rewriting the tree changes the parsed tree in that one scalar only.
  lemma {:induction false} ReadOfReplace(
    l: Layout, prefix: string, prefix': string, rest: string, content: string, o: nat, before: string, after: string,
    line: int, column: int)
    requires !l.Raw? && WellFormed(l) && before != ""
    requires content == prefix + Render(l) + rest && At(content, o, before, line, column)
    ensures !Replace(l, |prefix|, o, before, after).Raw?
    ensures Edited(Read(l, prefix), Read(Replace(l, |prefix|, o, before, after), prefix'), line, column, before, after)
    decreases l, 1
  {
    assert content == prefix + (Render(l) + rest);
    OnlyAt(content, prefix, Render(l) + rest, o, before, line, column);
    match l
    case Quoted(text, value) => QuotedElsewhere(content, prefix, text, rest, value);
    case Group(_, parts) => ReadOfReplaceAll(parts, prefix, prefix', rest, content, o, before, after, line, column);
    case _ =>
  }

  lemma EditedCons(
    n: seq<Node>, n': seq<Node>, ns: seq<Node>, ns': seq<Node>, line: int, column: int, before: string, after: string)
    requires EditedAll(n, n', line, column, before, after) && EditedAll(ns, ns', line, column, before, after)
    ensures EditedAll(n + ns, n' + ns', line, column, before, after)
  {
  }

  lemma {:induction false} ReadOfReplaceAll(
    parts: seq<Layout>, prefix: string, prefix': string, rest: string, content: string, o: nat, before: string,
    after: string, line: int, column: int)
    requires WellFormedAll(parts) && before != ""
    requires content == prefix + RenderAll(parts) + rest && At(content, o, before, line, column)
    ensures EditedAll(ReadAll(parts, prefix), ReadAll(ReplaceAll(parts, |prefix|, o, before, after), prefix'), line,
      column, before, after)
    decreases parts, 0
  {
    if parts != [] {
      var t, u := Render(parts[0]), RenderAll(parts[1..]);
      var first := Replace(parts[0], |prefix|, o, before, after);
      var others := ReplaceAll(parts[1..], |prefix| + |t|, o, before, after);
      assert content == prefix + t + (u + rest) && content == (prefix + t) + u + rest;
      ReadOfReplaceAll(parts[1..], prefix + t, prefix' + Render(first), rest, content, o, before, after, line, column);
      ReadCons(parts[0], parts[1..], prefix);
      ReadCons(first, others, prefix');
      assert parts == [parts[0]] + parts[1..];
      if !parts[0].Raw? {
        ReadOfReplace(parts[0], prefix, prefix', u + rest, content, o, before, after, line, column);
        EditedCons([Read(parts[0], prefix)], [Read(first, prefix')], ReadAll(parts[1..], prefix + t),
          ReadAll(others, prefix' + Render(first)), line, column, before, after);
      }
    }
  }

  lemma {:induction false} ReadCons(first: Layout, rest: seq<Layout>, prefix: string)
    ensures ReadAll([first] + rest, prefix) ==
      (if first.Raw? then [] else [Read(first, prefix)]) + ReadAll(rest, prefix + Render(first))
  {
    assert ([first] + rest)[1..] == rest;
  }
}

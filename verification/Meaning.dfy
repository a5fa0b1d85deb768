/** The patch preserves the manifest's meaning: the edited text parses to the same tree with one new scalar. */
module Meaning {
  import opened Wrappers
  import opened Proposals
  import opened Patch
  import opened Reparse
  import opened Layouts
  import opened Attempts
  import opened Runs

  ghost predicate InTree(m: Node, n: Node)
    decreases n
  {
    m == n || exists i :: 0 <= i < |n.content| && InTree(m, n.content[i])
  }

  ghost predicate InForest(m: Node, ns: seq<Node>) {
    exists i :: 0 <= i < |ns| && InTree(m, ns[i])
  }

  lemma {:induction false} ValueFromInTree(ns: seq<Node>, key: string, index: nat)
    ensures var v := ValueFrom(ns, key, index); v.Some? ==> exists i :: 0 <= i < |ns| && v.value == ns[i]
    decreases |ns| - index
  {
    if index + 1 < |ns| && Scalar(Some(ns[index])) != key { ValueFromInTree(ns, key, index + 2); }
  }

  lemma {:induction false} MappingValueInTree(m: Node, n: Option<Node>, key: string)
    requires MappingValue(n, key).Some? && InTree(m, MappingValue(n, key).value)
    ensures n.Some? && InTree(m, n.value)
  {
    ValueFromInTree(n.value.content, key, 0);
  }

  lemma {:induction false} MemoryInTree(m: Node, n: Node)
    requires MemoryOf(n) == Some(m)
    ensures InTree(m, n)
  {
    var limits := MappingValue(MappingValue(Some(n), "resources"), "limits");
    MappingValueInTree(m, limits, "memory");
    MappingValueInTree(m, MappingValue(Some(n), "resources"), "limits");
    MappingValueInTree(m, Some(n), "resources");
  }

  lemma {:induction false} ContainersInTree(m: Node, n: Node)
    requires Containers(n).Some? && InTree(m, Containers(n).value)
    ensures InTree(m, n)
  {
    var spec := MappingValue(Some(n), "spec");
    var template := MappingValue(spec, "template");
    MappingValueInTree(m, MappingValue(template, "spec"), "containers");
    MappingValueInTree(m, template, "spec");
    MappingValueInTree(m, spec, "template");
    MappingValueInTree(m, Some(n), "spec");
  }

  lemma {:induction false} InContainersInForest(m: Node, ns: seq<Node>)
    requires m in InContainers(ns)
    ensures InForest(m, ns)
  {
    var last := |ns| - 1;
    if m in InContainers(ns[..last]) {
      InContainersInForest(m, ns[..last]);
      var i :| 0 <= i < last && InTree(m, ns[..last][i]);
      assert InTree(m, ns[i]);
    } else {
      MemoryInTree(m, ns[last]);
    }
  }

  lemma {:induction false} InDocumentsInForest(m: Node, ns: seq<Node>)
    requires m in InDocuments(ns)
    ensures InForest(m, ns)
  {
    var last := |ns| - 1;
    if m in InDocuments(ns[..last]) {
      InDocumentsInForest(m, ns[..last]);
      var i :| 0 <= i < last && InTree(m, ns[..last][i]);
      assert InTree(m, ns[i]);
    } else {
      var root := DocumentRoot(ns[last]);
      InContainersInForest(m, Containers(root).value.content);
      assert InTree(m, Containers(root).value);
      ContainersInTree(m, root);
      assert InTree(m, ns[last]);
    }
  }

  lemma HelmMemoryInForest(m: Node, ns: seq<Node>)
    requires HelmMemory(ns) == Some(m)
    ensures InForest(m, ns)
  {
    var root := Some(DocumentRoot(ns[0]));
    var demo := MappingValue(root, "demo");
    var payments := MappingValue(demo, "payments");
    var resources := MappingValue(payments, "resources");
    MappingValueInTree(m, MappingValue(resources, "limits"), "memory");
    MappingValueInTree(m, resources, "limits");
    MappingValueInTree(m, payments, "resources");
    MappingValueInTree(m, demo, "payments");
    MappingValueInTree(m, root, "demo");
    assert InTree(m, ns[0]);
  }

  lemma CandidateInForest(m: Node, ns: seq<Node>, before: string)
    requires m in Candidates(ns, before)
    ensures InForest(m, ns) && m.kind.ScalarNode?
  {
    if InDocuments(ns) == [] { HelmMemoryInForest(m, ns); } else { InDocumentsInForest(m, ns); }
  }

  // A reported scalar whose value the text reads at its position is a plain scalar of the layout.
  lemma {:induction false} ScalarIsPlain(
    m: Node, l: Layout, prefix: string, rest: string, content: string, o: nat, before: string)
    requires !l.Raw? && WellFormed(l) && InTree(m, Read(l, prefix)) && m.kind.ScalarNode? && m.value == before
    requires content == prefix + Render(l) + rest && At(content, o, before, m.line, m.column)
    ensures Has(l, |prefix|, o, before)
    decreases l, 1
  {
    match l
    case Plain(value) =>
      assert content == prefix + (Render(l) + rest);
      OnlyAt(content, prefix, Render(l) + rest, o, before, m.line, m.column);
    case Quoted(text, value) =>
      assert content == prefix + (Render(l) + rest);
      OnlyAt(content, prefix, Render(l) + rest, o, before, m.line, m.column);
      QuotedElsewhere(content, prefix, text, rest, value);
    case Group(_, parts) =>
      assert InForest(m, ReadAll(parts, prefix));
      ScalarIsPlainAll(m, parts, prefix, rest, content, o, before);
  }

  lemma {:induction false} ScalarIsPlainAll(
    m: Node, parts: seq<Layout>, prefix: string, rest: string, content: string, o: nat, before: string)
    requires WellFormedAll(parts) && InForest(m, ReadAll(parts, prefix)) && m.kind.ScalarNode? && m.value == before
    requires content == prefix + RenderAll(parts) + rest && At(content, o, before, m.line, m.column)
    ensures HasAll(parts, |prefix|, o, before)
    decreases parts, 0
  {
    var t, u := Render(parts[0]), RenderAll(parts[1..]);
    RenderAssociates(prefix, t, u, rest);
    FirstOrRest(m, parts, prefix);
    if !parts[0].Raw? && InTree(m, Read(parts[0], prefix)) {
      ScalarIsPlain(m, parts[0], prefix, u + rest, content, o, before);
    } else {
      ScalarIsPlainAll(m, parts[1..], prefix + t, rest, content, o, before);
    }
  }

  lemma {:induction false} RenderAssociates(prefix: string, t: string, u: string, rest: string)
    ensures prefix + (t + u) + rest == prefix + t + (u + rest) == (prefix + t) + u + rest
  {
  }

  // A node of a forest is in its first tree or in the rest.
  lemma {:induction false} FirstOrRest(m: Node, parts: seq<Layout>, prefix: string)
    requires InForest(m, ReadAll(parts, prefix))
    ensures parts != []
    ensures (!parts[0].Raw? && InTree(m, Read(parts[0], prefix)))
      || InForest(m, ReadAll(parts[1..], prefix + Render(parts[0])))
  {
    var here := if parts[0].Raw? then [] else [Read(parts[0], prefix)];
    var there := ReadAll(parts[1..], prefix + Render(parts[0]));
    var i :| 0 <= i < |here + there| && InTree(m, (here + there)[i]);
    if i >= |here| { assert InTree(m, there[i - |here|]); }
  }

  // The parser reads exactly the manifests of a grammar, reports their scalars where they stand, and
  // the grammar allows one plain scalar to be written for another.
  ghost predicate Faithful(parse: Parser, grammar: seq<Layout> -> bool, before: string, after: string) {
    && (forall content :: parse(content).Some? ==>
          exists parts :: grammar(parts) && content == RenderAll(parts) && parse(content).value == ReadAll(parts, ""))
    && (forall parts :: grammar(parts) ==> WellFormedAll(parts) && parse(RenderAll(parts)) == Some(ReadAll(parts, "")))
    && (forall parts, o: nat {:trigger ReplaceAll(parts, 0, o, before, after)} ::
          grammar(parts) ==> grammar(ReplaceAll(parts, 0, o, before, after)))
  }

  lemma {:induction false} PlacedAt(content: string, line: nat, column: nat, before: string, o: nat, i: nat)
    requires Place(content, line, column, before) == Some(o)
    requires i <= |content| && line == Newlines(content[..i]) && column == Tail(content[..i])
    ensures i == o && At(content, o, before, line + 1, column + 1)
  {
    LineOfOffset(content, i);
    assert o + |before| <= |content|;
  }

  // The node's position is that of offset i.
  ghost predicate StandsAt(m: Node, text: string, i: nat) {
    i <= |text| && m.line == Newlines(text[..i]) + 1 && m.column == Tail(text[..i]) + 1
  }

  lemma {:induction false} StandsFirst(l: Layout, prefix: string, rest: string)
    requires !l.Raw?
    ensures StandsAt(Read(l, prefix), prefix + Render(l) + rest, |prefix|)
  {
    assert (prefix + Render(l) + rest)[..|prefix|] == prefix;
  }

  // Every reported node stands at some offset of the text.
  lemma {:induction false} NodeHasOffset(m: Node, l: Layout, prefix: string, rest: string) returns (i: nat)
    requires !l.Raw? && InTree(m, Read(l, prefix))
    ensures StandsAt(m, prefix + Render(l) + rest, i)
    decreases l, 1
  {
    if m == Read(l, prefix) {
      i := |prefix|;
      StandsFirst(l, prefix, rest);
    } else {
      assert InForest(m, ReadAll(l.parts, prefix));
      i := NodeHasOffsetAll(m, l.parts, prefix, rest);
    }
  }

  lemma {:induction false} NodeHasOffsetAll(m: Node, parts: seq<Layout>, prefix: string, rest: string) returns (i: nat)
    requires InForest(m, ReadAll(parts, prefix))
    ensures StandsAt(m, prefix + RenderAll(parts) + rest, i)
    decreases parts, 0
  {
    var t, u := Render(parts[0]), RenderAll(parts[1..]);
    RenderAssociates(prefix, t, u, rest);
    FirstOrRest(m, parts, prefix);
    if !parts[0].Raw? && InTree(m, Read(parts[0], prefix)) {
      i := NodeHasOffset(m, parts[0], prefix, u + rest);
    } else {
      i := NodeHasOffsetAll(m, parts[1..], prefix + t, rest);
    }
  }

  lemma {:induction false} StandingIsPlaced(content: string, node: Node, before: string, o: nat, i: nat)
    requires StandsAt(node, content, i)
    requires node.line >= 1 && node.column >= 1 && Place(content, node.line - 1, node.column - 1, before) == Some(o)
    ensures At(content, o, before, node.line, node.column)
  {
    PlacedAt(content, node.line - 1, node.column - 1, before, o, i);
  }

  lemma {:induction false} CandidateIsAt(parts: seq<Layout>, content: string, node: Node, o: nat, before: string)
    requires content == RenderAll(parts) && InForest(node, ReadAll(parts, ""))
    requires node.line >= 1 && node.column >= 1 && Place(content, node.line - 1, node.column - 1, before) == Some(o)
    ensures At(content, o, before, node.line, node.column)
  {
    var i := NodeHasOffsetAll(node, parts, "", "");
    assert "" + RenderAll(parts) + "" == content;
    StandingIsPlaced(content, node, before, o, i);
  }

  // The selected candidate is a plain scalar of the layout, standing where the text was found.
  lemma {:induction false} CandidateIsPlain(parts: seq<Layout>, content: string, node: Node, o: nat, before: string)
    requires WellFormedAll(parts) && content == RenderAll(parts)
    requires InForest(node, ReadAll(parts, "")) && node.kind.ScalarNode? && node.value == before
    requires node.line >= 1 && node.column >= 1 && Place(content, node.line - 1, node.column - 1, before) == Some(o)
    ensures At(content, o, before, node.line, node.column) && HasAll(parts, 0, o, before)
  {
    CandidateIsAt(parts, content, node, o, before);
    assert content == "" + RenderAll(parts) + "";
    ScalarIsPlainAll(node, parts, "", "", content, o, before);
  }

  // Its splice is the rendering of the layout with that scalar replaced.
  lemma {:induction false} SpliceIsReplacement(
    parts: seq<Layout>, content: string, o: nat, before: string, after: string, line: int, column: int)
    requires WellFormedAll(parts) && content == RenderAll(parts) && before != ""
    requires At(content, o, before, line, column) && HasAll(parts, 0, o, before) && o + |before| <= |content|
    ensures var parts' := ReplaceAll(parts, 0, o, before, after);
      && RenderAll(parts') == Splice(content, o, before, after)
      && EditedAll(ReadAll(parts, ""), ReadAll(parts', ""), line, column, before, after)
  {
    assert RenderAll(ReplaceAll(parts, 0, o, before, after)) == Splice(content, o, before, after) by {
      RenderOfReplaceAll(parts, 0, o, before, after);
    }
    assert "" + content + "" == content;
    ReadOfReplaceAll(parts, "", "", "", content, o, before, after, line, column);
  }

  lemma ParsedFrom(
    parse: Parser, grammar: seq<Layout> -> bool, before: string, after: string, content: string)
    returns (parts: seq<Layout>)
    requires Faithful(parse, grammar, before, after) && parse(content).Some?
    ensures grammar(parts) && WellFormedAll(parts) && content == RenderAll(parts)
      && parse(content).value == ReadAll(parts, "")
  {
    parts :| grammar(parts) && content == RenderAll(parts) && parse(content).value == ReadAll(parts, "");
  }

  lemma {:induction false} ReplacedParses(
    parse: Parser, grammar: seq<Layout> -> bool, before: string, after: string, parts: seq<Layout>, o: nat)
    requires Faithful(parse, grammar, before, after) && grammar(parts)
    ensures var parts' := ReplaceAll(parts, 0, o, before, after); parse(RenderAll(parts')) == Some(ReadAll(parts', ""))
  {
    assert grammar(ReplaceAll(parts, 0, o, before, after));
  }

  lemma PatchedPlace(parse: Parser, p: Proposal, content: string) returns (node: Node, o: nat)
    requires Patched(parse, p, content).Some?
    ensures Selected(parse, p.change.before, content) == Some(node)
    ensures parse(content).Some? && node in Candidates(parse(content).value, p.change.before)
    ensures node.value == p.change.before && node.line >= 1 && node.column >= 1
    ensures Place(content, node.line - 1, node.column - 1, p.change.before) == Some(o)
      && o + |p.change.before| <= |content|
    ensures Patched(parse, p, content) == Some(Splice(content, o, p.change.before, p.change.after))
  {
    node := Selected(parse, p.change.before, content).value;
    o := Place(content, node.line - 1, node.column - 1, p.change.before).value;
  }

  // The patched file parses to the same documents with exactly the selected scalar now reading
  // `after`, wherever else `before` may occur in the text ...
  lemma PatchedFileMeansTheSame(parse: Parser, grammar: seq<Layout> -> bool, p: Proposal, content: string)
    requires Faithful(parse, grammar, p.change.before, p.change.after)
    requires Patched(parse, p, content).Some? && p.change.before != ""
    ensures var before, after := p.change.before, p.change.after;
      var node, q := Selected(parse, before, content).value, Patched(parse, p, content).value;
      parse(q).Some? && EditedAll(parse(content).value, parse(q).value, node.line, node.column, before, after)
  {
    var before, after := p.change.before, p.change.after;
    var node, o := PatchedPlace(parse, p, content);
    var parts := ParsedFrom(parse, grammar, before, after, content);
    CandidateInForest(node, ReadAll(parts, ""), before);
    CandidateIsPlain(parts, content, node, o, before);
    SpliceIsReplacement(parts, content, o, before, after, node.line, node.column);
    ReplacedParses(parse, grammar, before, after, parts, o);
  }

  // ... so patching the result again is refused: it holds one limit, and that is no longer `before`.
  lemma PatchNeverReapplies(parse: Parser, grammar: seq<Layout> -> bool, p: Proposal, content: string)
    requires Faithful(parse, grammar, p.change.before, p.change.after)
    requires p.change.before !in STRUCTURE && p.change.after !in STRUCTURE && p.change.before != ""
    requires Patched(parse, p, content).Some?
    ensures Patched(parse, p, Patched(parse, p, content).value).None?
  {
    PatchedFileMeansTheSame(parse, grammar, p, content);
    var node, q := Selected(parse, p.change.before, content).value, Patched(parse, p, content).value;
    EditedFileSelects(parse(content).value, parse(q).value, node, p.change.before, p.change.after);
  }

  function ConfigFor(parse: Parser, p: Proposal, head: string, base: string): Config {
    Config(head, base, content => Patched(parse, p, content))
  }

  // What the protocol theorems ask of the edit, the patch provides.
  lemma PatchIsSound(parse: Parser, grammar: seq<Layout> -> bool, p: Proposal, head: string, base: string)
    requires Faithful(parse, grammar, p.change.before, p.change.after) && head != base
    requires p.change.before !in STRUCTURE && p.change.after !in STRUCTURE && p.change.before != ""
    ensures Sound(ConfigFor(parse, p, head, base))
  {
    forall x | Patched(parse, p, x).Some? ensures Patched(parse, p, Patched(parse, p, x).value).None? {
      PatchNeverReapplies(parse, grammar, p, x);
    }
  }
}

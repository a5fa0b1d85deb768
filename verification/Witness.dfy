/** The assumptions can be met together: a manifest, a parser for it, and a request that passes. */
module Witness {
  import opened Wrappers
  import opened GitHub
  import opened Lines
  import opened Proposals
  import opened Patch
  import opened Reparse
  import opened Layouts
  import opened Meaning
  import opened Attempts
  import opened Runs
  import opened EndToEnd
  import Recovery

  // One mapping in braces.
  function Entry(key: string, sub: Layout): Layout {
    Group(MappingNode, [Raw("{"), Plain(key), Raw(": "), sub, Raw("}")])
  }

  // The parts of an entry from the second, third, fourth and fifth on.
  lemma {:induction false} Tails(a: Layout, b: Layout, c: Layout, d: Layout, e: Layout)
    ensures var parts := [a, b, c, d, e];
      && parts[1..] == [b, c, d, e] && [b, c, d, e][1..] == [c, d, e] && [c, d, e][1..] == [d, e] && [d, e][1..] == [e]
      && [e][1..] == []
  {
  }

  function Nest(keys: seq<string>, value: string): Layout {
    if keys == [] then Plain(value) else Entry(keys[0], Nest(keys[1..], value))
  }

  function Before(keys: seq<string>): string {
    if keys == [] then "" else "{" + (keys[0] + (": " + Before(keys[1..])))
  }

  function After(keys: seq<string>): string {
    if keys == [] then "" else After(keys[1..]) + "}"
  }

  lemma {:induction false} RenderEntry(key: string, sub: Layout)
    ensures Render(Entry(key, sub)) == "{" + (key + (": " + (Render(sub) + "}")))
  {
    Tails(Raw("{"), Plain(key), Raw(": "), sub, Raw("}"));
    assert RenderAll([Raw("}")]) == "}" + "";
    assert RenderAll([sub, Raw("}")]) == Render(sub) + RenderAll([Raw("}")]);
    assert RenderAll([Raw(": "), sub, Raw("}")]) == ": " + RenderAll([sub, Raw("}")]);
    assert RenderAll([Plain(key), Raw(": "), sub, Raw("}")]) == key + RenderAll([Raw(": "), sub, Raw("}")]);
    assert RenderAll([Raw("{"), Plain(key), Raw(": "), sub, Raw("}")])
      == "{" + RenderAll([Plain(key), Raw(": "), sub, Raw("}")]);
  }

  lemma {:induction false} RenderNest(keys: seq<string>, value: string)
    ensures Render(Nest(keys, value)) == Before(keys) + (value + After(keys))
  {
    if keys != [] {
      RenderEntry(keys[0], Nest(keys[1..], value));
      RenderNest(keys[1..], value);
      var b, a := Before(keys[1..]), After(keys[1..]);
      assert "{" + (keys[0] + (": " + ((b + (value + a)) + "}")))
        == ("{" + (keys[0] + (": " + b))) + (value + (a + "}"));
    }
  }

  lemma {:induction false} ReadEntry(key: string, sub: Layout, prefix: string)
    requires !sub.Raw?
    ensures var n := Read(Entry(key, sub), prefix); var inner := ((prefix + "{") + key) + ": ";
      && n.kind.MappingNode? && |n.content| == 2
      && n.content[0].kind.ScalarNode? && n.content[0].value == key && n.content[1] == Read(sub, inner)
  {
    var parts := [Raw("{"), Plain(key), Raw(": "), sub, Raw("}")];
    var p1 := prefix + "{";
    var p2 := p1 + key;
    var p3 := p2 + ": ";
    assert parts[1..] == [Plain(key), Raw(": "), sub, Raw("}")];
    assert parts[1..][1..] == [Raw(": "), sub, Raw("}")];
    assert parts[1..][1..][1..] == [sub, Raw("}")];
    assert parts[1..][1..][1..][1..] == [Raw("}")];
    assert ReadAll([Raw("}")], p3 + Render(sub)) == [];
    assert ReadAll(parts, prefix) == ReadAll(parts[1..], p1);
    assert ReadAll(parts[1..], p1) == [Read(Plain(key), p1)] + ReadAll(parts[1..][1..], p2);
    assert ReadAll(parts[1..][1..], p2) == ReadAll(parts[1..][1..][1..], p3);
    assert ReadAll(parts[1..][1..][1..], p3) == [Read(sub, p3)] + [];
  }

  // The value under the first key of a nest is the nest under it.
  lemma {:induction false} ValueInNest(keys: seq<string>, value: string, prefix: string)
    requires keys != [] && keys[0] != ""
    ensures MappingValue(Some(Read(Nest(keys, value), prefix)), keys[0])
      == Some(Read(Nest(keys[1..], value), ((prefix + "{") + keys[0]) + ": "))
    ensures forall key :: key != keys[0] ==> MappingValue(Some(Read(Nest(keys, value), prefix)), key).None?
  {
    ReadEntry(keys[0], Nest(keys[1..], value), prefix);
    var content := Read(Nest(keys, value), prefix).content;
    forall key | key != keys[0] ensures ValueFrom(content, key, 0).None? {
      assert ValueFrom(content, key, 0) == ValueFrom(content, key, 2);
    }
  }

  lemma {:induction false} NestIsWellFormed(keys: seq<string>, value: string)
    ensures WellFormed(Nest(keys, value))
  {
    if keys != [] {
      NestIsWellFormed(keys[1..], value);
      var sub := Nest(keys[1..], value);
      Tails(Raw("{"), Plain(keys[0]), Raw(": "), sub, Raw("}"));
      assert WellFormedAll([Raw("}")]);
      assert WellFormedAll([sub, Raw("}")]);
      assert WellFormedAll([Raw(": "), sub, Raw("}")]);
      assert WellFormedAll([Plain(keys[0]), Raw(": "), sub, Raw("}")]);
      assert WellFormedAll([Raw("{"), Plain(keys[0]), Raw(": "), sub, Raw("}")]);
    }
  }

  lemma {:induction false} ReplaceInEntry(
    key: string, sub: Layout, k: nat, o: nat, before: string, after: string) returns (inner: nat)
    requires key != before
    ensures Replace(Entry(key, sub), k, o, before, after) == Entry(key, Replace(sub, inner, o, before, after))
  {
    inner := k + 1 + |key| + 2;
    Tails(Raw("{"), Plain(key), Raw(": "), sub, Raw("}"));
    var sub' := Replace(sub, inner, o, before, after);
    assert ReplaceAll([Raw("}")], inner + |Render(sub)|, o, before, after) == [Raw("}")];
    assert ReplaceAll([sub, Raw("}")], inner, o, before, after) == [sub', Raw("}")];
    assert ReplaceAll([Raw(": "), sub, Raw("}")], k + 1 + |key|, o, before, after) == [Raw(": "), sub', Raw("}")];
    assert ReplaceAll([Plain(key), Raw(": "), sub, Raw("}")], k + 1, o, before, after)
      == [Plain(key), Raw(": "), sub', Raw("}")];
    assert ReplaceAll([Raw("{"), Plain(key), Raw(": "), sub, Raw("}")], k, o, before, after)
      == [Raw("{"), Plain(key), Raw(": "), sub', Raw("}")];
  }

  lemma {:induction false} ReplaceInNest(
    keys: seq<string>, value: string, k: nat, o: nat, before: string, after: string)
    requires before !in keys
    ensures var l := Replace(Nest(keys, value), k, o, before, after);
      l == Nest(keys, value) || (value == before && l == Nest(keys, after))
  {
    if keys != [] {
      assert keys[0] in keys && forall key :: key in keys[1..] ==> key in keys;
      var inner := ReplaceInEntry(keys[0], Nest(keys[1..], value), k, o, before, after);
      ReplaceInNest(keys[1..], value, inner, o, before, after);
    }
  }

  // --- Helm values that hold one limit

  const KEYS := ["demo", "payments", "resources", "limits", "memory"]

  // The file ends in this many blanks.
  function Blanks(pad: nat): (text: string)
    ensures |text| == pad && NoNewline(text)
  {
    seq(pad, i => ' ')
  }

  function Manifest(value: string, pad: nat): seq<Layout> { [Nest(KEYS, value), Raw(Blanks(pad))] }

  function Text(value: string, pad: nat): string { Before(KEYS) + (value + (After(KEYS) + Blanks(pad))) }

  lemma {:induction false} RenderManifest(value: string, pad: nat)
    ensures RenderAll(Manifest(value, pad)) == Text(value, pad)
  {
    RenderNest(KEYS, value);
    assert Manifest(value, pad)[1..] == [Raw(Blanks(pad))] && [Raw(Blanks(pad))][1..] == [];
    assert RenderAll([Raw(Blanks(pad))]) == Blanks(pad) + "";
    assert RenderAll(Manifest(value, pad)) == Render(Nest(KEYS, value)) + RenderAll([Raw(Blanks(pad))]);
    assert (Before(KEYS) + (value + After(KEYS))) + Blanks(pad) == Text(value, pad);
  }

  function ParserFor(before: string, after: string, pad: nat): Parser {
    content =>
      if content == Text(before, pad) then Some(ReadAll(Manifest(before, pad), ""))
      else if content == Text(after, pad) then Some(ReadAll(Manifest(after, pad), ""))
      else None
  }

  function GrammarFor(before: string, after: string, pad: nat): seq<Layout> -> bool {
    parts => parts == Manifest(before, pad) || parts == Manifest(after, pad)
  }

  lemma {:induction false} TextIsInjective(value: string, value': string, pad: nat)
    requires Text(value, pad) == Text(value', pad)
    ensures value == value'
  {
    var n := |Before(KEYS)|;
    assert |value| == |value'|;
    assert Text(value, pad)[n..n + |value|] == value && Text(value', pad)[n..n + |value'|] == value';
  }

  lemma {:induction false} KeysAreStructure(value: string)
    requires value !in STRUCTURE
    ensures value !in KEYS
  {
    forall i | 0 <= i < |KEYS| ensures KEYS[i] in STRUCTURE {
      assert KEYS[i] == "demo" || KEYS[i] == "payments" || KEYS[i] == "resources" || KEYS[i] == "limits"
        || KEYS[i] == "memory";
    }
  }

  lemma {:induction false} ManifestIsClosed(value: string, o: nat, before: string, after: string, pad: nat)
    requires before !in STRUCTURE && (value == before || value == after)
    ensures GrammarFor(before, after, pad)(ReplaceAll(Manifest(value, pad), 0, o, before, after))
  {
    KeysAreStructure(before);
    ReplaceInNest(KEYS, value, 0, o, before, after);
    var l, k := Replace(Nest(KEYS, value), 0, o, before, after), |Render(Nest(KEYS, value))|;
    assert Manifest(value, pad)[1..] == [Raw(Blanks(pad))] && [Raw(Blanks(pad))][1..] == [];
    assert ReplaceAll([Raw(Blanks(pad))], k, o, before, after) == [Raw(Blanks(pad))];
    assert ReplaceAll(Manifest(value, pad), 0, o, before, after) == [l] + [Raw(Blanks(pad))];
    assert [l] + [Raw(Blanks(pad))] == [l, Raw(Blanks(pad))];
  }

  lemma {:induction false} ManifestIsWellFormed(value: string, pad: nat)
    ensures WellFormedAll(Manifest(value, pad))
  {
    NestIsWellFormed(KEYS, value);
    var last := [Raw(Blanks(pad))];
    assert last[1..] == [] && WellFormedAll([]);
    assert WellFormed(last[0]) && WellFormedAll(last);
    assert Manifest(value, pad)[1..] == last;
  }

  // The parser is faithful to its grammar.
  lemma {:induction false} ParserIsFaithful(before: string, after: string, pad: nat)
    requires before !in STRUCTURE && before != after
    ensures Faithful(ParserFor(before, after, pad), GrammarFor(before, after, pad), before, after)
  {
    var parse, grammar := ParserFor(before, after, pad), GrammarFor(before, after, pad);
    RenderManifest(before, pad);
    RenderManifest(after, pad);
    if Text(before, pad) == Text(after, pad) { TextIsInjective(before, after, pad); }
    ManifestIsWellFormed(before, pad);
    ManifestIsWellFormed(after, pad);
    forall content | parse(content).Some?
      ensures exists parts ::
        grammar(parts) && content == RenderAll(parts) && parse(content).value == ReadAll(parts, "")
    {
      var parts := if content == Text(before, pad) then Manifest(before, pad) else Manifest(after, pad);
      assert grammar(parts) && content == RenderAll(parts);
    }
    forall parts, o: nat {:trigger ReplaceAll(parts, 0, o, before, after)} | grammar(parts)
      ensures grammar(ReplaceAll(parts, 0, o, before, after))
    {
      ManifestIsClosed(if parts == Manifest(before, pad) then before else after, o, before, after, pad);
    }
  }

  // --- and the patch applies

  // What is found by following the keys from a node.
  function Down(n: Option<Node>, keys: seq<string>): Option<Node>
    decreases |keys|
  {
    if keys == [] then n else Down(MappingValue(n, keys[0]), keys[1..])
  }

  lemma {:induction false} BeforeStep(prefix: string, keys: seq<string>)
    requires keys != []
    ensures (((prefix + "{") + keys[0]) + ": ") + Before(keys[1..]) == prefix + Before(keys)
  {
  }

  lemma {:induction false} DownANest(keys: seq<string>, value: string, prefix: string)
    requires "" !in keys
    ensures Down(Some(Read(Nest(keys, value), prefix)), keys) == Some(Read(Plain(value), prefix + Before(keys)))
    decreases |keys|
  {
    if keys == [] {
      assert prefix + "" == prefix;
    } else {
      assert keys[0] in keys && forall key :: key in keys[1..] ==> key in keys;
      var next := ((prefix + "{") + keys[0]) + ": ";
      ValueInNest(keys, value, prefix);
      DownANest(keys[1..], value, next);
      BeforeStep(prefix, keys);
    }
  }

  lemma {:induction false} DownFive(n: Option<Node>)
    ensures Down(n, KEYS) ==
      MappingValue(MappingValue(MappingValue(MappingValue(MappingValue(n, "demo"), "payments"), "resources"),
        "limits"), "memory")
  {
    assert KEYS[1..] == ["payments", "resources", "limits", "memory"];
    assert KEYS[1..][1..] == ["resources", "limits", "memory"];
    assert KEYS[1..][1..][1..] == ["limits", "memory"];
    assert KEYS[1..][1..][1..][1..] == ["memory"];
    assert KEYS[1..][1..][1..][1..][1..] == [];
  }

  lemma {:induction false} ManifestHasOneRoot(value: string, pad: nat)
    ensures ReadAll(Manifest(value, pad), "") == [Read(Nest(KEYS, value), "")]
    ensures DocumentRoot(Read(Nest(KEYS, value), "")) == Read(Nest(KEYS, value), "")
    ensures !IsTargetDocument(Read(Nest(KEYS, value), ""))
  {
    assert Manifest(value, pad)[1..] == [Raw(Blanks(pad))] && [Raw(Blanks(pad))][1..] == [];
    assert ReadAll([Raw(Blanks(pad))], "" + Render(Nest(KEYS, value))) == [];
    assert ReadAll(Manifest(value, pad), "") == [Read(Nest(KEYS, value), "")] + [];
    ValueInNest(KEYS, value, "");
    ReadEntry(KEYS[0], Nest(KEYS[1..], value), "");
  }

  lemma {:induction false} OneCandidate(value: string, pad: nat)
    ensures Candidates(ReadAll(Manifest(value, pad), ""), value) == [Read(Plain(value), Before(KEYS))]
  {
    var root := Read(Nest(KEYS, value), "");
    ManifestHasOneRoot(value, pad);
    assert [root][..0] == [];
    assert InDocuments([root]) == [];
    assert "" !in KEYS;
    DownANest(KEYS, value, "");
    DownFive(Some(root));
    assert "" + Before(KEYS) == Before(KEYS);
  }

  function Length(keys: seq<string>): nat { if keys == [] then 0 else 4 + |keys[0]| + Length(keys[1..]) }

  lemma {:induction false} FrameOf(keys: seq<string>)
    requires forall key :: key in keys ==> NoNewline(key)
    ensures NoNewline(Before(keys)) && NoNewline(After(keys)) && |Before(keys)| + |After(keys)| == Length(keys)
  {
    if keys != [] {
      assert keys[0] in keys && forall key :: key in keys[1..] ==> key in keys;
      FrameOf(keys[1..]);
    }
  }

  lemma {:induction false} LengthOfKeys()
    ensures Length(KEYS) == 53
  {
    assert KEYS[1..] == ["payments", "resources", "limits", "memory"];
    assert KEYS[1..][1..] == ["resources", "limits", "memory"];
    assert KEYS[1..][1..][1..] == ["limits", "memory"];
    assert KEYS[1..][1..][1..][1..] == ["memory"];
    assert KEYS[1..][1..][1..][1..][1..] == [];
  }

  lemma {:induction false} FrameHasNoNewline()
    ensures NoNewline(Before(KEYS)) && NoNewline(After(KEYS)) && |Before(KEYS)| + |After(KEYS)| == 53
  {
    FrameOf(KEYS);
    LengthOfKeys();
  }

  lemma {:induction false} PlaceInText(value: string, pad: nat)
    requires NoNewline(value)
    ensures Place(Text(value, pad), Newlines(Before(KEYS)), Tail(Before(KEYS)), value) == Some(|Before(KEYS)|)
  {
    var b, rest := Before(KEYS), value + (After(KEYS) + Blanks(pad));
    FrameHasNoNewline();
    NoNewlinePositions(b);
    PositionIsOffset(b, rest);
    assert NoNewline(Text(value, pad));
    NoNewlineFirst(Text(value, pad));
    assert Text(value, pad)[0..] == Text(value, pad);
    assert Text(value, pad)[|b|..|b| + |value|] == value;
  }

  lemma {:induction false} SelectedInText(before: string, after: string, pad: nat)
    requires before != after
    ensures Selected(ParserFor(before, after, pad), before, Text(before, pad))
      == Some(Read(Plain(before), Before(KEYS)))
  {
    OneCandidate(before, pad);
  }

  lemma {:induction false} LengthOfText(value: string, pad: nat)
    ensures |Text(value, pad)| == 53 + |value| + pad && |Before(KEYS)| + |value| <= |Text(value, pad)|
  {
    FrameHasNoNewline();
  }

  lemma {:induction false} EditOfText(before: string, after: string, pad: nat)
    requires before != after && NoNewline(before) && |Before(KEYS)| + |before| <= |Text(before, pad)|
    ensures EditAt(Text(before, pad), Newlines(Before(KEYS)), Tail(Before(KEYS)), before, after)
      == Some(Splice(Text(before, pad), |Before(KEYS)|, before, after))
  {
    PlaceInText(before, pad);
  }

  lemma {:induction false} PatchedAtPrefix(parse: Parser, p: Proposal, content: string, b: string, patched: string)
    requires 0 < |content| <= MAX_CONTENT && AllowedPatch(p)
    requires Selected(parse, p.change.before, content) == Some(Read(Plain(p.change.before), b))
    requires EditAt(content, Newlines(b), Tail(b), p.change.before, p.change.after) == Some(patched)
    ensures Patched(parse, p, content) == Some(patched)
  {
    var node := Read(Plain(p.change.before), b);
    assert node.line == Newlines(b) + 1 && node.column == Tail(b) + 1;
  }

  lemma {:induction false} PatchedText(before: string, after: string, pad: nat, p: Proposal, content: string, b: string)
    requires before != after && before != "" && NoNewline(before) && 53 + |before| + pad <= MAX_CONTENT
    requires AllowedPatch(p) && p.change.before == before && p.change.after == after
    requires content == Text(before, pad) && b == Before(KEYS)
    ensures |content| == 53 + |before| + pad && |b| + |before| <= |content|
    ensures Patched(ParserFor(before, after, pad), p, content) == Some(Splice(content, |b|, before, after))
  {
    LengthOfText(before, pad);
    SelectedInText(before, after, pad);
    EditOfText(before, after, pad);
    PatchedAtPrefix(ParserFor(before, after, pad), p, content, b, Splice(content, |b|, before, after));
  }

  // There is a parser faithful to its grammar, and a file of any greater size that the patch of this
  // change applies to.
  lemma {:induction false} PatchAppliesSomewhere(before: string, after: string, pad: nat, p: Proposal)
    requires before !in STRUCTURE && before != after && before != "" && NoNewline(before)
    requires 53 + |before| + pad <= MAX_CONTENT
    requires AllowedPatch(p) && p.change.before == before && p.change.after == after
    ensures Faithful(ParserFor(before, after, pad), GrammarFor(before, after, pad), before, after)
    ensures Readable(Some(Text(before, pad))) && |Text(before, pad)| == 53 + |before| + pad
    ensures Patched(ParserFor(before, after, pad), p, Text(before, pad)).Some?
  {
    ParserIsFaithful(before, after, pad);
    PatchedText(before, after, pad, p, Text(before, pad), Before(KEYS));
  }

  // Some state that attempts leave behind, and from which an attempt running alone does not recover.
  ghost predicate Strands(c: Config, file: string) {
    exists s0, actions {:trigger Run(c, s0, actions, true)} ::
      Initial(c, s0) && Recovery.BaseAlways(c, Run(c, s0, actions, true), file)
      && !Alone(c, Run(c, s0, actions, true).world).outcome.Opened?
  }

  lemma {:induction false} LongEditStrands(
    parse: Parser, grammar: seq<Layout> -> bool, p: Proposal, c: Config, file: string)
    requires c == ConfigFor(parse, p, c.head, c.base) && c.head != c.base
    requires Faithful(parse, grammar, p.change.before, p.change.after)
    requires p.change.before !in STRUCTURE && p.change.after !in STRUCTURE && p.change.before != ""
    requires Readable(Some(file)) && Patched(parse, p, file).Some?
    requires |file| - |p.change.before| + |p.change.after| > MAX_CONTENT
    ensures Strands(c, file)
  {
    PatchRecoversIff(parse, grammar, p, c, file);
  }

  // A file of the greatest length that can be read, and whose edit is longer: it strands its branch.
  lemma {:induction false} LongEditsStrandTheirBranch(
    before: string, after: string, p: Proposal, head: string, base: string, pad: nat, file: string, parse: Parser)
    requires before !in STRUCTURE && after !in STRUCTURE && before != "" && NoNewline(before)
    requires |before| < |after| && 53 + |before| + pad == MAX_CONTENT && head != base
    requires AllowedPatch(p) && p.change.before == before && p.change.after == after
    requires file == Text(before, pad) && parse == ParserFor(before, after, pad)
    ensures Faithful(parse, GrammarFor(before, after, pad), before, after)
    ensures Readable(Some(file)) && Patched(parse, p, file).Some? && !Readable(Patched(parse, p, file))
    ensures Strands(ConfigFor(parse, p, head, base), file)
  {
    PatchAppliesSomewhere(before, after, pad, p);
    PatchedIsReadableIff(parse, p, file);
    LongEditStrands(parse, GrammarFor(before, after, pad), p, ConfigFor(parse, p, head, base), file);
  }
}

/** A request that passes the gate, under any investigation ID. */
module PassingRequest {
  import opened Wrappers
  import opened GitHub
  import opened Attempts
  import opened Proposals
  import opened Payloads
  import opened Records
  import opened Verify
  import opened Reports
  import opened Memory
  import opened Policy
  import opened Remediation
  import opened Service
  import opened Store
  import opened Spelling
  import opened EndToEnd
  import opened Requests
  import opened Investigations
  import opened Evaluations
  import Witness

  function Under(key: string, j: Json): Json { Object(map[key := j]) }

  lemma {:induction false} AtUnder(key: string, j: Json, path: seq<string>)
    ensures At(Under(key, j), [key] + path) == At(j, path)
    ensures ObjectsAlong(Under(key, j), [key] + path) <==> ObjectsAlong(j, path)
  {
    assert ([key] + path)[1..] == path;
  }

  function Container(limit: string): Json {
    Object(map["name" := Text("payments-api"), "resources" := Under("limits", Under("memory", Text(limit)))])
  }

  function Deployment(limit: string): Json {
    Under("spec", Under("template", Under("spec", Under("containers", List([Container(limit)])))))
  }

  lemma {:induction false} ContainerReads(limit: string)
    ensures ContainerDecodes(Container(limit)) && LimitIn([Container(limit)]) == Some(limit)
  {
    var c, resources, limits :=
      Container(limit), Under("limits", Under("memory", Text(limit))), Under("memory", Text(limit));
    assert ["resources"][1..] == [] && ["resources", "limits"][1..] == ["limits"] && ["limits"][1..] == [];
    assert ["resources", "limits", "memory"][1..] == ["limits", "memory"] && ["limits", "memory"][1..] == ["memory"];
    assert ["memory"][1..] == [];
    assert Field(c, "resources") == resources;
    assert At(c, ["resources", "limits"]) == At(resources, ["limits"]) == limits;
    assert At(c, ["resources", "limits", "memory"]) == At(resources, ["limits", "memory"]) == At(limits, ["memory"])
      == Text(limit);
  }

  lemma {:induction false} DeploymentReads(limit: string)
    ensures ContainerLimit(Deployment(limit)) == Some(limit)
  {
    var list := List([Container(limit)]);
    var c := Under("containers", list);
    var b := Under("spec", c);
    var a := Under("template", b);
    assert ["spec", "template", "spec"] == ["spec"] + (["template"] + (["spec"] + []));
    assert CONTAINERS == ["spec"] + (["template"] + (["spec"] + (["containers"] + [])));
    AtUnder("spec", a, ["template"] + (["spec"] + []));
    AtUnder("template", b, ["spec"] + []);
    AtUnder("spec", c, []);
    AtUnder("spec", a, ["template"] + (["spec"] + (["containers"] + [])));
    AtUnder("template", b, ["spec"] + (["containers"] + []));
    AtUnder("spec", c, ["containers"] + []);
    AtUnder("containers", list, []);
    ContainerReads(limit);
  }

  const BEFORE := "128Mi"
  const AFTER := "256Mi"

  lemma {:induction false} Amount(text: string, n: nat)
    requires |text| == 5 && text[3..] == "Mi" && Digit(text[0]) && Digit(text[1]) && Digit(text[2]) && text[0] != '0'
    requires n == 100 * DigitValue(text[0]) + 10 * DigitValue(text[1]) + DigitValue(text[2])
    ensures MemoryMiB(text) == Some(n)
  {
    var digits := text[..3];
    assert digits[..2][..1] == digits[..1] && digits[..1][..0] == "";
    assert Value(digits[..1]) == 10 * Value("") + DigitValue(digits[0]);
    assert Value(digits[..2]) == 10 * Value(digits[..1]) + DigitValue(digits[1]);
    assert Value(digits) == 10 * Value(digits[..2]) + DigitValue(digits[2]);
  }

  // --- the service's own patterns

  predicate IsDigit(ch: char) { '0' <= ch <= '9' }

  predicate IsLower(ch: char) { 'a' <= ch <= 'z' }

  predicate IsLetter(ch: char) { IsLower(ch) || 'A' <= ch <= 'Z' }

  predicate IsNamePart(text: string) {
    1 <= |text| <= 100
    && forall i :: 0 <= i < |text| ==> IsLetter(text[i]) || IsDigit(text[i]) || text[i] in {'_', '.', '-'}
  }

  ghost predicate IsRepository(text: string) {
    exists owner, name :: text == owner + ("/" + name) && IsNamePart(owner) && IsNamePart(name)
  }

  predicate IsPath(text: string) {
    && 1 <= |text| <= 256
    && (forall i :: 0 <= i < |text| ==> IsLetter(text[i]) || IsDigit(text[i]) || text[i] in {'_', '.', '/', '-'})
    && forall i :: 0 <= i < |text| - 1 ==> !(text[i] == '.' && text[i + 1] == '.')
  }

  predicate IsWord(text: string) {
    && 1 <= |text| <= 64 && IsLower(text[0])
    && forall i :: 0 <= i < |text| ==> IsLower(text[i]) || IsDigit(text[i]) || text[i] == '_'
  }

  predicate IsLabel(text: string) {
    && text != "" && text[0] != '-' && text[|text| - 1] != '-'
    && forall i :: 0 <= i < |text| ==> IsLower(text[i]) || IsDigit(text[i]) || text[i] == '-'
  }

  // The spellings that UUID parsing and the database's cast both accept.
  ghost predicate IsUUID(text: string) { exists d, form :: HexDigits(d) && text == Spell(d, form) }

  predicate IsAscii(text: string) { forall i :: 0 <= i < |text| ==> ' ' <= text[i] <= '~' }

  // The service's patterns, and what the library calls do to plain texts.
  ghost predicate Realistic(shapes: Shapes) { RealNames(shapes) && RealPlaces(shapes) && RealTexts(shapes) }

  ghost predicate RealNames(shapes: Shapes) {
    && (forall text :: shapes.uuid(text) == IsUUID(text))
    && (forall text :: shapes.operation(text) == IsWord(text))
    && (forall text :: shapes.dnsLabel(text) == IsLabel(text))
    && (forall text :: shapes.failureCode(text) == IsWord(text))
  }

  ghost predicate RealPlaces(shapes: Shapes) {
    && (forall text :: shapes.repository(text) == IsRepository(text))
    && (forall text :: shapes.path(text) == IsPath(text))
    && (forall text :: shapes.branch(text) == BranchName(text))
    && (forall n :: HTTPS(shapes.pullURL(n)))
  }

  ghost predicate RealTexts(shapes: Shapes) {
    && (forall text :: IsAscii(text) ==> shapes.utf8(text))
    && (forall text :: IsTrimmed(text) ==> shapes.trim(text) == text)
  }

  predicate IsTrimmed(text: string) { IsAscii(text) && text != "" && text[0] != ' ' && text[|text| - 1] != ' ' }

  // There are such shapes.
  ghost function RealShapes(): (shapes: Shapes)
    ensures Realistic(shapes)
  {
    var url := "https://example";
    assert HTTPS(url);
    Shapes(
      (text: string) => IsUUID(text), (text: string) => IsWord(text), (text: string) => IsRepository(text),
      (text: string) => IsPath(text), (text: string) => IsLabel(text), (text: string) => BranchName(text),
      (text: string) => IsWord(text), (text: string) => IsAscii(text), (text: string) => text, (n: nat) => url)
  }

  // --- the request

  // A UUID of one repeated digit, dashed.
  function Repeated(ch: char): (d: string)
    ensures |d| == 32 && forall i :: 0 <= i < 32 ==> d[i] == ch
  {
    seq(32, i => ch)
  }

  function UUIDOf(digit: char): string
    requires IsDigit(digit)
  {
    Spell(Repeated(digit), Dashed)
  }

  lemma {:induction false} UUIDsAreUUIDs(digit: char)
    requires IsDigit(digit)
    ensures IsUUID(UUIDOf(digit)) && UUIDOf(digit) != "" && UUIDOf(digit)[0] == digit
  {
    assert HexDigits(Repeated(digit));
    assert Repeated(digit)[..8][0] == digit;
  }

  lemma {:induction false} UUIDsDiffer(digit: char, digit': char)
    requires IsDigit(digit) && IsDigit(digit') && digit != digit'
    ensures UUIDOf(digit) != UUIDOf(digit')
  {
    UUIDsAreUUIDs(digit);
    UUIDsAreUUIDs(digit');
  }

  const CONFIG := Trusted("development", "owner/repository", "values.yaml")

  const CHANGE := Change("memory_limit", BEFORE, AFTER)

  const REASON := "out of memory"

  const EVIDENCE := [UUIDOf('2'), UUIDOf('3')]

  function RequestFor(id: string): Request {
    Request(UUIDOf('1'), id, "update_resource_limit",
            Target("owner/repository", "values.yaml",
                   "incidentpilot-demo", "Deployment", "payments-api", "payments-api"),
            CHANGE, REASON, EVIDENCE)
  }

  const FINDING := RootCause(OOMKilledAt(BEFORE), PaymentsApi, MemoryLimitOOM, EVIDENCE)

  const REPORT := Report(UUIDOf('1'), true, [], Some(FINDING), EVIDENCE, 1, 0, 2, NoReason)

  const STORED: seq<Record> := [
    Record(UUIDOf('2'), UUIDOf('1'), GetPods, FromPods, PAYMENTS, Null, Null),
    Record(UUIDOf('3'), UUIDOf('1'), GetDeployment, FromDeployment, PAYMENTS, Null, Deployment(BEFORE))]

  function QuestionFor(proposal: string, id: string): Question {
    Question(proposal, RequestFor(id), Some(REPORT), Some(STORED), Nowhere)
  }

  lemma {:induction false} StoredLimitIs()
    ensures StoredLimit(STORED) == BEFORE
  {
    DeploymentReads(BEFORE);
    assert STORED[1..] == [STORED[1]];
    assert !ShowsLimit(STORED[0]) && ShowsLimit(STORED[1]);
  }

  lemma {:induction false} WordsAreWords()
    ensures IsWord("update_resource_limit") && IsWord("memory_limit")
  {
  }

  lemma {:induction false} LabelsAreLabels()
    ensures IsLabel("incidentpilot-demo") && IsLabel("payments-api")
  {
  }

  lemma {:induction false} RepositoryAndPath()
    ensures IsRepository("owner/repository") && IsPath("values.yaml")
  {
    assert "owner/repository" == "owner" + ("/" + "repository");
    assert IsNamePart("owner") && IsNamePart("repository");
  }

  lemma {:induction false} TextsArePlain()
    ensures IsAscii(BEFORE) && IsAscii(AFTER) && IsAscii(REASON) && |BEFORE| == |AFTER| == 5 && |REASON| == 13
    ensures IsTrimmed(REASON)
  {
  }

  lemma {:induction false} EvidenceIsDistinct()
    ensures |EVIDENCE| == 2 && EVIDENCE[0] != EVIDENCE[1] && IsUUID(EVIDENCE[0]) && IsUUID(EVIDENCE[1])
  {
    UUIDsAreUUIDs('2');
    UUIDsAreUUIDs('3');
    UUIDsDiffer('2', '3');
  }

  ghost predicate PlainRequest(r: Request) {
    && IsUUID(r.incidentID) && IsUUID(r.investigationID)
    && IsWord(r.operation) && IsRepository(r.target.repository) && IsPath(r.target.path)
    && IsLabel(r.target.namespace) && IsLabel(r.target.name) && IsLabel(r.target.container)
    && r.target.kind == "Deployment" && IsWord(r.change.field)
    && IsAscii(r.change.before) && IsAscii(r.change.after) && |r.change.before| <= 64 && |r.change.after| <= 64
    && IsTrimmed(r.reason) && |r.reason| <= 512
    && |r.evidenceIDs| == 2 && r.evidenceIDs[0] != r.evidenceIDs[1] && IsUUID(r.evidenceIDs[0])
      && IsUUID(r.evidenceIDs[1])
  }

  lemma {:induction false} PlainIsValid(shapes: Shapes, r: Request)
    requires Realistic(shapes) && PlainRequest(r)
    ensures ValidRequest(shapes, r)
  {
    assert shapes.trim(r.reason) == r.reason;
  }

  lemma {:induction false} RequestIsPlain(id: string)
    requires IsUUID(id)
    ensures PlainRequest(RequestFor(id))
  {
    UUIDsAreUUIDs('1');
    EvidenceIsDistinct();
    WordsAreWords();
    LabelsAreLabels();
    RepositoryAndPath();
    TextsArePlain();
  }

  lemma {:induction false} ConfigIsValid(shapes: Shapes)
    requires Realistic(shapes)
    ensures TrustedIsValid(shapes, CONFIG)
  {
    RepositoryAndPath();
    assert CONFIG.environment != "";
  }

  lemma {:induction false} RequestIsPermitted(id: string)
    ensures Permitted(CONFIG, RequestFor(id), MemoryLimitOOM, BEFORE)
  {
    assert BEFORE[3..] == "Mi" && AFTER[3..] == "Mi";
    Amount(BEFORE, 128);
    Amount(AFTER, 256);
  }

  // Under the service's own patterns this request passes the gate, for every UUID.
  lemma {:induction false} RequestPasses(setup: Setup, proposal: string, id: string)
    requires Realistic(setup.shapes) && setup.config == CONFIG && IsUUID(id)
    ensures Passes(setup, QuestionFor(proposal, id))
  {
    RequestIsPlain(id);
    PlainIsValid(setup.shapes, RequestFor(id));
    ConfigIsValid(setup.shapes);
    StoredLimitIs();
    RequestIsPermitted(id);
  }

  // One commit with the manifest, and nothing else.
  const WORLD := World([Some(Witness.Text(BEFORE, 0))], map["main" := 0], [])

  lemma {:induction false} HeadIsNotMain(d: string, braced: bool)
    requires HexDigits(d)
    ensures HeadFor(d, braced) != "main"
  {
    BranchOfSpelling(d, if braced then Braced else Digits);
    assert |HeadFor(d, braced)| >= 18 && |"main"| == 4;
  }

  lemma {:induction false} WorldIsUntouched(setup: Setup, d: string)
    requires HexDigits(d) && setup.base == "main"
    ensures UntouchedFor(setup, d, WORLD)
  {
    HeadIsNotMain(d, false);
    HeadIsNotMain(d, true);
  }

  lemma {:induction false} WorldIsReady(setup: Setup)
    requires setup.config == CONFIG && setup.parse == Witness.ParserFor(BEFORE, AFTER, 0) && setup.base == "main"
    ensures BaseReady(setup, CHANGE, WORLD)
  {
    var p := Requests.Canonical(CONFIG, CHANGE);
    RequestIsPermitted("");
    MiBIsPlain(BEFORE);
    TextsArePlain();
    Witness.PatchAppliesSomewhere(BEFORE, AFTER, 0, p);
    PatchedIsReadableIff(setup.parse, p, Witness.Text(BEFORE, 0));
    assert FileAt(WORLD, "main") == Some(Witness.Text(BEFORE, 0));
  }

  lemma {:induction false} SpellingsAreUUIDs(d: string, form: Form)
    requires HexDigits(d)
    ensures IsUUID(Spell(d, form))
  {
  }

  // Every hypothesis of the exact condition is met under the service's own patterns, and so it decides:
  // this very request, sent once without braces around the ID and once with them, with no call and no
  // save failing, ends with two pull requests open for one investigation, and both evaluations stored.
  lemma {:induction false} TwoPullsForOneInvestigation(setup: Setup, d: string)
    returns (states: seq<Snapshot>, questions: seq<Question>, results: seq<Result<Evaluated>>)
    requires HexDigits(d) && Realistic(setup.shapes) && setup.config == CONFIG && setup.base == "main"
    requires setup.parse == Witness.ParserFor(BEFORE, AFTER, 0) && setup.env == CALM
    ensures |questions| == 2 && Serving(setup, states, questions, results) && states[0] == Snapshot(WORLD, 0, NOTHING)
    ensures questions == [QuestionFor(UUIDOf('4'), Spell(d, Dashed)), QuestionFor(UUIDOf('5'), Spell(d, Braced))]
    ensures Passes(setup, questions[0]) && Passes(setup, questions[1]) && results[0].Ok? && results[1].Ok?
    ensures OpenFor(setup, d, states[2].world) == 2
  {
    SpellingsAreUUIDs(d, Dashed);
    SpellingsAreUUIDs(d, Braced);
    UUIDsDiffer('4', '5');
    RequestPasses(setup, UUIDOf('4'), Spell(d, Dashed));
    WorldIsUntouched(setup, d);
    WorldIsReady(setup);
    var question := QuestionFor(UUIDOf('4'), Spell(d, Dashed));
    assert question.request.change == CHANGE;
    states, questions, results :=
      BracesOpenASecondPull(setup, d, Dashed, question, UUIDOf('4'), UUIDOf('5'), WORLD);
  }
}

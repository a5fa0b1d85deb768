/** Which scalar of a manifest the patch edits, said without the search. */
module Selection {
  import opened Wrappers
  import opened Lines
  import opened Proposals
  import opened Patch

  // v is the value of the first entry of a mapping whose key reads `key`.
  ghost predicate Under(n: Node, key: string, v: Node) {
    n.kind.MappingNode? && exists i: nat :: EntryAt(n.content, key, v, i)
  }

  ghost predicate EntryAt(content: seq<Node>, key: string, v: Node, i: nat) {
    && 2 * i + 1 < |content| && content[2 * i + 1] == v
    && KeyIs(content, i, key) && forall j: nat :: j < i ==> !KeyIs(content, j, key)
  }

  ghost predicate KeyIs(content: seq<Node>, i: nat, key: string) {
    2 * i < |content| && content[2 * i].kind.ScalarNode? && content[2 * i].value == key
  }

  ghost predicate Leads(n: Node, keys: seq<string>, v: Node)
    decreases |keys|
  {
    if keys == [] then v == n else exists m :: Under(n, keys[0], m) && Leads(m, keys[1..], v)
  }

  ghost predicate Reads(n: Node, keys: seq<string>, text: string) {
    exists v :: Leads(n, keys, v) && v.kind.ScalarNode? && v.value == text
  }

  function Top(document: Node): Node {
    if document.kind.DocumentNode? && |document.content| == 1 then document.content[0] else document
  }

  // A container with the name, and its memory limit.
  ghost predicate LimitOf(container: Node, m: Node) {
    Reads(container, ["name"], "payments-api") && Leads(container, ["resources", "limits", "memory"], m)
      && m.kind.ScalarNode?
  }

  // --- the search along keys

  lemma {:induction false} ValueFromIs(content: seq<Node>, key: string, i: nat, v: Node)
    requires key != "" && forall j: nat :: j < i ==> !KeyIs(content, j, key)
    ensures ValueFrom(content, key, 2 * i) == Some(v) <==> exists k: nat :: EntryAt(content, key, v, k)
    decreases |content| - 2 * i
  {
    if 2 * i + 1 < |content| {
      if KeyIs(content, i, key) {
        assert EntryAt(content, key, content[2 * i + 1], i);
        forall k: nat | EntryAt(content, key, v, k) ensures k == i { }
      } else {
        ValueFromIs(content, key, i + 1, v);
      }
    }
  }

  lemma {:induction false} UnderIff(n: Node, key: string, v: Node)
    requires key != ""
    ensures MappingValue(Some(n), key) == Some(v) <==> Under(n, key, v)
  {
    ValueFromIs(n.content, key, 0, v);
  }

  function Walk(n: Option<Node>, keys: seq<string>): Option<Node>
    decreases |keys|
  {
    if keys == [] then n else Walk(MappingValue(n, keys[0]), keys[1..])
  }

  lemma {:induction false} NowhereToWalk(keys: seq<string>)
    ensures Walk(None, keys).None?
    decreases |keys|
  {
    if keys != [] { NowhereToWalk(keys[1..]); }
  }

  lemma {:induction false} LeadsIff(n: Node, keys: seq<string>, v: Node)
    requires "" !in keys
    ensures Walk(Some(n), keys) == Some(v) <==> Leads(n, keys, v)
    decreases |keys|
  {
    if keys != [] {
      assert keys[0] in keys && forall key :: key in keys[1..] ==> key in keys;
      var next := MappingValue(Some(n), keys[0]);
      if next.Some? {
        UnderIff(n, keys[0], next.value);
        LeadsIff(next.value, keys[1..], v);
        forall m | Under(n, keys[0], m) ensures m == next.value { UnderIff(n, keys[0], m); }
      } else {
        NowhereToWalk(keys[1..]);
        forall m ensures !Under(n, keys[0], m) { UnderIff(n, keys[0], m); }
      }
    }
  }

  lemma {:induction false} ReadsIff(n: Node, keys: seq<string>, text: string)
    requires "" !in keys && text != ""
    ensures Scalar(Walk(Some(n), keys)) == text <==> Reads(n, keys, text)
  {
    var found := Walk(Some(n), keys);
    if found.Some? { LeadsIff(n, keys, found.value); }
    forall v | Leads(n, keys, v) ensures found == Some(v) { LeadsIff(n, keys, v); }
  }

  lemma {:induction false} WalkOn(n: Option<Node>, key: string, keys: seq<string>)
    ensures Walk(n, [key] + keys) == Walk(MappingValue(n, key), keys)
  {
    assert ([key] + keys)[1..] == keys;
  }

  const NAME := ["metadata", "name"]
  const MEMORY := ["resources", "limits", "memory"]
  const CONTAINERS := ["spec", "template", "spec", "containers"]
  const HELM := ["demo", "payments", "resources", "limits", "memory"]

  lemma {:induction false} WalkOne(n: Option<Node>, key: string)
    ensures Walk(n, [key]) == MappingValue(n, key)
  {
    assert [key] == [key] + [];
    WalkOn(n, key, []);
  }

  lemma {:induction false} WalkToName(n: Option<Node>)
    ensures Walk(n, NAME) == MappingValue(MappingValue(n, "metadata"), "name")
  {
    WalkOn(n, "metadata", ["name"]);
    WalkOne(MappingValue(n, "metadata"), "name");
  }

  lemma {:induction false} WalkToMemory(n: Option<Node>)
    ensures Walk(n, MEMORY) == MappingValue(MappingValue(MappingValue(n, "resources"), "limits"), "memory")
  {
    assert MEMORY == ["resources"] + ["limits", "memory"] && ["limits", "memory"] == ["limits"] + ["memory"];
    WalkOn(n, "resources", ["limits", "memory"]);
    WalkOn(MappingValue(n, "resources"), "limits", ["memory"]);
    WalkOne(MappingValue(MappingValue(n, "resources"), "limits"), "memory");
  }

  lemma {:induction false} WalkToContainers(root: Node)
    ensures Walk(Some(root), CONTAINERS) == Containers(root)
  {
    assert CONTAINERS == ["spec"] + (["template"] + (["spec"] + ["containers"]));
    var spec := MappingValue(Some(root), "spec");
    WalkOn(Some(root), "spec", ["template"] + (["spec"] + ["containers"]));
    WalkOn(spec, "template", ["spec"] + ["containers"]);
    WalkOn(MappingValue(spec, "template"), "spec", ["containers"]);
    WalkOne(MappingValue(MappingValue(spec, "template"), "spec"), "containers");
  }

  lemma {:induction false} WalkToHelm(root: Node)
    ensures Walk(Some(root), HELM) == MappingValue(MappingValue(MappingValue(
      MappingValue(MappingValue(Some(root), "demo"), "payments"), "resources"), "limits"), "memory")
  {
    assert HELM == ["demo"] + (["payments"] + MEMORY);
    WalkOn(Some(root), "demo", ["payments"] + MEMORY);
    WalkOn(MappingValue(Some(root), "demo"), "payments", MEMORY);
    WalkToMemory(MappingValue(MappingValue(Some(root), "demo"), "payments"));
  }

  // --- the containers and the documents

  lemma {:induction false} TargetContainerIff(container: Node, m: Node)
    ensures IsTargetContainer(container) && MemoryOf(container) == Some(m) <==> LimitOf(container, m)
  {
    WalkOne(Some(container), "name");
    ReadsIff(container, ["name"], "payments-api");
    WalkToMemory(Some(container));
    LeadsIff(container, MEMORY, m);
  }

  // The scalars found in a list of containers are the limits of those with the right name.
  lemma {:induction false} InContainersIff(containers: seq<Node>, m: Node)
    ensures m in InContainers(containers) <==> exists container :: container in containers && LimitOf(container, m)
  {
    if containers != [] {
      var last := |containers| - 1;
      assert containers == containers[..last] + [containers[last]];
      InContainersIff(containers[..last], m);
      TargetContainerIff(containers[last], m);
    }
  }

  // The document is the right Deployment, with these containers.
  ghost predicate Deploys(document: Node, containers: Node) {
    && Reads(Top(document), ["kind"], "Deployment") && Reads(Top(document), NAME, "payments-api")
    && Leads(Top(document), CONTAINERS, containers) && containers.kind.SequenceNode?
  }

  lemma {:induction false} TargetDocumentIff(document: Node, containers: Node)
    ensures var root := DocumentRoot(document);
      IsTargetDocument(root) && Containers(root) == Some(containers) <==> Deploys(document, containers)
  {
    var root := Top(document);
    WalkOne(Some(root), "kind");
    ReadsIff(root, ["kind"], "Deployment");
    WalkToName(Some(root));
    ReadsIff(root, NAME, "payments-api");
    WalkToContainers(root);
    LeadsIff(root, CONTAINERS, containers);
  }

  // --- exactly one

  function Flat<T>(parts: seq<seq<T>>): seq<T> {
    if parts == [] then [] else Flat(parts[..|parts| - 1]) + parts[|parts| - 1]
  }

  ghost predicate AllEmpty<T>(parts: seq<seq<T>>) { forall k :: 0 <= k < |parts| ==> parts[k] == [] }

  // All parts but the i-th are empty.
  ghost predicate OnlyPart<T>(parts: seq<seq<T>>, i: nat) {
    i < |parts| && forall k :: 0 <= k < |parts| && k != i ==> parts[k] == []
  }

  lemma {:induction false} FlatNone<T>(parts: seq<seq<T>>)
    ensures Flat(parts) == [] <==> AllEmpty(parts)
  {
    if parts != [] {
      var front := parts[..|parts| - 1];
      FlatNone(front);
      assert AllEmpty(parts) <==> AllEmpty(front) && parts[|parts| - 1] == [] by {
        assert forall k :: 0 <= k < |front| ==> front[k] == parts[k];
      }
    }
  }

  lemma {:induction false} FlatOfOnly<T>(parts: seq<seq<T>>, i: nat)
    requires OnlyPart(parts, i)
    ensures Flat(parts) == parts[i]
  {
    var last := |parts| - 1;
    var front := parts[..last];
    if i == last {
      FlatNone(front);
      assert AllEmpty(front);
    } else {
      assert OnlyPart(front, i) && front[i] == parts[i];
      FlatOfOnly(front, i);
    }
  }

  lemma {:induction false} FlatOne<T>(parts: seq<seq<T>>, x: T) returns (i: nat)
    requires Flat(parts) == [x]
    ensures OnlyPart(parts, i) && parts[i] == [x]
  {
    var last := |parts| - 1;
    var front := parts[..last];
    assert |Flat(front)| + |parts[last]| == 1;
    if parts[last] == [] {
      i := FlatOne(front, x);
      assert forall k :: 0 <= k < last ==> front[k] == parts[k];
    } else {
      i := last;
      FlatNone(front);
      assert forall k :: 0 <= k < last ==> front[k] == parts[k];
    }
  }

  // What the search finds in one container, and in one document.
  function FoundAt(container: Node): seq<Node> {
    if IsTargetContainer(container) then [MemoryOf(container).value] else []
  }

  function FoundIn(document: Node): seq<Node> {
    var root := DocumentRoot(document);
    if IsTargetDocument(root) then InContainers(Containers(root).value.content) else []
  }

  function Each(nodes: seq<Node>, f: Node -> seq<Node>): (parts: seq<seq<Node>>)
    ensures |parts| == |nodes| && forall k :: 0 <= k < |nodes| ==> parts[k] == f(nodes[k])
  {
    seq(|nodes|, k requires 0 <= k < |nodes| => f(nodes[k]))
  }

  lemma {:induction false} ContainersAreFlat(containers: seq<Node>)
    ensures InContainers(containers) == Flat(Each(containers, FoundAt))
  {
    if containers != [] {
      var last := |containers| - 1;
      ContainersAreFlat(containers[..last]);
      assert Each(containers, FoundAt)[..last] == Each(containers[..last], FoundAt);
    }
  }

  lemma {:induction false} DocumentsAreFlat(documents: seq<Node>)
    ensures InDocuments(documents) == Flat(Each(documents, FoundIn))
  {
    if documents != [] {
      var last := |documents| - 1;
      DocumentsAreFlat(documents[..last]);
      assert Each(documents, FoundIn)[..last] == Each(documents[..last], FoundIn);
    }
  }

  // --- in terms of places

  // The document holds the limit at its j-th container.
  ghost predicate Holds(document: Node, j: nat, m: Node) {
    exists containers :: Deploys(document, containers) && j < |containers.content| && LimitOf(containers.content[j], m)
  }

  lemma {:induction false} HoldsIff(document: Node, j: nat, m: Node)
    ensures var root := DocumentRoot(document);
      Holds(document, j, m) <==>
        && IsTargetDocument(root) && j < |Containers(root).value.content|
        && IsTargetContainer(Containers(root).value.content[j])
        && MemoryOf(Containers(root).value.content[j]) == Some(m)
  {
    var root := DocumentRoot(document);
    if IsTargetDocument(root) {
      var containers := Containers(root).value;
      TargetDocumentIff(document, containers);
      if j < |containers.content| { TargetContainerIff(containers.content[j], m); }
    }
    forall containers | Deploys(document, containers)
      ensures IsTargetDocument(root) && Containers(root) == Some(containers)
    {
      TargetDocumentIff(document, containers);
    }
  }

  ghost predicate NoneIn(document: Node) { forall j: nat, m :: !Holds(document, j, m) }

  ghost predicate HoldsOnly(document: Node, j: nat, m: Node) {
    Holds(document, j, m) && forall k: nat, m' :: Holds(document, k, m') ==> k == j
  }

  lemma {:induction false} FoundNoneIff(document: Node)
    ensures FoundIn(document) == [] <==> NoneIn(document)
  {
    var root := DocumentRoot(document);
    if IsTargetDocument(root) {
      var containers := Containers(root).value.content;
      ContainersAreFlat(containers);
      FlatNone(Each(containers, FoundAt));
      forall j: nat | j < |containers| && IsTargetContainer(containers[j]) ensures !NoneIn(document) {
        HoldsIff(document, j, MemoryOf(containers[j]).value);
      }
    }
    forall j: nat, m | Holds(document, j, m) ensures FoundIn(document) != [] {
      HoldsIff(document, j, m);
      assert Each(Containers(root).value.content, FoundAt)[j] != [];
    }
  }

  lemma {:induction false} FoundOne(document: Node, m: Node) returns (j: nat)
    requires FoundIn(document) == [m]
    ensures HoldsOnly(document, j, m)
  {
    var containers := Containers(DocumentRoot(document)).value.content;
    ContainersAreFlat(containers);
    j := FlatOne(Each(containers, FoundAt), m);
    HoldsIff(document, j, m);
    forall k: nat, m' | Holds(document, k, m') ensures k == j {
      HoldsIff(document, k, m');
      assert Each(containers, FoundAt)[k] != [];
    }
  }

  lemma {:induction false} HeldOne(document: Node, j: nat, m: Node)
    requires HoldsOnly(document, j, m)
    ensures FoundIn(document) == [m]
  {
    HoldsIff(document, j, m);
    var containers := Containers(DocumentRoot(document)).value.content;
    forall k: nat | k < |containers| && k != j ensures FoundAt(containers[k]) == [] {
      if IsTargetContainer(containers[k]) { HoldsIff(document, k, MemoryOf(containers[k]).value); }
    }
    FlatOfOnly(Each(containers, FoundAt), j);
    ContainersAreFlat(containers);
  }

  // m is the one such limit of the manifest.
  ghost predicate OneLimit(documents: seq<Node>, m: Node) {
    exists i: nat, j: nat :: i < |documents| && HoldsOnly(documents[i], j, m) && NotElsewhere(documents, i)
  }

  ghost predicate NotElsewhere(documents: seq<Node>, i: nat) {
    forall k: nat :: k < |documents| && k != i ==> NoneIn(documents[k])
  }

  ghost predicate NoLimit(documents: seq<Node>) { forall k: nat :: k < |documents| ==> NoneIn(documents[k]) }

  // The search finds nothing exactly when no document holds such a limit, and exactly one scalar when
  // there is one such limit.
  lemma {:induction false} NoneFoundIff(documents: seq<Node>)
    ensures InDocuments(documents) == [] <==> NoLimit(documents)
  {
    DocumentsAreFlat(documents);
    FlatNone(Each(documents, FoundIn));
    forall k: nat | k < |documents| ensures Each(documents, FoundIn)[k] == [] <==> NoneIn(documents[k]) {
      FoundNoneIff(documents[k]);
    }
  }

  lemma {:induction false} FoundOneIn(documents: seq<Node>, m: Node)
    requires InDocuments(documents) == [m]
    ensures OneLimit(documents, m)
  {
    DocumentsAreFlat(documents);
    var parts := Each(documents, FoundIn);
    var i := FlatOne(parts, m);
    var j := FoundOne(documents[i], m);
    forall k: nat | k < |documents| && k != i ensures NoneIn(documents[k]) {
      assert parts[k] == [];
      FoundNoneIff(documents[k]);
    }
    assert NotElsewhere(documents, i);
  }

  lemma {:induction false} HeldOneIn(documents: seq<Node>, i: nat, j: nat, m: Node)
    requires i < |documents| && HoldsOnly(documents[i], j, m) && NotElsewhere(documents, i)
    ensures InDocuments(documents) == [m]
  {
    var parts := Each(documents, FoundIn);
    HeldOne(documents[i], j, m);
    forall k: nat | k < |documents| && k != i ensures parts[k] == [] { FoundNoneIff(documents[k]); }
    assert OnlyPart(parts, i);
    FlatOfOnly(parts, i);
    DocumentsAreFlat(documents);
  }

  lemma {:induction false} OneFoundIff(documents: seq<Node>, m: Node)
    ensures InDocuments(documents) == [m] <==> OneLimit(documents, m)
  {
    if InDocuments(documents) == [m] { FoundOneIn(documents, m); }
    if OneLimit(documents, m) {
      var i: nat, j: nat :| i < |documents| && HoldsOnly(documents[i], j, m) && NotElsewhere(documents, i);
      HeldOneIn(documents, i, j, m);
    }
  }

  // --- the patch

  // The scalar in question: the one limit of the manifest; if there is none, the Helm value of the
  // first document that reads `before`.
  ghost predicate InQuestion(documents: seq<Node>, before: string, m: Node) {
    || OneLimit(documents, m)
    || (NoLimit(documents) && documents != [] && Leads(Top(documents[0]), HELM, m) && m.kind.ScalarNode?
        && m.value == before)
  }

  lemma {:induction false} HelmIff(documents: seq<Node>, before: string, m: Node)
    ensures HelmLimit(documents, before) == [m] <==>
      documents != [] && Leads(Top(documents[0]), HELM, m) && m.kind.ScalarNode? && m.value == before
  {
    if documents != [] {
      WalkToHelm(Top(documents[0]));
      LeadsIff(Top(documents[0]), HELM, m);
    }
  }

  lemma {:induction false} CandidateIff(documents: seq<Node>, before: string, m: Node)
    ensures Candidates(documents, before) == [m] <==> InQuestion(documents, before, m)
  {
    NoneFoundIff(documents);
    OneFoundIff(documents, m);
    HelmIff(documents, before, m);
  }

  // The scalar that the manifest offers to a change of `before`.
  ghost predicate Offers(parse: Parser, before: string, content: string, m: Node) {
    parse(content).Some? && InQuestion(parse(content).value, before, m) && m.value == before && m.line >= 1
      && m.column >= 1
  }

  lemma {:induction false} SelectedIff(parse: Parser, before: string, content: string, m: Node)
    ensures Selected(parse, before, content) == Some(m) <==> Offers(parse, before, content, m)
  {
    if parse(content).Some? {
      CandidateIff(parse(content).value, before, m);
      var matches := Candidates(parse(content).value, before);
      if |matches| == 1 { assert matches == [matches[0]]; }
    }
  }

  // One line reads `before` at the column, and in q it reads `after` there.
  ghost predicate Rewritten(content: string, line: nat, column: nat, before: string, after: string, q: string) {
    var lines := SplitAfter(content);
    && line < |lines| && column + |before| <= |lines[line]| && lines[line][column..column + |before|] == before
    && q == Join(lines[line := lines[line][..column] + after + lines[line][column + |before|..]])
  }

  lemma {:induction false} EditIff(
    content: string, line: nat, column: nat, before: string, after: string, q: string)
    ensures EditAt(content, line, column, before, after) == Some(q) <==>
      before != after && Rewritten(content, line, column, before, after, q)
  {
    var lines := SplitAfter(content);
    PlaceByLines(content, line, column, before);
    if line < |lines| && column + |before| <= |lines[line]| && lines[line][column..column + |before|] == before {
      EditByPieces(content, lines, line, column, before, after,
        Join(lines[line := lines[line][..column] + after + lines[line][column + |before|..]]));
    }
  }

  ghost predicate RightChange(p: Proposal) {
    && p.operation == "update_resource_limit" && p.change.field == "memory_limit"
    && p.target.kind == "Deployment" && p.target.namespace == "incidentpilot-demo"
    && p.target.name == "payments-api" && p.target.container == "payments-api"
  }

  lemma {:induction false} AllowedIff(p: Proposal)
    ensures AllowedPatch(p) <==> RightChange(p)
  {
  }

  // The patch only ever applies to a manifest that offers a scalar.
  lemma {:induction false} PatchedIsOffered(parse: Parser, p: Proposal, content: string) returns (m: Node)
    requires Patched(parse, p, content).Some?
    ensures Offers(parse, p.change.before, content, m)
  {
    m := Selected(parse, p.change.before, content).value;
    SelectedIff(parse, p.change.before, content, m);
  }

  lemma {:induction false} SelectionEdited(
    parse: Parser, content: string, before: string, after: string, m: Node, q: string)
    requires Selected(parse, before, content) == Some(m)
    ensures m.line >= 1 && m.column >= 1
    ensures EditSelection(parse, content, before, after) == Some(q) <==>
      before != after && Rewritten(content, m.line - 1, m.column - 1, before, after, q)
  {
    EditIff(content, m.line - 1, m.column - 1, before, after, q);
  }

  // Of one that does, it succeeds exactly for the right kind of change on a file of 1 byte to 256 KiB
  // that reads the old value where the parser says the scalar stands, and then only that is written anew.
  lemma {:induction false} PatchedIff(parse: Parser, p: Proposal, content: string, m: Node, q: string)
    requires Offers(parse, p.change.before, content, m)
    ensures Patched(parse, p, content) == Some(q) <==>
      && RightChange(p) && 1 <= |content| <= 262144 && p.change.before != p.change.after
      && Rewritten(content, m.line - 1, m.column - 1, p.change.before, p.change.after, q)
  {
    SelectedIff(parse, p.change.before, content, m);
    SelectionEdited(parse, content, p.change.before, p.change.after, m, q);
    AllowedIff(p);
  }

  // --- a manifest with two containers

  function Str(text: string): Node { Node(ScalarNode, text, [], 1, 1) }

  function Entry(key: string, value: Node): Node { Node(MappingNode, "", [Str(key), value], 1, 1) }

  function Entries(a: string, x: Node, b: string, y: Node): Node {
    Node(MappingNode, "", [Str(a), x, Str(b), y], 1, 1)
  }

  function Container(name: string, limit: Node): Node {
    Entries("name", Str(name), "resources", Entry("limits", Entry("memory", limit)))
  }

  // A Deployment of these containers.
  function Deployment(containers: seq<Node>): Node {
    var list := Node(SequenceNode, "", containers, 1, 1);
    var spec := Entry("template", Entry("spec", Entry("containers", list)));
    Node(MappingNode, "",
         [Str("kind"), Str("Deployment"), Str("metadata"), Entry("name", Str("payments-api")), Str("spec"), spec], 1, 1)
  }

  lemma {:induction false} EntryValue(key: string, value: Node)
    ensures MappingValue(Some(Entry(key, value)), key) == Some(value)
  {
  }

  lemma {:induction false} ContainerIs(name: string, limit: Node)
    requires limit.kind.ScalarNode?
    ensures IsTargetContainer(Container(name, limit)) <==> name == "payments-api"
    ensures MemoryOf(Container(name, limit)) == Some(limit)
  {
    var resources := Entry("limits", Entry("memory", limit));
    var n := Container(name, limit);
    assert ValueFrom(n.content, "name", 0) == Some(Str(name));
    assert ValueFrom(n.content, "resources", 0) == ValueFrom(n.content, "resources", 2) == Some(resources);
    EntryValue("limits", Entry("memory", limit));
    EntryValue("memory", limit);
  }

  lemma {:induction false} DeploymentIs(containers: seq<Node>)
    ensures IsTargetDocument(Deployment(containers)) && DocumentRoot(Deployment(containers)) == Deployment(containers)
    ensures Containers(Deployment(containers)) == Some(Node(SequenceNode, "", containers, 1, 1))
  {
    var n := Deployment(containers);
    var content := n.content;
    assert ValueFrom(content, "kind", 0) == Some(Str("Deployment"));
    assert ValueFrom(content, "metadata", 0) == ValueFrom(content, "metadata", 2) == Some(content[3]);
    assert ValueFrom(content, "spec", 0) == ValueFrom(content, "spec", 2) == ValueFrom(content, "spec", 4)
      == Some(content[5]);
    EntryValue("name", Str("payments-api"));
    var list := Node(SequenceNode, "", containers, 1, 1);
    EntryValue("template", Entry("spec", Entry("containers", list)));
    EntryValue("spec", Entry("containers", list));
    EntryValue("containers", list);
  }

  lemma {:induction false} OneOfTwo(limit: Node, sidecar: Node, first: bool)
    requires limit.kind.ScalarNode? && sidecar.kind.ScalarNode?
    ensures var own, other := Container("payments-api", limit), Container("sidecar", sidecar);
      InContainers(if first then [own, other] else [other, own]) == [limit]
  {
    var own, other := Container("payments-api", limit), Container("sidecar", sidecar);
    var containers := if first then [own, other] else [other, own];
    ContainerIs("payments-api", limit);
    ContainerIs("sidecar", sidecar);
    ContainersAreFlat(containers);
    FlatOfOnly(Each(containers, FoundAt), if first then 0 else 1);
  }

  lemma {:induction false} OneDeployment(containers: seq<Node>)
    ensures InDocuments([Deployment(containers)]) == InContainers(containers)
  {
    var documents := [Deployment(containers)];
    DeploymentIs(containers);
    DocumentsAreFlat(documents);
    FlatOfOnly(Each(documents, FoundIn), 0);
  }

  // Beside a sidecar with a limit of its own, the limit of the named container is the one that is
  // edited, in either order.
  lemma {:induction false} SidecarIsLeftAlone(
    parse: Parser, p: Proposal, content: string, limit: Node, sidecar: Node, first: bool, q: string)
    requires limit.kind.ScalarNode? && limit.value == p.change.before && limit.line >= 1 && limit.column >= 1
    requires sidecar.kind.ScalarNode? && RightChange(p) && 1 <= |content| <= 262144
    requires p.change.before != p.change.after
    requires var own, other := Container("payments-api", limit), Container("sidecar", sidecar);
      parse(content) == Some([Deployment(if first then [own, other] else [other, own])])
    requires Rewritten(content, limit.line - 1, limit.column - 1, p.change.before, p.change.after, q)
    ensures Patched(parse, p, content) == Some(q)
  {
    var documents := parse(content).value;
    assert InDocuments(documents) == [limit] by {
      var own, other := Container("payments-api", limit), Container("sidecar", sidecar);
      OneOfTwo(limit, sidecar, first);
      OneDeployment(if first then [own, other] else [other, own]);
    }
    assert Selected(parse, p.change.before, content) == Some(limit);
    SelectionEdited(parse, content, p.change.before, p.change.after, limit, q);
    AllowedIff(p);
  }

  // A limit of the sidecar alone is not touched, whatever it is.
  lemma {:induction false} SidecarAloneIsRefused(parse: Parser, p: Proposal, content: string, sidecar: Node)
    requires sidecar.kind.ScalarNode?
    requires parse(content) == Some([Deployment([Container("sidecar", sidecar)])])
    ensures Patched(parse, p, content).None?
  {
    var containers := [Container("sidecar", sidecar)];
    var documents := [Deployment(containers)];
    ContainerIs("sidecar", sidecar);
    DeploymentIs(containers);
    assert InDocuments(documents) == [] by {
      ContainersAreFlat(containers);
      FlatNone(Each(containers, FoundAt));
      OneDeployment(containers);
    }
    assert ValueFrom(Deployment(containers).content, "demo", 0).None? by {
      var content := Deployment(containers).content;
      assert ValueFrom(content, "demo", 0) == ValueFrom(content, "demo", 2) == ValueFrom(content, "demo", 4)
        == ValueFrom(content, "demo", 6);
    }
  }
}

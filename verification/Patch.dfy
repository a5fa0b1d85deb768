/** The requests and results that travel between the remediation service and its executor. */
module Proposals {
  import opened Wrappers

  datatype Target = Target(
    repository: string, path: string, namespace: string, kind: string, name: string, container: string)

  datatype Change = Change(field: string, before: string, after: string)

  datatype Status = Unset | PolicyAllowed | PolicyDenied | PRCreated | PRFailed

  datatype Proposal = Proposal(
    incidentID: string, investigationID: string, operation: string, target: Target, change: Change,
    reason: string, evidenceIDs: seq<string>, status: Status)

  datatype PolicyDecision = PolicyDecision(allowed: bool, reasons: seq<string>, policyVersion: string)

  datatype PullRequest = PullRequest(
    status: Status, repository: string, baseBranch: string, headBranch: string,
    number: nat, commit: Option<nat>, reused: bool, failureCode: string)
}

/** The byte patch: locate one scalar with the YAML parser, replace exactly its bytes. */
module Patch {
  import opened Wrappers
  import opened Lines
  import opened Proposals
  import GitHub

  datatype Kind = DocumentNode | MappingNode | SequenceNode | ScalarNode | AliasNode

  // A parsed node; line and column count from 1.
  datatype Node = Node(kind: Kind, value: string, content: seq<Node>, line: int, column: int)

  // The YAML parser: the documents of a text, or None when one of them does not parse.
  type Parser = string -> Option<seq<Node>>

  function DocumentRoot(document: Node): Node {
    if document.kind.DocumentNode? && |document.content| == 1 then document.content[0] else document
  }

  function Scalar(node: Option<Node>): string {
    if node.None? || !node.value.kind.ScalarNode? then "" else node.value.value
  }

  // The value after the first matching key, from position `index` on.
  function ValueFrom(content: seq<Node>, key: string, index: nat): Option<Node>
    decreases |content| - index
  {
    if index + 1 >= |content| then None
    else if Scalar(Some(content[index])) == key then Some(content[index + 1])
    else ValueFrom(content, key, index + 2)
  }

  function MappingValue(node: Option<Node>, key: string): Option<Node> {
    if node.None? || !node.value.kind.MappingNode? then None else ValueFrom(node.value.content, key, 0)
  }

  function Containers(root: Node): Option<Node> {
    MappingValue(MappingValue(MappingValue(MappingValue(Some(root), "spec"), "template"), "spec"), "containers")
  }

  function MemoryOf(container: Node): Option<Node> {
    MappingValue(MappingValue(MappingValue(Some(container), "resources"), "limits"), "memory")
  }

  predicate IsTargetContainer(container: Node) {
    && Scalar(MappingValue(Some(container), "name")) == "payments-api"
    && MemoryOf(container).Some? && MemoryOf(container).value.kind.ScalarNode?
  }

  predicate IsTargetDocument(root: Node) {
    && Scalar(MappingValue(Some(root), "kind")) == "Deployment"
    && Scalar(MappingValue(MappingValue(Some(root), "metadata"), "name")) == "payments-api"
    && Containers(root).Some? && Containers(root).value.kind.SequenceNode?
  }

  function InContainers(containers: seq<Node>): (found: seq<Node>)
    ensures forall i :: 0 <= i < |found| ==> found[i].kind.ScalarNode?
  {
    if containers == [] then []
    else
      var last := |containers| - 1;
      InContainers(containers[..last])
        + if IsTargetContainer(containers[last]) then [MemoryOf(containers[last]).value] else []
  }

  function InDocuments(documents: seq<Node>): (found: seq<Node>)
    ensures forall i :: 0 <= i < |found| ==> found[i].kind.ScalarNode?
  {
    if documents == [] then []
    else
      var last := |documents| - 1;
      var root := DocumentRoot(documents[last]);
      InDocuments(documents[..last])
        + if IsTargetDocument(root) then InContainers(Containers(root).value.content) else []
  }

  function HelmMemory(documents: seq<Node>): Option<Node> {
    if documents == [] then None
    else
      MappingValue(MappingValue(MappingValue(MappingValue(MappingValue(
        Some(DocumentRoot(documents[0])), "demo"), "payments"), "resources"), "limits"), "memory")
  }

  // The Helm values are consulted with the first document only, and only when it holds `before`.
  function HelmLimit(documents: seq<Node>, before: string): seq<Node> {
    var memory := HelmMemory(documents);
    if memory.None? || !memory.value.kind.ScalarNode? || memory.value.value != before then [] else [memory.value]
  }

  function Candidates(documents: seq<Node>, before: string): seq<Node> {
    if InDocuments(documents) == [] then HelmLimit(documents, before) else InDocuments(documents)
  }

  predicate AllowedPatch(p: Proposal) {
    && p.operation == "update_resource_limit"
    && p.target.kind == "Deployment" && p.target.namespace == "incidentpilot-demo"
    && p.target.name == "payments-api" && p.target.container == "payments-api"
    && p.change.field == "memory_limit"
  }

  // Offset of a position (line and column from 0) that must hold `before` within its line.
  function Place(content: string, line: nat, column: nat, before: string): Option<nat> {
    match LineStart(content, line)
    case None => None
    case Some(start) =>
      if column + |before| > FirstLine(content[start..]) then None
      else if content[start + column..start + column + |before|] != before then None
      else Some(start + column)
  }

  function Splice(content: string, o: nat, before: string, after: string): string
    requires o + |before| <= |content|
  {
    content[..o] + after + content[o + |before|..]
  }

  // The one scalar to edit: there is exactly one candidate and its value is `before`.
  function Selected(parse: Parser, before: string, content: string): Option<Node> {
    var documents := parse(content);
    if documents.None? then None
    else
      var matches := Candidates(documents.value, before);
      if |matches| != 1 || matches[0].value != before || matches[0].line < 1 || matches[0].column < 1 then None
      else Some(matches[0])
  }

  // The edit of one located scalar, as one splice.
  function EditAt(content: string, line: nat, column: nat, before: string, after: string): Option<string> {
    match Place(content, line, column, before)
    case None => None
    case Some(o) => if before == after then None else Some(Splice(content, o, before, after))
  }

  // The edit of the selected scalar, if there is one.
  function EditSelection(parse: Parser, content: string, before: string, after: string): Option<string> {
    match Selected(parse, before, content)
    case None => None
    case Some(node) => EditAt(content, node.line - 1, node.column - 1, before, after)
  }

  function Patched(parse: Parser, p: Proposal, content: string): Option<string> {
    if content == "" || |content| > GitHub.MAX_CONTENT || !AllowedPatch(p) then None
    else EditSelection(parse, content, p.change.before, p.change.after)
  }

  predicate Occurs(part: string, text: string) {
    exists i :: 0 <= i <= |text| && part <= text[i..]
  }

  // Splicing a text that reads `before` between the other four parts.
  lemma SpliceOfParts(a: string, b: string, before: string, d: string, e: string, after: string)
    ensures var content := a + (b + before + d) + e;
      |a| + |b| + |before| <= |content|
      && content[|a| + |b|..|a| + |b| + |before|] == before
      && Splice(content, |a| + |b|, before, after) == a + (b + after + d) + e
  {
    var content := a + (b + before + d) + e;
    assert content == (a + b) + before + (d + e);
    assert content[..|a| + |b|] == a + b;
    assert content[|a| + |b| + |before|..] == d + e;
    assert (a + b) + after + (d + e) == a + (b + after + d) + e;
  }

  // Replacing a stretch of one piece splices the joined text.
  lemma SpliceByPieces(content: string, pieces: seq<string>, line: nat, column: nat, before: string, after: string)
    requires Join(pieces) == content && line < |pieces|
    requires column + |before| <= |pieces[line]| && pieces[line][column..column + |before|] == before
    ensures var o := |Join(pieces[..line])| + column;
      && o + |before| <= |content|
      && content[o..o + |before|] == before
      && Join(pieces[line := pieces[line][..column] + after + pieces[line][column + |before|..]])
        == Splice(content, o, before, after)
  {
    var text := pieces[line];
    var b, d := text[..column], text[column + |before|..];
    assert text == b + before + d;
    var first, rest := pieces[..line], pieces[line + 1..];
    assert pieces == first + [text] + rest && pieces[line := b + after + d] == first + [b + after + d] + rest;
    JoinAround(first, text, rest);
    JoinAround(first, b + after + d, rest);
    SpliceOfParts(Join(first), b, before, d, Join(rest), after);
  }

  lemma SliceOfSlice(content: string, start: nat, n: nat, i: nat, j: nat)
    requires start + n <= |content| && i <= j <= n
    ensures content[start..][..n][i..j] == content[start + i..start + j]
  {
  }

  // The line check of the code and the offset check of the specification agree.
  lemma {:induction false} PlaceByLines(content: string, line: nat, column: nat, before: string)
    ensures var pieces := SplitAfter(content);
      Place(content, line, column, before) ==
        if line < |pieces| && column + |before| <= |pieces[line]| && pieces[line][column..column + |before|] == before
        then Some(|Join(pieces[..line])| + column) else None
  {
    PieceAt(content, line);
    if line < |SplitAfter(content)| {
      var start := LineStart(content, line).value;
      var n := FirstLine(content[start..]);
      if column + |before| <= n {
        SliceOfSlice(content, start, n, column, column + |before|);
      }
    }
  }

  lemma {:induction false} JoinAround(first: seq<string>, text: string, rest: seq<string>)
    ensures Join(first + [text] + rest) == Join(first) + text + Join(rest)
  {
    JoinAppend(first + [text], rest);
    JoinAppend(first, [text]);
    assert [text][1..] == [] && Join([text]) == text;
  }

  // A splice keeps the bytes exactly when it puts back what was there, and it always holds `after`.
  lemma SpliceChanges(content: string, o: nat, before: string, after: string)
    requires o + |before| <= |content| && content[o..o + |before|] == before
    ensures Splice(content, o, before, after) == content <==> before == after
    ensures Occurs(after, Splice(content, o, before, after))
  {
    var spliced := Splice(content, o, before, after);
    assert spliced[o..] == after + content[o + |before|..];
    assert content == content[..o] + before + content[o + |before|..];
  }

  method FindInContainers(items: seq<Node>) returns (matches: seq<Node>)
    ensures matches == InContainers(items)
  {
    matches := [];
    for j := 0 to |items|
      invariant matches == InContainers(items[..j])
    {
      assert items[..j + 1][..j] == items[..j];
      if Scalar(MappingValue(Some(items[j]), "name")) != "payments-api" {
        continue;
      }
      var memory := MemoryOf(items[j]);
      if memory.Some? && memory.value.kind.ScalarNode? {
        matches := matches + [memory.value];
      }
    }
    assert items[..|items|] == items;
  }

  // The scan over documents and containers, and the fallback to Helm values.
  method FindCandidates(documents: seq<Node>, before: string) returns (matches: seq<Node>)
    ensures matches == Candidates(documents, before)
  {
    matches := [];
    for i := 0 to |documents|
      invariant matches == InDocuments(documents[..i])
    {
      var root := DocumentRoot(documents[i]);
      assert documents[..i + 1][..i] == documents[..i];
      if Scalar(MappingValue(Some(root), "kind")) != "Deployment"
         || Scalar(MappingValue(MappingValue(Some(root), "metadata"), "name")) != "payments-api" {
        continue;
      }
      var containers := Containers(root);
      if containers.None? || !containers.value.kind.SequenceNode? {
        continue;
      }
      var found := FindInContainers(containers.value.content);
      matches := matches + found;
    }
    assert documents[..|documents|] == documents;
    if |matches| == 0 {
      matches := HelmLimit(documents, before);
    }
  }

  lemma {:induction false} PiecesSplice(
    content: string, pieces: seq<string>, line: nat, column: nat, before: string, after: string, patched: string)
    requires pieces == SplitAfter(content) && line < |pieces|
    requires column + |before| <= |pieces[line]| && pieces[line][column..column + |before|] == before
    requires patched == Join(pieces[line := pieces[line][..column] + after + pieces[line][column + |before|..]])
    ensures var o := |Join(pieces[..line])| + column;
      o + |before| <= |content| && content[o..o + |before|] == before && patched == Splice(content, o, before, after)
  {
    JoinOfSplit(content);
    SpliceByPieces(content, pieces, line, column, before, after);
  }

  lemma {:induction false} PlaceOfPiece(content: string, pieces: seq<string>, line: nat, column: nat, before: string)
    requires pieces == SplitAfter(content) && line < |pieces|
    requires column + |before| <= |pieces[line]| && pieces[line][column..column + |before|] == before
    ensures Place(content, line, column, before) == Some(|Join(pieces[..line])| + column)
  {
    PlaceByLines(content, line, column, before);
  }

  lemma {:induction false} PlacedEdit(
    content: string, line: nat, column: nat, before: string, after: string, o: nat)
    requires Place(content, line, column, before) == Some(o)
    requires o + |before| <= |content| && content[o..o + |before|] == before
    ensures var patched := Splice(content, o, before, after);
      && (content == patched <==> before == after) && Occurs(after, patched)
      && EditAt(content, line, column, before, after) == if before == after then None else Some(patched)
  {
    SpliceChanges(content, o, before, after);
  }

  lemma {:induction false} EditByPieces(
    content: string, pieces: seq<string>, line: nat, column: nat, before: string, after: string, patched: string)
    requires pieces == SplitAfter(content) && line < |pieces|
    requires column + |before| <= |pieces[line]| && pieces[line][column..column + |before|] == before
    requires patched == Join(pieces[line := pieces[line][..column] + after + pieces[line][column + |before|..]])
    ensures content == patched <==> before == after
    ensures Occurs(after, patched)
    ensures EditAt(content, line, column, before, after) == if before == after then None else Some(patched)
  {
    var o := |Join(pieces[..line])| + column;
    assert Place(content, line, column, before) == Some(o) by { PlaceOfPiece(content, pieces, line, column, before); }
    assert o + |before| <= |content| && content[o..o + |before|] == before
      && patched == Splice(content, o, before, after) by {
      PiecesSplice(content, pieces, line, column, before, after, patched);
    }
    PlacedEdit(content, line, column, before, after, o);
  }

  lemma ReplacedPiece(b: string, before: string, d: string, after: string)
    requires NoNewline(before) && NoNewline(after) && before != ""
    ensures NoNewline(b + before + d) ==> NoNewline(b + after + d)
    ensures FullLine(b + before + d) ==> FullLine(b + after + d)
  {
    var text, text' := b + before + d, b + after + d;
    assert before[|before| - 1] in before;
    assert forall ch :: ch in text' ==> ch in b || ch in after || ch in d;
    assert forall ch :: ch in b || ch in d ==> ch in text;
    if FullLine(text) {
      assert d != "";
      assert d[|d| - 1] == '\n';
      assert text[..|text| - 1] == b + before + d[..|d| - 1];
      assert text'[..|text'| - 1] == b + after + d[..|d| - 1];
      assert forall ch :: ch in b || ch in d[..|d| - 1] ==> ch in text[..|text| - 1];
    }
  }

  lemma {:induction false} ReplacedPieces(
    content: string, pieces: seq<string>, pieces': seq<string>, line: nat, column: nat, before: string, after: string)
    requires pieces == SplitAfter(content) && line < |pieces|
    requires column + |before| <= |pieces[line]| && pieces[line][column..column + |before|] == before
    requires pieces' == pieces[line := pieces[line][..column] + after + pieces[line][column + |before|..]]
    requires NoNewline(before) && NoNewline(after) && before != ""
    ensures SplitAfter(Join(pieces')) == pieces'
  {
    var b, d := pieces[line][..column], pieces[line][column + |before|..];
    assert pieces[line] == b + before + d;
    assert WellSplit(pieces') by {
      SplitIsWell(content);
      ReplacedPiece(b, before, d, after);
    }
    SplitOfJoin(pieces');
  }

  lemma {:induction false} UndoByPieces(
    content: string, pieces: seq<string>, q: string, pieces': seq<string>, line: nat, column: nat, before: string,
    after: string)
    requires line < |pieces| && column + |before| <= |pieces[line]| && pieces[line][column..column + |before|] == before
    requires pieces' == pieces[line := pieces[line][..column] + after + pieces[line][column + |before|..]]
    requires pieces' == SplitAfter(q) && content == Join(pieces) && before != after
    ensures EditAt(q, line, column, after, before) == Some(content)
  {
    var text' := pieces'[line];
    var b, d := pieces[line][..column], pieces[line][column + |before|..];
    assert text'[..column] == b && text'[column..column + |after|] == after && text'[column + |after|..] == d;
    assert b + before + d == pieces[line];
    assert pieces'[line := b + before + d] == pieces;
    EditByPieces(q, pieces', line, column, after, before, content);
  }

  // On one line and in both directions: every other line stays as it is, and the opposite edit at
  // the same place restores the file.
  lemma {:induction false} EditIsLocalAndUndone(content: string, line: nat, column: nat, before: string, after: string)
    requires EditAt(content, line, column, before, after).Some?
    requires NoNewline(before) && NoNewline(after) && before != ""
    ensures var q, pieces := EditAt(content, line, column, before, after).value, SplitAfter(content);
      && line < |pieces| && column + |before| <= |pieces[line]|
      && SplitAfter(q) == pieces[line := pieces[line][..column] + after + pieces[line][column + |before|..]]
      && EditAt(q, line, column, after, before) == Some(content)
  {
    var pieces := SplitAfter(content);
    assert line < |pieces| && column + |before| <= |pieces[line]|
      && pieces[line][column..column + |before|] == before by {
      PlaceByLines(content, line, column, before);
    }
    var pieces' := pieces[line := pieces[line][..column] + after + pieces[line][column + |before|..]];
    var q := Join(pieces');
    assert EditAt(content, line, column, before, after) == Some(q) by {
      EditByPieces(content, pieces, line, column, before, after, q);
    }
    ReplacedPieces(content, pieces, pieces', line, column, before, after);
    assert content == Join(pieces) by { JoinOfSplit(content); }
    UndoByPieces(content, pieces, q, pieces', line, column, before, after);
  }

  // The replacement of the scalar's bytes, line by line.
  method ReplaceScalar(
    content: string, lineIndex: nat, column: nat, before: string, after: string) returns (r: Result<string>)
    ensures r.Ok? <==> EditAt(content, lineIndex, column, before, after).Some?
    ensures r.Ok? ==> EditAt(content, lineIndex, column, before, after) == Some(r.value)
  {
    var lines := SplitAfter(content);
    PlaceByLines(content, lineIndex, column, before);
    if lineIndex >= |lines| || column + |before| > |lines[lineIndex]|
      || lines[lineIndex][column..column + |before|] != before {
      return Err("repository memory limit location is ambiguous");
    }
    var line := lines[lineIndex];
    ghost var pieces := lines;
    lines := lines[lineIndex := line[..column] + after + line[column + |before|..]];
    var patched := Join(lines);
    EditByPieces(content, pieces, lineIndex, column, before, after, patched);
    if content == patched || !Occurs(after, patched) {
      return Err("repository patch made no expected change");
    }
    return Ok(patched);
  }

  // The patch as the client computes it.
  method GenerateMemoryLimitPatch(parse: Parser, content: string, p: Proposal) returns (r: Result<string>)
    ensures r.Ok? <==> Patched(parse, p, content).Some?
    ensures r.Ok? ==> Patched(parse, p, content) == Some(r.value)
  {
    if |content| == 0 || |content| > GitHub.MAX_CONTENT || !AllowedPatch(p) {
      return Err("proposal is not an allowed memory-limit patch");
    }
    r := EditSelected(parse, content, p.change.before, p.change.after);
  }

  method EditSelected(parse: Parser, content: string, before: string, after: string) returns (r: Result<string>)
    ensures r.Ok? <==> EditSelection(parse, content, before, after).Some?
    ensures r.Ok? ==> EditSelection(parse, content, before, after) == Some(r.value)
  {
    var node := SelectScalar(parse, content, before);
    if node.Err? { return Err(node.error); }
    r := ReplaceScalar(content, node.value.line - 1, node.value.column - 1, before, after);
  }

  method SelectScalar(parse: Parser, content: string, before: string) returns (r: Result<Node>)
    ensures r.Ok? <==> Selected(parse, before, content).Some?
    ensures r.Ok? ==> Selected(parse, before, content) == Some(r.value)
  {
    var documents := parse(content);
    if documents.None? {
      return Err("repository manifest is invalid YAML");
    }
    var matches := FindCandidates(documents.value, before);
    if |matches| != 1 || matches[0].value != before || matches[0].line < 1 || matches[0].column < 1 {
      return Err("repository manifest or Helm values do not contain exactly one expected memory limit");
    }
    return Ok(matches[0]);
  }
}

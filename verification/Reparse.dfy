/** What the parser sees after the patch, and why the patch never applies to its own result. */
module Reparse {
  import opened Wrappers
  import opened Patch

  // The words the search compares scalars with.
  const STRUCTURE: set<string> := {
    "kind", "Deployment", "metadata", "name", "payments-api", "spec", "template", "containers",
    "resources", "limits", "memory", "demo", "payments"
  }

  // n' is n with the scalar `before` at one position now reading `after`; positions may have shifted.
  ghost predicate Edited(n: Node, n': Node, line: int, column: int, before: string, after: string) {
    && n'.kind == n.kind
    && |n'.content| == |n.content|
    && (n.kind.ScalarNode? ==>
          n'.value == if n.line == line && n.column == column && n.value == before then after else n.value)
    && forall i :: 0 <= i < |n.content| ==> Edited(n.content[i], n'.content[i], line, column, before, after)
  }

  ghost predicate EditedAll(ns: seq<Node>, ns': seq<Node>, line: int, column: int, before: string, after: string) {
    |ns'| == |ns| && forall i :: 0 <= i < |ns| ==> Edited(ns[i], ns'[i], line, column, before, after)
  }

  ghost predicate EditedOption(
    n: Option<Node>, n': Option<Node>, line: int, column: int, before: string, after: string) {
    if n.Some? then n'.Some? && Edited(n.value, n'.value, line, column, before, after) else n'.None?
  }

  lemma {:induction false} ValueFromEdited(
    ns: seq<Node>, ns': seq<Node>, key: string, index: nat, line: int, column: int, before: string, after: string)
    requires EditedAll(ns, ns', line, column, before, after)
    requires key in STRUCTURE && before !in STRUCTURE && after !in STRUCTURE
    ensures EditedOption(ValueFrom(ns, key, index), ValueFrom(ns', key, index), line, column, before, after)
    decreases |ns| - index
  {
    if index + 1 < |ns| {
      assert Edited(ns[index], ns'[index], line, column, before, after);
      assert Edited(ns[index + 1], ns'[index + 1], line, column, before, after);
      assert Scalar(Some(ns[index])) == key <==> Scalar(Some(ns'[index])) == key;
      ValueFromEdited(ns, ns', key, index + 2, line, column, before, after);
    }
  }

  lemma MappingValueEdited(
    n: Option<Node>, n': Option<Node>, key: string, line: int, column: int, before: string, after: string)
    requires EditedOption(n, n', line, column, before, after)
    requires key in STRUCTURE && before !in STRUCTURE && after !in STRUCTURE
    ensures EditedOption(MappingValue(n, key), MappingValue(n', key), line, column, before, after)
    ensures forall word :: word in STRUCTURE ==>
      (Scalar(MappingValue(n, key)) == word <==> Scalar(MappingValue(n', key)) == word)
  {
    if n.Some? && n.value.kind.MappingNode? {
      ValueFromEdited(n.value.content, n'.value.content, key, 0, line, column, before, after);
    }
  }

  lemma {:induction false} ContainersEdited(n: Node, n': Node, line: int, column: int, before: string, after: string)
    requires Edited(n, n', line, column, before, after) && before !in STRUCTURE && after !in STRUCTURE
    ensures EditedOption(Containers(n), Containers(n'), line, column, before, after)
    ensures IsTargetDocument(n) <==> IsTargetDocument(n')
  {
    var r, r' := Some(n), Some(n');
    MappingValueEdited(r, r', "kind", line, column, before, after);
    MappingValueEdited(r, r', "metadata", line, column, before, after);
    MappingValueEdited(MappingValue(r, "metadata"), MappingValue(r', "metadata"), "name", line, column, before, after);
    MappingValueEdited(r, r', "spec", line, column, before, after);
    var s, s' := MappingValue(r, "spec"), MappingValue(r', "spec");
    MappingValueEdited(s, s', "template", line, column, before, after);
    var t, t' := MappingValue(s, "template"), MappingValue(s', "template");
    MappingValueEdited(t, t', "spec", line, column, before, after);
    MappingValueEdited(MappingValue(t, "spec"), MappingValue(t', "spec"), "containers", line, column, before, after);
  }

  lemma {:induction false} MemoryEdited(n: Node, n': Node, line: int, column: int, before: string, after: string)
    requires Edited(n, n', line, column, before, after) && before !in STRUCTURE && after !in STRUCTURE
    ensures EditedOption(MemoryOf(n), MemoryOf(n'), line, column, before, after)
    ensures IsTargetContainer(n) <==> IsTargetContainer(n')
  {
    var r, r' := Some(n), Some(n');
    MappingValueEdited(r, r', "name", line, column, before, after);
    MappingValueEdited(r, r', "resources", line, column, before, after);
    var s, s' := MappingValue(r, "resources"), MappingValue(r', "resources");
    MappingValueEdited(s, s', "limits", line, column, before, after);
    MappingValueEdited(MappingValue(s, "limits"), MappingValue(s', "limits"), "memory", line, column, before, after);
  }

  lemma {:induction false} InContainersEdited(
    ns: seq<Node>, ns': seq<Node>, line: int, column: int, before: string, after: string)
    requires EditedAll(ns, ns', line, column, before, after) && before !in STRUCTURE && after !in STRUCTURE
    ensures EditedAll(InContainers(ns), InContainers(ns'), line, column, before, after)
  {
    if ns != [] {
      var last := |ns| - 1;
      InContainersEdited(ns[..last], ns'[..last], line, column, before, after);
      MemoryEdited(ns[last], ns'[last], line, column, before, after);
    }
  }

  lemma {:induction false} InDocumentsEdited(
    ns: seq<Node>, ns': seq<Node>, line: int, column: int, before: string, after: string)
    requires EditedAll(ns, ns', line, column, before, after) && before !in STRUCTURE && after !in STRUCTURE
    ensures EditedAll(InDocuments(ns), InDocuments(ns'), line, column, before, after)
  {
    if ns != [] {
      var last := |ns| - 1;
      InDocumentsEdited(ns[..last], ns'[..last], line, column, before, after);
      var root, root' := DocumentRoot(ns[last]), DocumentRoot(ns'[last]);
      assert Edited(root, root', line, column, before, after);
      ContainersEdited(root, root', line, column, before, after);
      if IsTargetDocument(root) {
        InContainersEdited(Containers(root).value.content, Containers(root').value.content, line, column, before,
          after);
      }
    }
  }

  lemma HelmMemoryEdited(ns: seq<Node>, ns': seq<Node>, line: int, column: int, before: string, after: string)
    requires EditedAll(ns, ns', line, column, before, after) && before !in STRUCTURE && after !in STRUCTURE
    ensures EditedOption(HelmMemory(ns), HelmMemory(ns'), line, column, before, after)
  {
    if ns != [] {
      var r, r' := Some(DocumentRoot(ns[0])), Some(DocumentRoot(ns'[0]));
      assert Edited(ns[0], ns'[0], line, column, before, after);
      assert EditedOption(r, r', line, column, before, after);
      MappingValueEdited(r, r', "demo", line, column, before, after);
      var s, s' := MappingValue(r, "demo"), MappingValue(r', "demo");
      MappingValueEdited(s, s', "payments", line, column, before, after);
      var t, t' := MappingValue(s, "payments"), MappingValue(s', "payments");
      MappingValueEdited(t, t', "resources", line, column, before, after);
      var u, u' := MappingValue(t, "resources"), MappingValue(t', "resources");
      MappingValueEdited(u, u', "limits", line, column, before, after);
      MappingValueEdited(MappingValue(u, "limits"), MappingValue(u', "limits"), "memory", line, column, before, after);
    }
  }

  // Re-reading the edited file selects the very scalar that was edited, with the new value: edited
  // once, the file holds exactly one limit and it is `after`, so a second edit finds no `before`.
  lemma EditedFileSelects(ns: seq<Node>, ns': seq<Node>, node: Node, before: string, after: string)
    requires before !in STRUCTURE && after !in STRUCTURE && before != after
    requires Candidates(ns, before) == [node] && node.value == before
    requires EditedAll(ns, ns', node.line, node.column, before, after)
    ensures |Candidates(ns', after)| == 1 && Candidates(ns', after)[0].value == after
    ensures |Candidates(ns', before)| != 1 || Candidates(ns', before)[0].value != before
  {
    var line, column := node.line, node.column;
    InDocumentsEdited(ns, ns', line, column, before, after);
    HelmMemoryEdited(ns, ns', line, column, before, after);
    if InDocuments(ns) != [] {
      assert Edited(InDocuments(ns)[0], InDocuments(ns')[0], line, column, before, after);
      assert InDocuments(ns)[0] == node;
    } else {
      assert HelmLimit(ns, before) == [node];
    }
  }
}

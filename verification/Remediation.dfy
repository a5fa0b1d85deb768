/** What an investigation hands over. */
module Reports {
  import opened Wrappers
  import opened Verify

  datatype HypothesisStatus = Supported | Rejected | Unresolved

  datatype Hypothesis = Hypothesis(statement: string, status: HypothesisStatus, evidenceIDs: seq<string>)

  // NoReason is the empty text.
  datatype Reason =
    | NoReason | InitialEvidenceUnavailable | TargetedEvidenceUnavailable | DurationExhausted
    | AnalysisFailed | InvalidAnalysis | NotVerified(why: string)

  datatype Report = Report(
    incidentID: string, rootCauseFound: bool, hypotheses: seq<Hypothesis>, rootCause: Option<RootCause>,
    evidenceIDs: seq<string>, llmCalls: nat, llmRetries: nat, toolCalls: nat, reason: Reason)
}

/** The remediation service: gate, execute, record. */
module Remediation {
  import opened Wrappers
  import opened Payloads
  import opened Records
  import opened Verify
  import opened Policy
  import Citations

  // The patterns of the service and the library calls on texts, taken as they come, and the address
  // that GitHub gives pull request n and the client lets through.
  datatype Shapes = Shapes(
    uuid: string -> bool, operation: string -> bool, repository: string -> bool, path: string -> bool,
    dnsLabel: string -> bool, branch: string -> bool, failureCode: string -> bool, utf8: string -> bool,
    trim: string -> string, pullURL: nat -> string)

  ghost predicate ValidRequest(shapes: Shapes, r: Request) {
    && shapes.uuid(r.incidentID) && shapes.uuid(r.investigationID)
    && shapes.operation(r.operation) && shapes.repository(r.target.repository) && shapes.path(r.target.path)
    && shapes.dnsLabel(r.target.namespace) && shapes.dnsLabel(r.target.name) && shapes.dnsLabel(r.target.container)
    && (r.target.kind == "Deployment" || r.target.kind == "Secret")
    && shapes.operation(r.change.field)
    && |r.change.before| <= 64 && |r.change.after| <= 64 && shapes.utf8(r.change.before) && shapes.utf8(r.change.after)
    && 1 <= |shapes.trim(r.reason)| <= 512 && shapes.utf8(shapes.trim(r.reason))
    && 1 <= |r.evidenceIDs| <= 8
    && (forall i :: 0 <= i < |r.evidenceIDs| ==> shapes.uuid(r.evidenceIDs[i]))
    && (forall i, j :: 0 <= i < j < |r.evidenceIDs| ==> r.evidenceIDs[i] != r.evidenceIDs[j])
  }

  // Every part of a request is looked at: a valid one with one part spoilt is refused.
  lemma {:induction false} OneFlawIsRefused(shapes: Shapes, r: Request, text: string)
    requires ValidRequest(shapes, r)
    ensures !shapes.uuid(text) ==>
      !ValidRequest(shapes, r.(incidentID := text)) && !ValidRequest(shapes, r.(investigationID := text))
    ensures !shapes.operation(text) ==>
      !ValidRequest(shapes, r.(operation := text)) && !ValidRequest(shapes, r.(change := r.change.(field := text)))
    ensures !shapes.repository(text) ==> !ValidRequest(shapes, r.(target := r.target.(repository := text)))
    ensures !shapes.path(text) ==> !ValidRequest(shapes, r.(target := r.target.(path := text)))
    ensures !shapes.dnsLabel(text) ==>
      && !ValidRequest(shapes, r.(target := r.target.(namespace := text)))
      && !ValidRequest(shapes, r.(target := r.target.(name := text)))
      && !ValidRequest(shapes, r.(target := r.target.(container := text)))
    ensures text != "Deployment" && text != "Secret" ==>
      !ValidRequest(shapes, r.(target := r.target.(kind := text)))
    ensures |text| > 64 || !shapes.utf8(text) ==>
      && !ValidRequest(shapes, r.(change := r.change.(before := text)))
      && !ValidRequest(shapes, r.(change := r.change.(after := text)))
    ensures shapes.trim(text) == "" || |shapes.trim(text)| > 512 || !shapes.utf8(shapes.trim(text)) ==>
      !ValidRequest(shapes, r.(reason := text))
  {
  }

  // ... and so is one without evidence, with more than eight pieces, with one that is no ID, or with one
  // that is cited twice.
  lemma {:induction false} FlawedEvidenceIsRefused(shapes: Shapes, r: Request, ids: seq<string>)
    requires |ids| == 0 || |ids| > 8 || (exists i :: 0 <= i < |ids| && !shapes.uuid(ids[i]))
      || exists i, j :: 0 <= i < j < |ids| && ids[i] == ids[j]
    ensures !ValidRequest(shapes, r.(evidenceIDs := ids))
  {
  }

  method ValidateRequest(shapes: Shapes, r: Request) returns (ok: bool)
    ensures ok <==> ValidRequest(shapes, r)
  {
    if !shapes.uuid(r.incidentID) || !shapes.uuid(r.investigationID) { return false; }
    if !shapes.operation(r.operation) || !shapes.repository(r.target.repository) || !shapes.path(r.target.path) {
      return false;
    }
    if !shapes.dnsLabel(r.target.namespace) || !shapes.dnsLabel(r.target.name) || !shapes.dnsLabel(r.target.container)
       || (r.target.kind != "Deployment" && r.target.kind != "Secret") { return false; }
    if !shapes.operation(r.change.field) || |r.change.before| > 64 || |r.change.after| > 64
       || !shapes.utf8(r.change.before) || !shapes.utf8(r.change.after) { return false; }
    var reason := shapes.trim(r.reason);
    if |reason| == 0 || |reason| > 512 || !shapes.utf8(reason) { return false; }
    if |r.evidenceIDs| < 1 || |r.evidenceIDs| > 8 { return false; }
    var seen: set<string> := {};
    for k := 0 to |r.evidenceIDs|
      invariant forall id :: id in seen <==> id in r.evidenceIDs[..k]
      invariant forall i :: 0 <= i < k ==> shapes.uuid(r.evidenceIDs[i])
      invariant forall i, j :: 0 <= i < j < k ==> r.evidenceIDs[i] != r.evidenceIDs[j]
    {
      var id := r.evidenceIDs[k];
      if !shapes.uuid(id) || id in seen { return false; }
      seen := seen + {id};
    }
    return true;
  }

  // The limit of the first stored Deployment record that has the container.
  function StoredLimit(records: seq<Record>): string {
    if records == [] then ""
    else
      var r := records[0];
      if r.tool == GetDeployment && r.source == FromDeployment && r.resourceRef == PAYMENTS
        && ContainerLimit(r.payload).Some?
      then ContainerLimit(r.payload).value
      else StoredLimit(records[1..])
  }

  method DeploymentLimit(records: seq<Record>) returns (limit: string)
    ensures limit == StoredLimit(records)
  {
    assert records[0..] == records;
    for i := 0 to |records|
      invariant StoredLimit(records) == StoredLimit(records[i..])
    {
      assert records[i..][1..] == records[i + 1..];
      var r := records[i];
      if r.tool != GetDeployment || r.source != FromDeployment || r.resourceRef != PAYMENTS { continue; }
      var found := ContainerLimit(r.payload);
      if found.Some? { return found.value; }
    }
    return "";
  }

  predicate ShowsLimit(r: Record) {
    r.tool == GetDeployment && r.source == FromDeployment && r.resourceRef == PAYMENTS
      && ContainerLimit(r.payload).Some?
  }

  // The first of the stored records that shows a limit decides; without one there is none.
  lemma {:induction false} FirstLimitCounts(records: seq<Record>, i: nat)
    requires i <= |records| && forall k :: 0 <= k < i ==> !ShowsLimit(records[k])
    ensures i == |records| ==> StoredLimit(records) == ""
    ensures i < |records| && ShowsLimit(records[i]) ==>
      StoredLimit(records) == ContainerLimit(records[i].payload).value
  {
    if i > 0 {
      assert forall k :: 0 <= k < i - 1 ==> records[1..][k] == records[k + 1];
      FirstLimitCounts(records[1..], i - 1);
    }
  }

  lemma {:induction false} StoredLimitOfAgreeing(records: seq<Record>, limit: string)
    requires forall r :: r in records && ShowsLimit(r) ==> ContainerLimit(r.payload).value == limit
    requires exists r :: r in records && ShowsLimit(r)
    ensures StoredLimit(records) == limit
  {
    if ShowsLimit(records[0]) {
      assert records[0] in records;
    } else {
      var r :| r in records && ShowsLimit(r);
      assert r in records[1..];
      StoredLimitOfAgreeing(records[1..], limit);
    }
  }

  lemma ShownLimit(lens: Lens, r: Record, cited: seq<string>)
    requires Concrete(lens) && !lens.isMemoryLimit("") && Citations.Candidate(lens, OOMDeployment, r, cited)
    ensures ShowsLimit(r) && ContainerLimit(r.payload) == Some(lens.memoryLimitOf(r.payload))
  {
    assert lens.memoryLimitOf(r.payload) == DeploymentMemoryLimit(r.payload);
  }

  lemma OOMEvidence(lens: Lens, records: seq<Record>, cited: seq<string>) returns (pod: Record, deployment: Record)
    requires Verified(lens, MemoryLimitOOM, records, cited).Some?
    ensures Verified(lens, MemoryLimitOOM, records, cited).value.evidenceIDs == [pod.id, deployment.id]
    ensures Verified(lens, MemoryLimitOOM, records, cited).value.conclusion
      == OOMKilledAt(lens.memoryLimitOf(deployment.payload))
    ensures pod in records && deployment in records
    ensures Citations.Candidate(lens, OOMPod, pod, cited) && Citations.Candidate(lens, OOMDeployment, deployment, cited)
  {
    var picks := Picks(lens, MemoryLimitOOM, records, cited);
    Citations.ProvedCauseIsJustified(lens, MemoryLimitOOM, records, cited);
    pod, deployment := picks[0].value, picks[1].value;
  }

  lemma NamedByTwo(own: seq<string>, a: string, b: string, id: string)
    requires own == [a, b]
    ensures id in own <==> id == a || id == b
  {
  }

  lemma {:induction false} LimitOfTwo(
    lens: Lens, records: seq<Record>, cited: seq<string>, stored: seq<Record>, pod: Record, deployment: Record)
    requires Concrete(lens) && !lens.isMemoryLimit("") && DistinctIDs(records) && pod in records
      && deployment in records
    requires Citations.Candidate(lens, OOMPod, pod, cited)
      && Citations.Candidate(lens, OOMDeployment, deployment, cited)
    requires forall r :: r in stored <==> r in records && (r.id == pod.id || r.id == deployment.id)
    ensures StoredLimit(stored) == lens.memoryLimitOf(deployment.payload)
  {
    ShownLimit(lens, deployment, cited);
    forall r | r in stored && ShowsLimit(r) ensures r == deployment {
      Citations.SameRecord(records, r, if r.id == pod.id then pod else deployment);
    }
    StoredLimitOfAgreeing(stored, ContainerLimit(deployment.payload).value);
  }

  // Reloaded in any order, the records an OOM cause cites give remediation the very limit that the
  // conclusion names.
  lemma {:induction false} ReloadedLimitAgrees(
    lens: Lens, records: seq<Record>, cited: seq<string>, stored: seq<Record>)
    requires Concrete(lens) && !lens.isMemoryLimit("") && DistinctIDs(records)
    requires Verified(lens, MemoryLimitOOM, records, cited).Some?
    requires var own := Verified(lens, MemoryLimitOOM, records, cited).value.evidenceIDs;
      forall r :: r in stored <==> r in records && r.id in own
    ensures Verified(lens, MemoryLimitOOM, records, cited).value.conclusion == OOMKilledAt(StoredLimit(stored))
  {
    var own := Verified(lens, MemoryLimitOOM, records, cited).value.evidenceIDs;
    var pod, deployment := OOMEvidence(lens, records, cited);
    forall id ensures id in own <==> id == pod.id || id == deployment.id { NamedByTwo(own, pod.id, deployment.id, id); }
    LimitOfTwo(lens, records, cited, stored, pod, deployment);
  }
}

/** The evaluation of the policy: what the engine answers, checked before it is believed. */
module Evaluation {
  import opened Wrappers
  import opened Proposals
  import opened Policy
  import opened Strings
  import opened Memory
  import opened Verify

  const POLICY_VERSION := "phase10-v1"

  function Name(d: Denial): string {
    match d
    case EnvironmentNotDevelopment => "environment_not_development"
    case RepositoryNotAllowed => "repository_not_allowed"
    case PathNotAllowed => "path_not_allowed"
    case ProtectedNamespace => "protected_namespace"
    case SecretTarget => "secret_target"
    case DirectClusterMutation => "direct_cluster_mutation"
    case DestructiveOperation => "destructive_operation"
    case EvidenceNotVerified => "evidence_not_verified"
    case UnsupportedRootCause => "unsupported_root_cause"
    case UnsupportedOperation => "unsupported_operation"
    case UnsupportedTarget => "unsupported_target"
    case UnsupportedField => "unsupported_field"
    case UnsafeResourceChange => "unsafe_resource_change"
  }

  lemma NamesAreBounded(d: Denial)
    ensures 0 < |Name(d)| <= 128
  {
  }

  // Length, first and fourth letter tell the thirteen names apart.
  function Mark(text: string): (nat, char, char) {
    if |text| < 4 then (0, ' ', ' ') else (|text|, text[0], text[3])
  }

  function MarkOf(d: Denial): (nat, char, char) {
    match d
    case EnvironmentNotDevelopment => (27, 'e', 'i')
    case RepositoryNotAllowed => (22, 'r', 'o')
    case PathNotAllowed => (16, 'p', 'h')
    case ProtectedNamespace => (19, 'p', 't')
    case SecretTarget => (13, 's', 'r')
    case DirectClusterMutation => (23, 'd', 'e')
    case DestructiveOperation => (21, 'd', 't')
    case EvidenceNotVerified => (21, 'e', 'd')
    case UnsupportedRootCause => (22, 'u', 'u')
    case UnsupportedOperation => (21, 'u', 'u')
    case UnsupportedTarget => (18, 'u', 'u')
    case UnsupportedField => (17, 'u', 'u')
    case UnsafeResourceChange => (22, 'u', 'a')
  }

  lemma NamesAreMarked(d: Denial)
    ensures Mark(Name(d)) == MarkOf(d)
  {
  }

  // No two denials have one name.
  lemma {:induction false} NamesDiffer(d: Denial, d': Denial)
    requires Name(d) == Name(d')
    ensures d == d'
  {
    NamesAreMarked(d);
    NamesAreMarked(d');
  }

  lemma {:induction false} NamedIff(deny: set<Denial>, names: seq<string>, d: Denial)
    requires forall name :: name in names <==> exists e :: e in deny && name == Name(e)
    ensures Name(d) in names <==> d in deny
  {
    if Name(d) in names {
      var e :| e in deny && Name(d) == Name(e);
      NamesDiffer(d, e);
    }
  }

  // As many names as there are different ones among them: each comes once.
  lemma {:induction false} EachOnce(names: seq<string>, deny: set<Denial>)
    requires |names| == |deny| && forall name :: name in names <==> exists d :: d in deny && name == Name(d)
    ensures forall i, j :: 0 <= i < j < |names| ==> names[i] != names[j]
    decreases |names|
  {
    forall i, j | 0 <= i < j < |names| ensures names[i] != names[j] {
      if names[i] == names[j] {
        var rest := names[..j] + names[j + 1..];
        ghost var all := set d <- deny :: Name(d);
        SameSize(deny, all);
        forall name | name in all ensures name in rest {
          assert name in names;
          var k :| 0 <= k < |names| && names[k] == name;
          if k < j { assert rest[k] == name; }
          else if k > j { assert rest[k - 1] == name; }
          else { assert rest[i] == name; }
        }
        assert all <= set name | name in rest;
        AtMostAsMany(rest);
        Fewer(all, set name | name in rest);
      }
    }
  }

  lemma {:induction false} Fewer<T>(a: set<T>, b: set<T>)
    requires a <= b
    ensures |a| <= |b|
  {
    if a != {} {
      var x :| x in a;
      Fewer(a - {x}, b - {x});
    }
  }

  lemma {:induction false} AtMostAsMany(s: seq<string>)
    ensures |set x | x in s| <= |s|
  {
    if s != [] {
      AtMostAsMany(s[1..]);
      assert s == [s[0]] + s[1..];
      assert (set x | x in s) == {s[0]} + set x | x in s[1..];
    }
  }

  lemma {:induction false} SameSize(deny: set<Denial>, all: set<string>)
    requires all == set d <- deny :: Name(d)
    ensures |all| == |deny|
    decreases |deny|
  {
    if deny != {} {
      var d :| d in deny;
      var fewer := set e <- deny - {d} :: Name(e);
      forall e | e in deny && Name(e) == Name(d) ensures e == d { NamesDiffer(e, d); }
      assert all - {Name(d)} == fewer && Name(d) in all;
      SameSize(deny - {d}, fewer);
    }
  }

  predicate ReasonOk(value: Option<string>) {
    value.Some? && 0 < |value.value| <= 128
  }

  // An answer is believed exactly when every reason is a short text and `allow` agrees with there
  // being none.
  method CheckAnswer(allowed: bool, values: seq<Option<string>>) returns (r: Result<PolicyDecision>)
    ensures r.Ok? <==>
      && (forall i :: 0 <= i < |values| ==> values[i].Some? && 0 < |values[i].value| <= 128)
      && (allowed <==> values == [])
    ensures r.Ok? ==>
      && r.value.allowed == allowed && r.value.policyVersion == POLICY_VERSION
      && |r.value.reasons| == |values| && forall i :: 0 <= i < |values| ==> Some(r.value.reasons[i]) == values[i]
  {
    var reasons := [];
    for i := 0 to |values|
      invariant |reasons| == i
      invariant forall j :: 0 <= j < i ==> ReasonOk(values[j]) && Some(reasons[j]) == values[j]
    {
      if !ReasonOk(values[i]) { return Err("remediation policy returned an invalid reason"); }
      reasons := reasons + [values[i].value];
    }
    if (allowed && |reasons| != 0) || (!allowed && |reasons| == 0) {
      return Err("remediation policy returned an inconsistent decision");
    }
    return Ok(PolicyDecision(allowed, reasons, POLICY_VERSION));
  }

  ghost predicate NamesOf(deny: set<Denial>, reasons: seq<string>) {
    forall name :: name in reasons <==> exists d :: d in deny && name == Name(d)
  }

  // sort(deny): the names of the set in order.
  method SortedNames(deny: set<Denial>) returns (names: seq<string>)
    ensures Sorted(names) && |names| == |deny|
    ensures forall name :: name in names <==> exists d :: d in deny && name == Name(d)
  {
    var left, list := deny, [];
    while left != {}
      invariant left <= deny && |list| + |left| == |deny|
      invariant forall name :: name in list <==> exists d :: d in deny - left && name == Name(d)
      decreases left
    {
      var d :| d in left;
      ghost var before, listBefore := left, list;
      left, list := left - {d}, list + [Name(d)];
      forall name ensures name in list <==> exists e :: e in deny - left && name == Name(e) {
        if name in list {
          if name == Name(d) { assert d in deny - left; }
          else { var e :| e in deny - before && name == Name(e); assert e in deny - left; }
        }
      }
    }
    names := SortStrings(list);
    assert forall name :: name in names <==> name in multiset(names);
    assert forall name :: name in list <==> name in multiset(list);
    assert |names| == |multiset(names)| == |multiset(list)| == |list|;
    assert deny - {} == deny;
  }

  // The policy's own answer is always believed, and it allows exactly when nothing is denied.
  method Answer(deny: set<Denial>) returns (r: Result<PolicyDecision>)
    ensures r.Ok? && (r.value.allowed <==> deny == {}) && (r.value.allowed <==> r.value.reasons == [])
    ensures r.value.policyVersion == POLICY_VERSION
    ensures Sorted(r.value.reasons) && |r.value.reasons| == |deny| && NamesOf(deny, r.value.reasons)
  {
    var names := SortedNames(deny);
    var values := seq(|names|, i requires 0 <= i < |names| => Some(names[i]));
    forall i | 0 <= i < |values| ensures ReasonOk(values[i]) {
      assert names[i] in names;
      var d :| d in deny && names[i] == Name(d);
      NamesAreBounded(d);
    }
    r := CheckAnswer(|deny| == 0, values);
    assert r.value.reasons == names;
  }

  method Evaluate(input: Input) returns (r: Result<PolicyDecision>)
    ensures r.Ok? && (r.value.allowed <==> Deny(input) == {}) && (r.value.allowed <==> r.value.reasons == [])
    ensures r.value.policyVersion == POLICY_VERSION
    ensures Sorted(r.value.reasons) && |r.value.reasons| == |Deny(input)| && NamesOf(Deny(input), r.value.reasons)
  {
    r := Answer(Deny(input));
  }

  // --- the reasons of a decision

  // The change raises the limit that the evidence shows, to at most 512Mi and at most fourfold.
  ghost predicate SafeChange(change: Change, observed: string) {
    var before, after := MemoryMiB(change.before), MemoryMiB(change.after);
    && before.Some? && after.Some? && MemoryMiB(observed) == before
    && before.value < after.value <= 512 && after.value <= 4 * before.value
  }

  // Each reason is given exactly when the request, the configuration or the evidence deserves it.
  ghost predicate PlaceReasons(config: Trusted, request: Request, reasons: seq<string>) {
    && ("environment_not_development" in reasons <==> config.environment != "development")
    && ("repository_not_allowed" in reasons <==> request.target.repository != config.repository)
    && ("path_not_allowed" in reasons <==> request.target.path != config.allowedPath)
  }

  ghost predicate TargetReasons(request: Request, reasons: seq<string>) {
    && ("protected_namespace" in reasons <==> request.target.namespace != "incidentpilot-demo")
    && ("unsupported_target" in reasons <==>
          request.target.kind != "Deployment" || request.target.name != "payments-api"
            || request.target.container != "payments-api")
    && ("secret_target" in reasons <==>
          Lower(request.target.kind) == "secret" || request.operation == "modify_secret")
  }

  ghost predicate ActionReasons(request: Request, reasons: seq<string>) {
    && ("direct_cluster_mutation" in reasons <==> request.operation == "direct_cluster_patch")
    && ("destructive_operation" in reasons <==> request.operation == "delete_resource")
    && ("unsupported_operation" in reasons <==> request.operation != "update_resource_limit")
  }

  ghost predicate ChangeReasons(request: Request, cause: Cause, observed: string, reasons: seq<string>) {
    && ("unsupported_field" in reasons <==> request.change.field != "memory_limit")
    && ("unsupported_root_cause" in reasons <==> cause != MemoryLimitOOM)
    && ("unsafe_resource_change" in reasons <==> !SafeChange(request.change, observed))
  }

  const REASONS: set<string> := {
    "environment_not_development", "repository_not_allowed", "path_not_allowed", "protected_namespace",
    "unsupported_target", "secret_target", "direct_cluster_mutation", "destructive_operation",
    "unsupported_operation", "unsupported_field", "unsupported_root_cause", "unsafe_resource_change"
  }

  // In alphabetical order, each once, and no others.
  ghost predicate Explained(
    config: Trusted, request: Request, cause: Cause, observed: string, reasons: seq<string>) {
    && PlaceReasons(config, request, reasons) && TargetReasons(request, reasons)
    && ActionReasons(request, reasons) && ChangeReasons(request, cause, observed, reasons)
    && (forall reason :: reason in reasons ==> reason in REASONS)
    && Sorted(reasons) && forall i, j :: 0 <= i < j < |reasons| ==> reasons[i] != reasons[j]
  }

  // Denial by denial, when it is given.
  ghost predicate Rule(i: Input, d: Denial) {
    match d
    case EnvironmentNotDevelopment => i.environment != "development"
    case RepositoryNotAllowed => !i.repositoryAllowed
    case PathNotAllowed => !i.pathAllowed
    case ProtectedNamespace => i.protectedNamespace
    case SecretTarget => i.secretTarget
    case DirectClusterMutation => i.directMutation
    case DestructiveOperation => i.destructive
    case EvidenceNotVerified => !i.evidenceVerified
    case UnsupportedRootCause => !i.rootCause.MemoryLimitOOM?
    case UnsupportedOperation => i.operation != "update_resource_limit"
    case UnsupportedTarget =>
      i.targetKind != "Deployment" || i.targetName != "payments-api" || i.container != "payments-api"
    case UnsupportedField => i.field != "memory_limit"
    case UnsafeResourceChange => !i.resourceChangeSafe
  }

  lemma {:induction false} PlaceDenied(i: Input, d: Denial)
    ensures d in DenyPlace(i) <==>
      Rule(i, d) && (d.EnvironmentNotDevelopment? || d.RepositoryNotAllowed? || d.PathNotAllowed?
        || d.ProtectedNamespace? || d.SecretTarget?)
  {
  }

  lemma {:induction false} ActionDenied(i: Input, d: Denial)
    ensures d in DenyAction(i) <==>
      Rule(i, d) && (d.DirectClusterMutation? || d.DestructiveOperation? || d.EvidenceNotVerified?
        || d.UnsupportedRootCause? || d.UnsupportedOperation?)
  {
  }

  lemma {:induction false} ChangeDenied(i: Input, d: Denial)
    ensures d in DenyChange(i) <==>
      Rule(i, d) && (d.UnsupportedTarget? || d.UnsupportedField? || d.UnsafeResourceChange?)
  {
  }

  lemma {:induction false} DeniedIff(i: Input, d: Denial)
    ensures d in Deny(i) <==> Rule(i, d)
  {
    PlaceDenied(i, d);
    ActionDenied(i, d);
    ChangeDenied(i, d);
  }

  lemma {:induction false} SafeIsDerived(config: Trusted, request: Request, cause: Cause, observed: string)
    ensures Derive(config, request, cause, observed).resourceChangeSafe <==> SafeChange(request.change, observed)
  {
  }

  // Of the denials exactly those whose rule applies are named.
  ghost predicate Ruled(i: Input, reasons: seq<string>) {
    forall d :: Name(d) in reasons <==> Rule(i, d)
  }

  lemma {:induction false} NamedAreRuled(i: Input, reasons: seq<string>)
    requires NamesOf(Deny(i), reasons)
    ensures Ruled(i, reasons)
  {
    forall d ensures Name(d) in reasons <==> Rule(i, d) {
      NamedIff(Deny(i), reasons, d);
      DeniedIff(i, d);
    }
  }

  // A reason by its text.
  lemma {:induction false} TextIff(i: Input, reasons: seq<string>, d: Denial, text: string)
    requires Ruled(i, reasons) && text == Name(d)
    ensures text in reasons <==> Rule(i, d)
  {
  }

  lemma {:induction false} PlaceExplained(
    config: Trusted, request: Request, cause: Cause, observed: string, reasons: seq<string>)
    requires Ruled(Derive(config, request, cause, observed), reasons)
    ensures PlaceReasons(config, request, reasons)
  {
    var i := Derive(config, request, cause, observed);
    TextIff(i, reasons, EnvironmentNotDevelopment, "environment_not_development");
    TextIff(i, reasons, RepositoryNotAllowed, "repository_not_allowed");
    TextIff(i, reasons, PathNotAllowed, "path_not_allowed");
  }

  lemma {:induction false} TargetExplained(
    config: Trusted, request: Request, cause: Cause, observed: string, reasons: seq<string>)
    requires Ruled(Derive(config, request, cause, observed), reasons)
    ensures TargetReasons(request, reasons)
  {
    var i := Derive(config, request, cause, observed);
    TextIff(i, reasons, ProtectedNamespace, "protected_namespace");
    TextIff(i, reasons, UnsupportedTarget, "unsupported_target");
    TextIff(i, reasons, SecretTarget, "secret_target");
  }

  lemma {:induction false} ActionExplained(
    config: Trusted, request: Request, cause: Cause, observed: string, reasons: seq<string>)
    requires Ruled(Derive(config, request, cause, observed), reasons)
    ensures ActionReasons(request, reasons)
  {
    var i := Derive(config, request, cause, observed);
    TextIff(i, reasons, DirectClusterMutation, "direct_cluster_mutation");
    TextIff(i, reasons, DestructiveOperation, "destructive_operation");
    TextIff(i, reasons, UnsupportedOperation, "unsupported_operation");
  }

  lemma {:induction false} ChangeExplained(
    config: Trusted, request: Request, cause: Cause, observed: string, reasons: seq<string>)
    requires Ruled(Derive(config, request, cause, observed), reasons)
    ensures ChangeReasons(request, cause, observed, reasons)
  {
    var i := Derive(config, request, cause, observed);
    TextIff(i, reasons, UnsupportedField, "unsupported_field");
    TextIff(i, reasons, UnsupportedRootCause, "unsupported_root_cause");
    UnsafeExplained(config, request, cause, observed, reasons);
  }

  lemma {:induction false} UnsafeExplained(
    config: Trusted, request: Request, cause: Cause, observed: string, reasons: seq<string>)
    requires Ruled(Derive(config, request, cause, observed), reasons)
    ensures "unsafe_resource_change" in reasons <==> !SafeChange(request.change, observed)
  {
    SafeIsDerived(config, request, cause, observed);
    TextIff(Derive(config, request, cause, observed), reasons, UnsafeResourceChange, "unsafe_resource_change");
  }

  lemma {:induction false} OnlyReasons(
    config: Trusted, request: Request, cause: Cause, observed: string, reasons: seq<string>)
    requires NamesOf(Deny(Derive(config, request, cause, observed)), reasons)
    ensures forall reason :: reason in reasons ==> reason in REASONS
  {
    forall reason | reason in reasons ensures reason in REASONS {
      var d :| d in Deny(Derive(config, request, cause, observed)) && reason == Name(d);
      DeniedIff(Derive(config, request, cause, observed), d);
      assert d != EvidenceNotVerified;
      NameIsReason(d);
    }
  }

  lemma NameIsReason(d: Denial)
    requires d != EvidenceNotVerified
    ensures Name(d) in REASONS
  {
  }

  // What the policy answers to a request, in terms of the request itself.
  lemma {:induction false} DenialsAreExplained(
    config: Trusted, request: Request, cause: Cause, observed: string, reasons: seq<string>)
    requires NamesOf(Deny(Derive(config, request, cause, observed)), reasons) && Sorted(reasons)
    requires |reasons| == |Deny(Derive(config, request, cause, observed))|
    ensures Explained(config, request, cause, observed, reasons)
  {
    NamedAreRuled(Derive(config, request, cause, observed), reasons);
    PlaceExplained(config, request, cause, observed, reasons);
    TargetExplained(config, request, cause, observed, reasons);
    ActionExplained(config, request, cause, observed, reasons);
    ChangeExplained(config, request, cause, observed, reasons);
    OnlyReasons(config, request, cause, observed, reasons);
    EachOnce(reasons, Deny(Derive(config, request, cause, observed)));
  }

  // There is nothing to say against what the policy permits.
  lemma {:induction false} PermittedIsExplained(config: Trusted, request: Request, cause: Cause, observed: string)
    requires Permitted(config, request, cause, observed)
    ensures Explained(config, request, cause, observed, [])
  {
    DeniedNothingIff(config, request, cause, observed);
    assert NamesOf({}, []);
    DenialsAreExplained(config, request, cause, observed, []);
  }
}

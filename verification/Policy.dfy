/** Memory quantities of the form "[1-9][0-9]{0,3}Mi". */
module Memory {
  import opened Wrappers
  import Summaries

  predicate Digit(ch: char) { '0' <= ch <= '9' }

  predicate Canonical(digits: string) {
    digits != "" && digits[0] != '0' && forall i :: 0 <= i < |digits| ==> Digit(digits[i])
  }

  function DigitValue(ch: char): (n: nat)
    requires Digit(ch)
    ensures n <= 9
  {
    assert ch as int >= '0' as int;
    ch as int - '0' as int
  }

  // strconv.Atoi on digits.
  function Value(digits: string): nat
    requires forall i :: 0 <= i < |digits| ==> Digit(digits[i])
  {
    if digits == "" then 0
    else 10 * Value(digits[..|digits| - 1]) + DigitValue(digits[|digits| - 1])
  }

  function MemoryMiB(text: string): Option<nat> {
    if 3 <= |text| <= 6 && text[|text| - 2..] == "Mi" && Canonical(text[..|text| - 2]) then
      Some(Value(text[..|text| - 2]))
    else None
  }

  lemma {:induction false} CanonicalIsPositive(digits: string)
    requires Canonical(digits)
    ensures Value(digits) >= 1 && (|digits| > 1 ==> Value(digits) >= 10)
  {
    if |digits| > 1 { CanonicalIsPositive(digits[..|digits| - 1]); } else { assert digits[..0] == ""; }
  }

  lemma {:induction false} ValueIsInjective(a: string, b: string)
    requires Canonical(a) && Canonical(b) && Value(a) == Value(b)
    ensures a == b
  {
    var a', b' := a[..|a| - 1], b[..|b| - 1];
    assert Value(a) / 10 == Value(a') && Value(a) % 10 == DigitValue(a[|a| - 1]);
    assert Value(b) / 10 == Value(b') && Value(b) % 10 == DigitValue(b[|b| - 1]);
    if a' != "" && b' != "" {
      ValueIsInjective(a', b');
    } else {
      CanonicalIsPositive(a);
      CanonicalIsPositive(b);
      assert a' == "" <==> b' == "" by {
        if a' != "" { CanonicalIsPositive(a'); }
        if b' != "" { CanonicalIsPositive(b'); }
      }
    }
    assert a == a' + [a[|a| - 1]] && b == b' + [b[|b| - 1]];
  }

  lemma {:induction false} DecimalIsRead(n: nat)
    ensures var text := Summaries.Decimal(n);
      && (forall i :: 0 <= i < |text| ==> Digit(text[i])) && Value(text) == n && (n > 0 ==> Canonical(text))
  {
    var text := Summaries.Decimal(n);
    if n < 10 {
      DigitIsRead(n);
      assert text[..0] == "" && text == [text[0]];
    } else {
      DecimalIsRead(n / 10);
      DigitIsRead(n % 10);
      var front := Summaries.Decimal(n / 10);
      assert text[..|text| - 1] == front && text[|text| - 1] == Summaries.Digit(n % 10);
      assert text[0] == front[0];
    }
  }

  lemma DigitIsRead(d: nat)
    requires d < 10
    ensures Digit(Summaries.Digit(d)) && DigitValue(Summaries.Digit(d)) == d
      && (Summaries.Digit(d) == '0' <==> d == 0)
  {
  }

  lemma {:induction false} ValueIsBounded(digits: string, k: nat)
    requires (forall i :: 0 <= i < |digits| ==> Digit(digits[i])) && |digits| <= k
    ensures Value(digits) < Summaries.Power(k)
  {
    if digits == "" {
      if k > 0 { ValueIsBounded("", k - 1); }
    } else {
      ValueIsBounded(digits[..|digits| - 1], k - 1);
    }
  }

  lemma {:induction false} FourDigits()
    ensures Summaries.Power(4) == 10000
  {
    assert Summaries.Power(0) == 1 && Summaries.Power(1) == 10 && Summaries.Power(2) == 100;
    assert Summaries.Power(3) == 1000;
  }

  // The accepted texts are the decimal forms of 1 to 9999 followed by the unit, and mean that number.
  lemma {:induction false} MemoryMiBIff(text: string, n: nat)
    ensures MemoryMiB(text) == Some(n) <==> 1 <= n <= 9999 && text == Summaries.Decimal(n) + "Mi"
  {
    FourDigits();
    if 1 <= n <= 9999 { WrittenIsRead(n); }
    if MemoryMiB(text) == Some(n) {
      var digits := text[..|text| - 2];
      CanonicalIsPositive(digits);
      ValueIsBounded(digits, 4);
      MemoryMiBIsInjective(text, Summaries.Decimal(n) + "Mi");
    }
  }

  lemma {:induction false} WrittenIsRead(n: nat)
    requires 1 <= n <= 9999
    ensures MemoryMiB(Summaries.Decimal(n) + "Mi") == Some(n)
  {
    var digits := Summaries.Decimal(n);
    DecimalIsRead(n);
    FourDigits();
    Summaries.DecimalIsShort(n, 4);
    var text := digits + "Mi";
    assert text[..|text| - 2] == digits && text[|text| - 2..] == "Mi";
  }

  // Equal amounts are written the same way.
  lemma MemoryMiBIsInjective(a: string, b: string)
    requires MemoryMiB(a).Some? && MemoryMiB(a) == MemoryMiB(b)
    ensures a == b
  {
    ValueIsInjective(a[..|a| - 2], b[..|b| - 2]);
    assert a == a[..|a| - 2] + "Mi" && b == b[..|b| - 2] + "Mi";
  }
}

/** The remediation policy and the input the service derives for it. */
module Policy {
  import opened Wrappers
  import opened Proposals
  import opened Memory
  import opened Verify
  import opened Strings

  datatype Trusted = Trusted(environment: string, repository: string, allowedPath: string)

  datatype Request = Request(
    incidentID: string, investigationID: string, operation: string, target: Target, change: Change,
    reason: string, evidenceIDs: seq<string>)

  datatype Input = Input(
    environment: string, repositoryAllowed: bool, pathAllowed: bool, operation: string,
    targetKind: string, targetName: string, container: string, field: string,
    protectedNamespace: bool, secretTarget: bool, directMutation: bool, destructive: bool,
    evidenceVerified: bool, rootCause: Cause, resourceChangeSafe: bool)

  function Derive(config: Trusted, request: Request, rootCause: Cause, observedLimit: string): Input {
    var before, after := MemoryMiB(request.change.before), MemoryMiB(request.change.after);
    var observed := MemoryMiB(observedLimit);
    Input(
      config.environment, request.target.repository == config.repository, request.target.path == config.allowedPath,
      request.operation, request.target.kind, request.target.name, request.target.container, request.change.field,
      request.target.namespace != "incidentpilot-demo",
      Lower(request.target.kind) == "secret" || request.operation == "modify_secret",
      request.operation == "direct_cluster_patch", request.operation == "delete_resource",
      true, rootCause,
      before.Some? && after.Some? && observed.Some? && before.value == observed.value
        && after.value > before.value && after.value <= 512 && after.value <= before.value * 4)
  }

  datatype Denial =
    | EnvironmentNotDevelopment | RepositoryNotAllowed | PathNotAllowed | ProtectedNamespace | SecretTarget
    | DirectClusterMutation | DestructiveOperation | EvidenceNotVerified | UnsupportedRootCause
    | UnsupportedOperation | UnsupportedTarget | UnsupportedField | UnsafeResourceChange

  function If(condition: bool, denial: Denial): set<Denial> { if condition then {denial} else {} }

  // The deny rules: on the environment and the place, on the way the change is made, on the change.
  function DenyPlace(input: Input): set<Denial> {
    If(input.environment != "development", EnvironmentNotDevelopment)
    + If(!input.repositoryAllowed, RepositoryNotAllowed)
    + If(!input.pathAllowed, PathNotAllowed)
    + If(input.protectedNamespace, ProtectedNamespace)
    + If(input.secretTarget, SecretTarget)
  }

  function DenyAction(input: Input): set<Denial> {
    If(input.directMutation, DirectClusterMutation)
    + If(input.destructive, DestructiveOperation)
    + If(!input.evidenceVerified, EvidenceNotVerified)
    + If(!input.rootCause.MemoryLimitOOM?, UnsupportedRootCause)
    + If(input.operation != "update_resource_limit", UnsupportedOperation)
  }

  function DenyChange(input: Input): set<Denial> {
    If(input.targetKind != "Deployment", UnsupportedTarget)
    + If(input.targetName != "payments-api", UnsupportedTarget)
    + If(input.container != "payments-api", UnsupportedTarget)
    + If(input.field != "memory_limit", UnsupportedField)
    + If(!input.resourceChangeSafe, UnsafeResourceChange)
  }

  function Deny(input: Input): set<Denial> { DenyPlace(input) + DenyAction(input) + DenyChange(input) }

  // What a caller can read off a request before sending it.
  ghost predicate Permitted(config: Trusted, request: Request, rootCause: Cause, observedLimit: string) {
    var before, after := MemoryMiB(request.change.before), MemoryMiB(request.change.after);
    && config.environment == "development"
    && request.target == Target(
         config.repository, config.allowedPath, "incidentpilot-demo", "Deployment", "payments-api", "payments-api")
    && request.operation == "update_resource_limit"
    && request.change.field == "memory_limit"
    && rootCause == MemoryLimitOOM
    && request.change.before == observedLimit
    && before.Some? && after.Some?
    && before.value < after.value <= 512
    && after.value <= 4 * before.value
  }

  // The rules deny nothing exactly for the one repair the policy is for: the change names, as text,
  // the limit the evidence shows, and raises it to at most 512Mi and at most fourfold.
  lemma DeniedNothingIff(config: Trusted, request: Request, rootCause: Cause, observedLimit: string)
    ensures Deny(Derive(config, request, rootCause, observedLimit)) == {} <==>
      Permitted(config, request, rootCause, observedLimit)
  {
    var input := Derive(config, request, rootCause, observedLimit);
    NothingDenied(input);
    if request.target.kind == "Deployment" {
      assert |Lower(request.target.kind)| == 10;
      assert Lower(request.target.kind) != "secret";
    }
    if input.resourceChangeSafe {
      MemoryMiBIsInjective(request.change.before, observedLimit);
    }
  }

  lemma NothingDenied(i: Input)
    ensures Deny(i) == {} <==>
      && i.environment == "development" && i.repositoryAllowed && i.pathAllowed
      && !i.protectedNamespace && !i.secretTarget && !i.directMutation && !i.destructive
      && i.evidenceVerified && i.rootCause.MemoryLimitOOM? && i.operation == "update_resource_limit"
      && i.targetKind == "Deployment" && i.targetName == "payments-api" && i.container == "payments-api"
      && i.field == "memory_limit" && i.resourceChangeSafe
  {
  }
}

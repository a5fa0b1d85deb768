/** The remediation request end to end: gate, policy, executor, record. */
module Service {
  import opened Wrappers
  import opened GitHub
  import opened Attempts
  import opened Proposals
  import opened Records
  import opened Verify
  import opened Reports
  import opened Policy
  import opened Strings
  import opened Client
  import opened Remediation
  import opened Evaluation
  import opened Evaluations
  import opened Store
  import opened Patch
  import opened Meaning

  predicate HTTPS(url: string) { 9 <= |url| <= 2048 && "https://" <= url }

  predicate ValidCreated(shapes: Shapes, pr: PullRequest, repository: string) {
    && 1 <= pr.number <= 1_000_000_000 && pr.repository == repository
    && shapes.branch(pr.baseBranch) && shapes.branch(pr.headBranch) && pr.commit.Some?
    && HTTPS(shapes.pullURL(pr.number))
  }

  // The record of what the executor reported; None when there is no executor.
  function RecordOf(shapes: Shapes, repository: string, created: Option<PullRequest>): PullRequest {
    var failed := PullRequest(PRFailed, repository, "", "", 0, None, false, "github_not_configured");
    if created.None? then failed
    else
      var pr := created.value;
      if pr.failureCode != "" then
        failed.(baseBranch := if shapes.branch(pr.baseBranch) then pr.baseBranch else "",
                headBranch := if shapes.branch(pr.headBranch) then pr.headBranch else "",
                failureCode := if shapes.failureCode(pr.failureCode) then pr.failureCode else "github_action_failed")
      else if ValidCreated(shapes, pr, repository) then pr.(status := PRCreated)
      else failed.(failureCode := "github_invalid_result")
  }

  predicate TrustedIsValid(shapes: Shapes, config: Trusted) {
    config.environment != "" && shapes.repository(config.repository) && shapes.path(config.allowedPath)
  }

  // What must hold before the policy is asked.
  ghost predicate Eligible(
    shapes: Shapes, config: Trusted, request: Request, report: Option<Report>, stored: Option<seq<Record>>) {
    && ValidRequest(shapes, request)
    && config.environment != "" && shapes.repository(config.repository) && shapes.path(config.allowedPath)
    && report.Some? && report.value.incidentID == request.incidentID
    && report.value.rootCauseFound && report.value.rootCause.Some?
    && multiset(request.evidenceIDs) == multiset(report.value.rootCause.value.evidenceIDs)
    && stored.Some? && |stored.value| == |request.evidenceIDs|
  }

  // What must hold before anything is executed.
  ghost predicate Gate(
    shapes: Shapes, config: Trusted, request: Request, report: Option<Report>, stored: Option<seq<Record>>) {
    && Eligible(shapes, config, request, report, stored)
    && Permitted(config, request, report.value.rootCause.value.cause, StoredLimit(stored.value))
  }

  function ProposalOf(shapes: Shapes, request: Request, status: Status): Proposal {
    Proposal(request.incidentID, request.investigationID, request.operation, request.target, request.change,
             shapes.trim(request.reason), request.evidenceIDs, status)
  }

  datatype Findings = Findings(cause: Cause, observed: string)

  method CheckRequest(
    shapes: Shapes, config: Trusted, request: Request, report: Option<Report>, stored: Option<seq<Record>>)
    returns (r: Result<Findings>)
    ensures r.Ok? <==> Eligible(shapes, config, request, report, stored)
    ensures r.Ok? ==> r.value == Findings(report.value.rootCause.value.cause, StoredLimit(stored.value))
  {
    var valid := ValidateRequest(shapes, request);
    if !valid { return Err("invalid remediation proposal"); }
    if !TrustedIsValid(shapes, config) { return Err("trusted remediation configuration is invalid"); }
    if report.None? { return Err("load investigation"); }
    if report.value.incidentID != request.incidentID || !report.value.rootCauseFound || report.value.rootCause.None? {
      return Err("proposal requires a verified root-cause investigation");
    }
    var cause := report.value.rootCause.value;
    var same := SameIDs(request.evidenceIDs, cause.evidenceIDs);
    if !same { return Err("proposal evidence must exactly match the verified root cause"); }
    if stored.None? { return Err("verify evidence"); }
    if |stored.value| != |request.evidenceIDs| { return Err("proposal evidence is not persisted for the incident"); }
    var observed := DeploymentLimit(stored.value);
    return Ok(Findings(cause.cause, observed));
  }

  // --- one request, as a relation between states

  // Everything a sequence of requests shares: configuration, manifest parser, base branch, and the
  // faults and other writers that each numbered call meets.
  datatype Setup = Setup(shapes: Shapes, config: Trusted, parse: Parser, base: string, env: Env)

  datatype Snapshot = Snapshot(world: World, calls: nat, tables: Tables)

  // A request with the ID generated for its proposal, what the source answers, and where its save
  // breaks off.
  datatype Question = Question(
    id: string, request: Request, report: Option<Report>, stored: Option<seq<Record>>, at: Break)

  ghost predicate Passes(setup: Setup, q: Question) { Gate(setup.shapes, setup.config, q.request, q.report, q.stored) }

  function HeadOf(q: Question): string { RemediationBranch(q.request.investigationID) }

  function ConfigOfQuestion(setup: Setup, q: Question): Config {
    ConfigFor(setup.parse, ProposalOf(setup.shapes, q.request, PRFailed), HeadOf(q), setup.base)
  }

  function AttemptFor(setup: Setup, s: Snapshot, q: Question): Ending {
    Finish(ConfigOfQuestion(setup, q), LookUp, s.world, setup.env, s.calls)
  }

  function PullFor(setup: Setup, s: Snapshot, q: Question): PullRequest {
    RecordOf(setup.shapes, setup.config.repository,
             Some(Reported(setup.config.repository, setup.base, HeadOf(q), AttemptFor(setup, s, q).outcome)))
  }

  // The cause and the limit that the policy is asked about.
  ghost predicate Found(q: Question, cause: Cause, observed: string) {
    && q.report.Some? && q.report.value.rootCause.Some? && q.report.value.rootCause.value.cause == cause
    && q.stored.Some? && StoredLimit(q.stored.value) == observed
  }

  // The decision is the policy's, with its reasons.
  ghost predicate DecidedOn(config: Trusted, q: Question, decision: PolicyDecision) {
    && q.report.Some? && q.report.value.rootCause.Some? && q.stored.Some?
    && decision.policyVersion == "phase10-v1"
    && Explained(config, q.request, q.report.value.rootCause.value.cause, StoredLimit(q.stored.value), decision.reasons)
  }

  ghost predicate KeptFor(
    shapes: Shapes, config: Trusted, q: Question, e: Evaluated, allowed: bool, pull: PullRequest) {
    && Consistent(e) && DecidedOn(config, q, e.decision)
    && e.decision.allowed == allowed
    && (allowed ==> e.pull == Some(pull))
    && e.proposal == ProposalOf(shapes, q.request, e.proposal.status)
  }

  // The evaluation is kept whole, or nothing is; and it is returned exactly when its save is
  // acknowledged.
  ghost predicate Keeps(
    shapes: Shapes, config: Trusted, q: Question, before: Tables, after: Tables, r: Result<Evaluated>, allowed: bool,
    pull: PullRequest)
  {
    var fits := q.id !in before.proposals && Commits(q.at, Statements(allowed));
    && Joined(after)
    && (forall other :: other != q.id ==> Load(after, other) == Load(before, other))
    && (if !fits then after == before
        else Load(after, q.id).Some? && KeptFor(shapes, config, q, Load(after, q.id).value, allowed, pull))
    && (r.Ok? <==> fits && !q.at.AfterCommit?)
    && (r.Ok? ==> Load(after, q.id) == Some(r.value))
  }

  // A save of a decided evaluation keeps it.
  lemma {:induction false} SavedIsKept(
    shapes: Shapes, config: Trusted, q: Question, before: Tables, after: Tables, e: Evaluated, ok: bool,
    pull: PullRequest)
    requires Joined(after) && forall other :: other != q.id ==> Load(after, other) == Load(before, other)
    requires var fits := q.id !in before.proposals && Commits(q.at, Statements(e.pull.Some?));
      && (if fits then Load(after, q.id) == Some(e) else after == before)
      && (ok <==> fits && !q.at.AfterCommit?)
    requires KeptFor(shapes, config, q, e, e.decision.allowed, pull)
    ensures Keeps(shapes, config, q, before, after, if ok then Ok(e) else Err("persist remediation decision"),
              e.decision.allowed, pull)
  {
  }

  ghost predicate Responds(
    shapes: Shapes, config: Trusted, q: Question, before: Tables, after: Tables, r: Result<Evaluated>,
    pull: PullRequest) {
    if Eligible(shapes, config, q.request, q.report, q.stored) then
      Keeps(shapes, config, q, before, after, r, Gate(shapes, config, q.request, q.report, q.stored), pull)
    else after == before && r.Err?
  }

  ghost predicate Reaches(setup: Setup, s: Snapshot, q: Question, s': Snapshot, allowed: bool) {
    if allowed then s'.world == AttemptFor(setup, s, q).world && s'.calls == AttemptFor(setup, s, q).calls
    else s'.world == s.world && s'.calls == s.calls
  }

  // One request: it reaches GitHub exactly when its gate passes, and then runs one attempt.
  ghost predicate Serves(setup: Setup, s: Snapshot, q: Question, s': Snapshot, r: Result<Evaluated>) {
    && Responds(setup.shapes, setup.config, q, s.tables, s'.tables, r, PullFor(setup, s, q))
    && Reaches(setup, s, q, s', Passes(setup, q))
  }

  class RemediationService {
    const shapes: Shapes
    const config: Trusted
    const client: Option<GitHubClient>
    const store: RemediationStore

    constructor (shapes: Shapes, config: Trusted, client: Option<GitHubClient>, store: RemediationStore)
      ensures this.shapes == shapes && this.config == config && this.client == client && this.store == store
    {
      this.shapes, this.config, this.client, this.store := shapes, config, client, store;
    }

    ghost function Frame(): set<object> { if client.None? then {} else {client.value.remote} }

    // The executor is the client for the configured repository and path.
    ghost predicate Wired() {
      client.Some? ==> client.value.repository == config.repository && client.value.path == config.allowedPath
    }

    ghost function SetupOf(): Setup
      requires client.Some?
    {
      Setup(shapes, config, client.value.parse, client.value.baseBranch, client.value.remote.env)
    }

    ghost function State(): Snapshot
      requires client.Some?
      reads client.value.remote, store
    {
      Snapshot(client.value.remote.world, client.value.remote.calls, store.tables)
    }

    method Execute(proposal: Proposal, decision: PolicyDecision) returns (action: PullRequest)
      requires decision.allowed
      modifies Frame()
      ensures client.None? ==> action == RecordOf(shapes, config.repository, None)
      ensures Recordable(action)
      ensures client.Some? && client.value.Authorized(proposal, decision) ==>
        var remote := client.value.remote;
        var e := Finish(client.value.ConfigOf(proposal), LookUp, old(remote.world), remote.env, old(remote.calls));
        && remote.world == e.world && remote.calls == e.calls
        && action == RecordOf(shapes, config.repository, Some(Reported(
             client.value.repository, client.value.baseBranch, RemediationBranch(proposal.investigationID), e.outcome)))
    {
      action := PullRequest(PRFailed, config.repository, "", "", 0, None, false, "github_not_configured");
      if client.Some? {
        var created := client.value.CreatePullRequest(proposal, decision);
        if created.failureCode != "" {
          if shapes.branch(created.baseBranch) { action := action.(baseBranch := created.baseBranch); }
          if shapes.branch(created.headBranch) { action := action.(headBranch := created.headBranch); }
          if shapes.failureCode(created.failureCode) { action := action.(failureCode := created.failureCode); }
          else { action := action.(failureCode := "github_action_failed"); }
        } else if ValidCreated(shapes, created, config.repository) {
          action := created.(status := PRCreated);
        } else {
          action := action.(failureCode := "github_invalid_result");
        }
      }
    }

    // The whole of one request, with an executor and without one.
    method Request(q: Question) returns (r: Result<Evaluated>)
      requires Wired() && Joined(store.tables)
      modifies store, Frame()
      ensures client.None? ==>
        Responds(shapes, config, q, old(store.tables), store.tables, r, RecordOf(shapes, config.repository, None))
      ensures client.Some? ==> Serves(SetupOf(), old(State()), q, State(), r)
    {
      var eligible := CheckRequest(shapes, config, q.request, q.report, q.stored);
      if eligible.Err? { return Err(eligible.error); }
      r := Decide(q, eligible.value.cause, eligible.value.observed);
    }

    method Decide(q: Question, cause: Cause, observed: string) returns (r: Result<Evaluated>)
      requires Wired() && Joined(store.tables) && Found(q, cause, observed)
      modifies store, Frame()
      ensures var allowed := Permitted(config, q.request, cause, observed);
        && (client.None? ==>
              Keeps(shapes, config, q, old(store.tables), store.tables, r, allowed,
                RecordOf(shapes, config.repository, None)))
        && (client.Some? ==>
              && Keeps(shapes, config, q, old(store.tables), store.tables, r, allowed,
                   PullFor(SetupOf(), old(State()), q))
              && Reaches(SetupOf(), old(State()), q, State(), allowed))
    {
      var decided := Evaluate(Derive(config, q.request, cause, observed));
      DeniedNothingIff(config, q.request, cause, observed);
      DenialsAreExplained(config, q.request, cause, observed, decided.value.reasons);
      r := CarryOut(q, decided.value);
    }

    // What the executor reports, as it is recorded; nothing if there is no executor.
    ghost function RecordFor(q: Question): PullRequest
      reads Frame(), store
    {
      if client.None? then RecordOf(shapes, config.repository, None) else PullFor(SetupOf(), State(), q)
    }

    // The decision carried out: the executor is called exactly when it allows.
    method Act(q: Question, decision: PolicyDecision) returns (evaluated: Evaluated)
      requires Wired() && DecidedOn(config, q, decision) && (decision.allowed <==> decision.reasons == [])
      requires decision.allowed ==>
        q.request.target.repository == config.repository && q.request.target.path == config.allowedPath
      modifies Frame()
      ensures evaluated.decision == decision
      ensures KeptFor(shapes, config, q, evaluated, decision.allowed, old(RecordFor(q)))
      ensures client.Some? ==> Reaches(SetupOf(), old(State()), q, State(), decision.allowed)
    {
      var status, outcome, pull: Option<PullRequest> := PolicyDenied, AuditDenied, None;
      if decision.allowed {
        status, outcome := PRFailed, AuditFailed;
        var action := Execute(ProposalOf(shapes, q.request, PRFailed), decision);
        if action.status == PRCreated { status, outcome := PRCreated, AuditCreated; }
        pull := Some(action);
      }
      var audit := if decision.allowed then PolicyAllowed else PolicyDenied;
      evaluated := Evaluated(ProposalOf(shapes, q.request, status), decision, pull, audit, outcome);
    }

    method Keep(q: Question, evaluated: Evaluated, ghost pull: PullRequest) returns (r: Result<Evaluated>)
      requires Joined(store.tables) && KeptFor(shapes, config, q, evaluated, evaluated.decision.allowed, pull)
      modifies store
      ensures Keeps(shapes, config, q, old(store.tables), store.tables, r, evaluated.decision.allowed, pull)
    {
      var ok := store.SaveRemediationEvaluation(q.id, evaluated, q.at);
      SavedIsKept(shapes, config, q, old(store.tables), store.tables, evaluated, ok, pull);
      r := if ok then Ok(evaluated) else Err("persist remediation decision");
    }

    method CarryOut(q: Question, decision: PolicyDecision) returns (r: Result<Evaluated>)
      requires Wired() && Joined(store.tables) && DecidedOn(config, q, decision)
        && (decision.allowed <==> decision.reasons == [])
      requires decision.allowed ==>
        q.request.target.repository == config.repository && q.request.target.path == config.allowedPath
      modifies store, Frame()
      ensures Keeps(shapes, config, q, old(store.tables), store.tables, r, decision.allowed, old(RecordFor(q)))
      ensures client.Some? ==> Reaches(SetupOf(), old(State()), q, State(), decision.allowed)
    {
      var evaluated := Act(q, decision);
      ghost var met := if client.None? then None else Some(State());
      r := Keep(q, evaluated, old(RecordFor(q)));
      assert client.Some? ==> State() == met.value.(tables := store.tables);
    }
  }
}

/** What one request returns and stores, field by field. */
module Recorded {
  import opened Wrappers
  import opened GitHub
  import opened Attempts
  import opened Proposals
  import opened Verify
  import opened Reports
  import opened Policy
  import opened Client
  import opened Remediation
  import opened Evaluation
  import opened Evaluations
  import opened Store
  import opened Service
  import Faults

  // The proposal is the request with its reason trimmed, the decision is the policy's on this request,
  // and the status of the proposal, the audit event and the pull request say how it was carried out.
  ghost predicate Tells(shapes: Shapes, config: Trusted, q: Question, e: Evaluated, pull: PullRequest) {
    && e.proposal.incidentID == q.request.incidentID && e.proposal.investigationID == q.request.investigationID
    && e.proposal.operation == q.request.operation && e.proposal.target == q.request.target
    && e.proposal.change == q.request.change && e.proposal.evidenceIDs == q.request.evidenceIDs
    && e.proposal.reason == shapes.trim(q.request.reason)
    && q.report.Some? && q.report.value.rootCause.Some? && q.stored.Some?
    && Explained(config, q.request, q.report.value.rootCause.value.cause, StoredLimit(q.stored.value),
         e.decision.reasons)
    && e.decision.policyVersion == "phase10-v1" && (e.decision.allowed <==> e.decision.reasons == [])
    && (e.decision.allowed ==>
          && e.pull == Some(pull) && e.proposal.status == pull.status && e.auditDecision == PolicyAllowed
          && (pull.status == PRCreated || pull.status == PRFailed)
          && e.outcome == if pull.status == PRCreated then AuditCreated else AuditFailed)
    && (!e.decision.allowed ==>
          && e.pull.None? && e.proposal.status == PolicyDenied && e.auditDecision == PolicyDenied
          && e.outcome == AuditDenied)
  }

  // What is returned is what is stored, and it tells the request.
  lemma {:induction false} ReturnedTells(
    shapes: Shapes, config: Trusted, q: Question, before: Tables, after: Tables, r: Result<Evaluated>,
    pull: PullRequest)
    requires Responds(shapes, config, q, before, after, r, pull) && r.Ok?
    ensures Tells(shapes, config, q, r.value, pull) && Load(after, q.id) == Some(r.value)
    ensures r.value.decision.allowed <==> Gate(shapes, config, q.request, q.report, q.stored)
  {
  }

  // So does what is stored by a save whose acknowledgement was lost.
  lemma {:induction false} StoredTells(
    shapes: Shapes, config: Trusted, q: Question, before: Tables, after: Tables, r: Result<Evaluated>,
    pull: PullRequest)
    requires Responds(shapes, config, q, before, after, r, pull)
    requires Eligible(shapes, config, q.request, q.report, q.stored)
    requires q.id !in before.proposals && q.at.AfterCommit?
    ensures r.Err? && Load(after, q.id).Some? && Tells(shapes, config, q, Load(after, q.id).value, pull)
  {
  }

  // A request that is invalid, or for which there is no such report of the incident with a root cause, or
  // whose evidence is not that cause's or is not all stored, is refused: nothing is called or stored.
  lemma {:induction false} UnfoundedIsRefused(setup: Setup, s: Snapshot, q: Question, s': Snapshot,
                                              r: Result<Evaluated>)
    requires Serves(setup, s, q, s', r)
    requires !ValidRequest(setup.shapes, q.request) || q.report.None?
      || q.report.value.incidentID != q.request.incidentID
      || !q.report.value.rootCauseFound || q.report.value.rootCause.None?
      || multiset(q.report.value.rootCause.value.evidenceIDs) != multiset(q.request.evidenceIDs)
      || q.stored.None? || |q.stored.value| != |q.request.evidenceIDs|
    ensures r.Err? && s' == s
  {
  }

  // A failed attempt is recorded with the branches and the failure that pass the service's patterns.
  lemma {:induction false} FailureIsRecorded(
    shapes: Shapes, repository: string, base: string, head: string, code: string)
    requires code != ""
    ensures RecordOf(shapes, repository, Some(Reported(repository, base, head, Failed(code)))) == PullRequest(
      PRFailed, repository, if shapes.branch(base) then base else "", if shapes.branch(head) then head else "",
      0, None, false, if shapes.failureCode(code) then code else "github_action_failed")
  {
  }

  predicate Address(url: string) { 9 <= |url| <= 2048 && url[..8] == "https://" }

  // A pull request is recorded as created when its number, its address and its branches are in order,
  // and otherwise as an invalid result without branches; without an executor nothing else is recorded.
  lemma {:induction false} OpenedIsRecorded(
    shapes: Shapes, repository: string, base: string, head: string, number: nat, commit: nat, reused: bool)
    ensures RecordOf(shapes, repository, Some(Reported(repository, base, head, Opened(number, commit, reused)))) ==
      if 1 <= number <= 1_000_000_000 && Address(shapes.pullURL(number)) && shapes.branch(base) && shapes.branch(head)
      then PullRequest(PRCreated, repository, base, head, number, Some(commit), reused, "")
      else PullRequest(PRFailed, repository, "", "", 0, None, false, "github_invalid_result")
    ensures RecordOf(shapes, repository, None)
      == PullRequest(PRFailed, repository, "", "", 0, None, false, "github_not_configured")
  {
  }

  // A first request of which only the response to the creation of the pull request is lost is stored
  // as created: the pull request is found again, with its commit.
  lemma {:induction false} LostCreationIsRecorded(
    setup: Setup, s: Snapshot, q: Question, s': Snapshot, r: Result<Evaluated>, base: nat, file: string,
    patched: string)
    requires Serves(setup, s, q, s', r) && Passes(setup, q) && r.Ok?
    requires Faults.Fresh(ConfigOfQuestion(setup, q), s.world, base, file, patched)
    requires Faults.CalmFor(setup.env, s.calls, 6) && Faults.Meets(setup.env, s.calls + 6, Lost)
      && Faults.Meets(setup.env, s.calls + 7, Delivered)
    requires var number := |s.world.pulls| + 1;
      number <= 1_000_000_000 && Address(setup.shapes.pullURL(number)) && setup.shapes.branch(setup.base)
        && setup.shapes.branch(HeadOf(q))
    ensures r.value.pull == Some(PullRequest(
      PRCreated, setup.config.repository, setup.base, HeadOf(q), |s.world.pulls| + 1, Some(|s.world.commits|), true,
      ""))
    ensures Load(s'.tables, q.id) == Some(r.value)
    ensures s'.world.pulls == s.world.pulls + [Pull(HeadOf(q), setup.base, true)]
  {
    Faults.LostCreationIsFound(ConfigOfQuestion(setup, q), s.world, base, file, patched, setup.env, s.calls, Lost);
    OpenedIsRecorded(setup.shapes, setup.config.repository, setup.base, HeadOf(q), |s.world.pulls| + 1,
      |s.world.commits|, true);
    ReturnedTells(setup.shapes, setup.config, q, s.tables, s'.tables, r, PullFor(setup, s, q));
  }
}

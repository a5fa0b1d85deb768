/** What one request leaves behind. */
module Evaluations {
  import opened Wrappers
  import opened Proposals

  datatype AuditOutcome = AuditDenied | AuditFailed | AuditCreated

  datatype Evaluated = Evaluated(
    proposal: Proposal, decision: PolicyDecision, pull: Option<PullRequest>,
    auditDecision: Status, outcome: AuditOutcome)

  ghost predicate Recordable(pull: PullRequest) {
    && (pull.status == PRCreated || pull.status == PRFailed)
    && (pull.status == PRCreated <==> pull.failureCode == "")
    && (pull.status == PRCreated ==> 1 <= pull.number <= 1_000_000_000 && pull.commit.Some?)
  }

  // The column constraints of the tables, and agreement between their rows.
  ghost predicate Consistent(e: Evaluated) {
    && (e.pull.Some? <==> e.decision.allowed)
    && (e.decision.allowed <==> e.decision.reasons == [])
    && e.auditDecision == (if e.decision.allowed then PolicyAllowed else PolicyDenied)
    && (e.pull.None? ==> e.proposal.status == PolicyDenied && e.outcome == AuditDenied)
    && (e.pull.Some? ==>
          && e.proposal.status == e.pull.value.status
          && (e.pull.value.status == PRCreated <==> e.outcome == AuditCreated)
          && (e.pull.value.status == PRFailed <==> e.outcome == AuditFailed)
          && Recordable(e.pull.value))
  }
}

/** The remediation tables: one evaluation is up to four inserts in one transaction, read back by a join. */
module Store {
  import opened Wrappers
  import opened Proposals
  import opened Evaluations

  datatype Audit = Audit(decision: Status, outcome: AuditOutcome)

  // Rows by proposal ID: it is the primary key of proposals and unique among decisions and pull
  // requests; an audit event has one because every transaction that writes one also writes the proposal.
  datatype Tables = Tables(
    proposals: map<string, Proposal>, decisions: map<string, PolicyDecision>,
    pulls: map<string, PullRequest>, audits: map<string, Audit>)

  ghost predicate Joined(t: Tables) {
    t.decisions.Keys == t.proposals.Keys && t.audits.Keys == t.proposals.Keys && t.pulls.Keys <= t.proposals.Keys
  }

  // JOIN on the decision and the audit event, LEFT JOIN on the pull request.
  function Load(t: Tables, id: string): Option<Evaluated> {
    if id in t.proposals && id in t.decisions && id in t.audits then
      Some(Evaluated(t.proposals[id], t.decisions[id], if id in t.pulls then Some(t.pulls[id]) else None,
                     t.audits[id].decision, t.audits[id].outcome))
    else None
  }

  // Where a save breaks off: in its n-th statement, at the commit, or after it.
  datatype Break = InStatement(n: nat) | AtCommit | AfterCommit | Nowhere

  // Whether a save of n statements takes effect.
  predicate Commits(at: Break, n: nat) {
    !at.AtCommit? && !(at.InStatement? && at.n < n)
  }

  function Statements(allowed: bool): nat { if allowed then 4 else 3 }

  class RemediationStore {
    var tables: Tables

    constructor ()
      ensures Joined(tables) && forall id :: Load(tables, id).None?
    {
      tables := Tables(map[], map[], map[], map[]);
    }

    // All rows or none, wherever it breaks off: afterwards the join reads back the whole evaluation
    // or what it read before, and nothing else has changed.
    method SaveRemediationEvaluation(id: string, e: Evaluated, at: Break) returns (ok: bool)
      requires Joined(tables)
      modifies this
      ensures Joined(tables)
      ensures forall other :: other != id ==> Load(tables, other) == Load(old(tables), other)
      ensures var fits := id !in old(tables).proposals && Commits(at, Statements(e.pull.Some?));
        && (if fits then Load(tables, id) == Some(e) else tables == old(tables))
        && (ok <==> fits && !at.AfterCommit?)
    {
      var tx, statement := tables, 0;
      if at == InStatement(statement) || id in tx.proposals { return false; }
      tx, statement := tx.(proposals := tx.proposals[id := e.proposal]), statement + 1;
      if at == InStatement(statement) || id in tx.decisions { return false; }
      tx, statement := tx.(decisions := tx.decisions[id := e.decision]), statement + 1;
      if e.pull.Some? {
        if at == InStatement(statement) || id in tx.pulls { return false; }
        tx, statement := tx.(pulls := tx.pulls[id := e.pull.value]), statement + 1;
      }
      if at == InStatement(statement) || id in tx.audits { return false; }
      tx := tx.(audits := tx.audits[id := Audit(e.auditDecision, e.outcome)]);
      if at.AtCommit? { return false; }
      tables := tx;
      return !at.AfterCommit?;
    }

    method GetRemediation(id: string) returns (r: Option<Evaluated>)
      requires Joined(tables)
      ensures r.Some? <==> id in tables.proposals
      ensures r == Load(tables, id)
    {
      return Load(tables, id);
    }
  }
}

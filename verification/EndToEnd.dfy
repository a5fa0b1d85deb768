/** From the evidence of one incident to the pull request and its record. */
module EndToEnd {
  import opened Wrappers
  import opened GitHub
  import opened Attempts
  import opened Runs
  import opened Proposals
  import opened Records
  import opened Verify
  import opened Reports
  import opened Memory
  import opened Policy
  import opened Client
  import opened Evaluations
  import opened Remediation
  import opened Service
  import opened Lines
  import opened Patch
  import opened Reparse
  import opened Layouts
  import opened Meaning
  import Recovery
  import Safety

  lemma MiBIsPlain(text: string)
    requires MemoryMiB(text).Some?
    ensures text != "" && text !in STRUCTURE && NoNewline(text)
  {
    var digits := text[..|text| - 2];
    assert text == digits + "Mi" && text[0] == digits[0] && Digit(digits[0]);
    forall i | 0 <= i < |text| ensures text[i] != '\n' {
      if i < |digits| { assert text[i] == digits[i] && Digit(digits[i]); }
    }
  }

  // Policy refines execution: what the policy permits, the executor's own guards and the patch's
  // guards let through too, and the change is one the patch theorems speak about.
  lemma PermittedIsExecutable(
    shapes: Shapes, config: Trusted, request: Request, cause: Cause, observed: string, status: Status)
    requires Permitted(config, request, cause, observed)
    ensures var p := ProposalOf(shapes, request, status); var before, after := p.change.before, p.change.after;
      && p.target.repository == config.repository && p.target.path == config.allowedPath
      && AllowedPatch(p)
      && before == observed && before != after && before != ""
      && before !in STRUCTURE && after !in STRUCTURE && NoNewline(before) && NoNewline(after)
  {
    MiBIsPlain(request.change.before);
    MiBIsPlain(request.change.after);
  }

  // So the protocol theorems hold of every permitted request, whatever the manifest.
  lemma PermittedConfigIsSound(shapes: Shapes, config: Trusted, request: Request, cause: Cause, observed: string,
                               parse: Parser, grammar: seq<Layout> -> bool, head: string, base: string)
    requires Permitted(config, request, cause, observed) && head != base
    requires Faithful(parse, grammar, request.change.before, request.change.after)
    ensures Sound(ConfigFor(parse, ProposalOf(shapes, request, PRFailed), head, base))
  {
    PermittedIsExecutable(shapes, config, request, cause, observed, PRFailed);
    PatchIsSound(parse, grammar, ProposalOf(shapes, request, PRFailed), head, base);
  }

  // A file with one stretch reading `before` turned into `after`.
  ghost predicate OneStretchEdited(file: string, before: string, after: string, edited: Option<string>) {
    exists o: nat :: o + |before| <= |file| && before <= file[o..] && edited == Some(Splice(file, o, before, after))
  }

  lemma {:induction false} PlaceReads(content: string, line: nat, column: nat, before: string, o: nat)
    requires Place(content, line, column, before) == Some(o)
    ensures o + |before| <= |content| && content[o..o + |before|] == before
  {
  }

  lemma {:induction false} StretchEdited(file: string, o: nat, before: string, after: string)
    requires o + |before| <= |file| && file[o..o + |before|] == before
    ensures OneStretchEdited(file, before, after, Some(Splice(file, o, before, after)))
  {
    assert before == file[o..][..|before|];
  }

  lemma {:induction false} PatchedIsOneSplice(parse: Parser, p: Proposal, file: string)
    requires Patched(parse, p, file).Some?
    ensures OneStretchEdited(file, p.change.before, p.change.after, Patched(parse, p, file))
  {
    var node, o := PatchedPlace(parse, p, file);
    PlaceReads(file, node.line - 1, node.column - 1, p.change.before, o);
    StretchEdited(file, o, p.change.before, p.change.after);
  }

  // Whatever happened before, an open remediation pull request shows one past base file with the
  // limit's bytes, and nothing else, replaced.
  lemma {:induction false} PullRequestContent(parse: Parser, p: Proposal, c: Config, s0: System, actions: seq<Action>)
    requires c == ConfigFor(parse, p, c.head, c.base) && Sound(c) && Initial(c, s0)
    ensures var s := Run(c, s0, actions, true);
      OpenNumbers(s.world.pulls, c.head, c.base) != [] ==>
        exists file :: Past(s, file) && OneStretchEdited(file, p.change.before, p.change.after, FileAt(s.world, c.head))
  {
    var s := Run(c, s0, actions, true);
    Safety.AtMostOneCommitAndPull(c, s0, actions);
    if OpenNumbers(s.world.pulls, c.head, c.base) != [] {
      var file :| Past(s, file) && c.patch(file) == FileAt(s.world, c.head);
      PatchedIsOneSplice(parse, p, file);
    }
  }

  // --- recovery of this very patch

  lemma {:induction false} PatchedIsReadableIff(parse: Parser, p: Proposal, file: string)
    requires Patched(parse, p, file).Some?
    ensures Readable(Patched(parse, p, file)) <==> 0 < |file| - |p.change.before| + |p.change.after| <= MAX_CONTENT
  {
    var node, o := PatchedPlace(parse, p, file);
  }

  // For the patch, recovery from every reachable state holds if and only if the replacement keeps the
  // file within the size that can be read back.
  lemma {:induction false} PatchRecoversIff(
    parse: Parser, grammar: seq<Layout> -> bool, p: Proposal, c: Config, file: string)
    requires c == ConfigFor(parse, p, c.head, c.base) && c.head != c.base
    requires Faithful(parse, grammar, p.change.before, p.change.after)
    requires p.change.before !in STRUCTURE && p.change.after !in STRUCTURE && p.change.before != ""
    requires Readable(Some(file)) && Patched(parse, p, file).Some?
    ensures (forall s0, actions {:trigger Run(c, s0, actions, true)} ::
        Initial(c, s0) && Recovery.BaseAlways(c, Run(c, s0, actions, true), file) ==>
          Alone(c, Run(c, s0, actions, true).world).outcome.Opened?)
      <==> 0 < |file| - |p.change.before| + |p.change.after| <= MAX_CONTENT
  {
    PatchIsSound(parse, grammar, p, c.head, c.base);
    PatchedIsReadableIff(parse, p, file);
    Recovery.RecoveryExactlyIfEditReadable(c, file);
  }

  // --- the record

  // An opened pull request is recorded as created exactly when its number, its address and its branch
  // names pass the service's own tests; anything else is recorded as failed.
  lemma RecordedAsCreatedIff(shapes: Shapes, repository: string, base: string, head: string, outcome: Outcome)
    ensures var pull := RecordOf(shapes, repository, Some(Reported(repository, base, head, outcome)));
      && Recordable(pull)
      && (pull.status == PRCreated <==>
            && outcome.Opened? && 1 <= outcome.number <= 1_000_000_000 && HTTPS(shapes.pullURL(outcome.number))
            && shapes.branch(base) && shapes.branch(head))
      && (pull.status == PRCreated ==>
            pull == PullRequest(PRCreated, repository, base, head, outcome.number, Some(outcome.commit),
              outcome.reused, ""))
  {
  }

  predicate BranchChar(ch: char) {
    'A' <= ch <= 'Z' || 'a' <= ch <= 'z' || '0' <= ch <= '9' || ch == '.' || ch == '_' || ch == '-'
  }

  // The service's branch pattern.
  predicate BranchName(text: string) {
    1 <= |text| <= 128 && text[0] != '.' && text[0] != '_' && text[0] != '-'
      && forall i :: 0 <= i < |text| ==> BranchChar(text[i])
  }

  // --- the whole chain

  // When a repair passes the gate on an OOM conclusion, the text it replaces is the limit that the
  // conclusion names, in whatever order the cited records were reloaded.
  lemma ExecutedRepairMatchesConclusion(
    lens: Lens, records: seq<Record>, cited: seq<string>, shapes: Shapes, config: Trusted,
    request: Request, report: Report, stored: seq<Record>)
    requires Concrete(lens) && !lens.isMemoryLimit("") && DistinctIDs(records)
    requires Verified(lens, MemoryLimitOOM, records, cited).Some?
    requires report.rootCause == Verified(lens, MemoryLimitOOM, records, cited)
    requires forall r :: r in stored <==> r in records && r.id in request.evidenceIDs
    requires Gate(shapes, config, request, Some(report), Some(stored))
    ensures report.rootCause.value.conclusion == OOMKilledAt(request.change.before)
  {
    var own := report.rootCause.value.evidenceIDs;
    forall id ensures id in request.evidenceIDs <==> id in own {
      assert id in request.evidenceIDs <==> id in multiset(request.evidenceIDs);
      assert id in own <==> id in multiset(own);
    }
    ReloadedLimitAgrees(lens, records, cited, stored);
  }
}

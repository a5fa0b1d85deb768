/** The GitHub client itself: one call after another against a shared, changing, failing remote. */
module Client {
  import opened Wrappers
  import opened GitHub
  import opened Attempts
  import opened Proposals
  import opened Patch
  import opened Meaning
  import opened Strings

  // Lower case, without dashes.
  function Compact(id: string): string {
    if id == "" then ""
    else (if id[0] == '-' then "" else [LowerChar(id[0])]) + Compact(id[1..])
  }

  function RemediationBranch(investigationID: string): string {
    var compact := Compact(investigationID);
    "incidentpilot-oom-" + if |compact| > 12 then compact[..12] else compact
  }

  // The remote, with the faults and the other writers that each numbered call meets.
  class Remote {
    var world: World
    var calls: nat
    const env: Env

    constructor (world: World, env: Env)
      ensures this.world == world && this.env == env && calls == 0
    {
      this.world, this.env, calls := world, env, 0;
    }

    // What the next call finds.
    ghost function Met(): World reads this { env.others(calls, world) }

    ghost function Fate(): Fault reads this { env.fault(calls) }

    method FindOpenPull(c: Config) returns (r: Result<Sighting>)
      modifies this
      ensures calls == old(calls) + 1 && world == old(Met())
      ensures var answered := old(Fate()).Delivered? && !SeenPull(c, world).Unusable?;
        r == if answered then Ok(SeenPull(c, world)) else Err("listing")
    {
      Arrive();
      var seen := SeenPull(c, world);
      if env.fault(calls - 1).Delivered? && !seen.Unusable? { return Ok(seen); }
      return Err("listing");
    }

    method FindRef(branch: string) returns (r: Result<Option<nat>>)
      modifies this
      ensures calls == old(calls) + 1 && world == old(Met())
      ensures r == if old(Fate()).Delivered? then Ok(RefAt(world, branch)) else Err("reference")
    {
      Arrive();
      if env.fault(calls - 1).Delivered? { return Ok(RefAt(world, branch)); }
      return Err("reference");
    }

    method GetContent(branch: string) returns (r: Result<string>)
      modifies this
      ensures calls == old(calls) + 1 && world == old(Met())
      ensures var answered := old(Fate()).Delivered? && Readable(FileAt(world, branch));
        r == if answered then Ok(FileAt(world, branch).value) else Err("content")
    {
      Arrive();
      var file := FileAt(world, branch);
      if env.fault(calls - 1).Delivered? && Readable(file) { return Ok(file.value); }
      return Err("content");
    }

    method MakeRef(branch: string, sha: nat) returns (r: Result<()>)
      modifies this
      ensures calls == old(calls) + 1
      ensures var made := CreateRef(old(Met()), branch, sha);
        && world == (if old(Fate()).Refused? || made.None? then old(Met()) else made.value)
        && (r.Ok? <==> old(Fate()).Delivered? && made.Some?)
    {
      Arrive();
      var made := CreateRef(world, branch, sha);
      if env.fault(calls - 1).Refused? || made.None? { return Err("refused"); }
      world := made.value;
      if env.fault(calls - 1).Lost? { return Err("lost"); }
      return Ok(());
    }

    method PutContent(branch: string, blob: string, content: string) returns (r: Result<nat>)
      modifies this
      ensures calls == old(calls) + 1
      ensures var made := UpdateContent(old(Met()), branch, blob, content);
        && world == (if old(Fate()).Refused? || made.None? then old(Met()) else made.value)
        && (r.Ok? <==> old(Fate()).Delivered? && made.Some?)
        && (r.Ok? ==> r.value == |old(Met()).commits|)
    {
      Arrive();
      var made := UpdateContent(world, branch, blob, content);
      if env.fault(calls - 1).Refused? || made.None? { return Err("refused"); }
      var commit := |world.commits|;
      world := made.value;
      if env.fault(calls - 1).Lost? { return Err("lost"); }
      return Ok(commit);
    }

    method OpenPull(c: Config) returns (r: Result<nat>)
      modifies this
      ensures calls == old(calls) + 1
      ensures var made := CreatePull(old(Met()), c.head, c.base);
        && world == (if old(Fate()).Refused? || made.None? then old(Met()) else made.value)
        && (r.Ok? <==> old(Fate()).Delivered? && made.Some?)
        && (r.Ok? ==> r.value == |old(Met()).pulls| + 1)
    {
      Arrive();
      var made := CreatePull(world, c.head, c.base);
      if env.fault(calls - 1).Refused? || made.None? { return Err("refused"); }
      var number := |world.pulls| + 1;
      world := made.value;
      if env.fault(calls - 1).Lost? { return Err("lost"); }
      return Ok(number);
    }

    method Arrive()
      modifies this
      ensures calls == old(calls) + 1 && world == old(Met())
    {
      world := env.others(calls, world);
      calls := calls + 1;
    }
  }

  // The pull request a call reports: every field but the configured ones is set by the outcome.
  function Reported(repository: string, base: string, head: string, outcome: Outcome): PullRequest {
    match outcome
    case Opened(number, commit, reused) => PullRequest(Unset, repository, base, head, number, Some(commit), reused, "")
    case Failed(code) => PullRequest(Unset, repository, base, head, 0, None, false, code)
  }

  class GitHubClient {
    const remote: Remote
    const parse: Parser
    const repository: string
    const baseBranch: string
    const path: string

    constructor (remote: Remote, parse: Parser, repository: string, baseBranch: string, path: string)
      ensures this.remote == remote && this.parse == parse && this.repository == repository
      ensures this.baseBranch == baseBranch && this.path == path
    {
      this.remote, this.parse, this.repository, this.baseBranch, this.path :=
        remote, parse, repository, baseBranch, path;
    }

    predicate Authorized(p: Proposal, d: PolicyDecision) {
      d.allowed && d.policyVersion != "" && p.target.repository == repository && p.target.path == path
    }

    function ConfigOf(p: Proposal): Config {
      ConfigFor(parse, p, RemediationBranch(p.investigationID), baseBranch)
    }

    function Failure(p: Proposal, code: string): PullRequest {
      Reported(repository, baseBranch, RemediationBranch(p.investigationID), Failed(code))
    }

    function Success(p: Proposal, number: nat, commit: nat, reused: bool): PullRequest {
      Reported(repository, baseBranch, RemediationBranch(p.investigationID), Opened(number, commit, reused))
    }

    // Without authorization nothing is called; with it, the client is the attempt of the protocol.
    // An error is reported through a non-empty failure code.
    method CreatePullRequest(p: Proposal, d: PolicyDecision) returns (result: PullRequest)
      modifies remote
      ensures !d.allowed || d.policyVersion == "" || p.target.repository != repository || p.target.path != path ==>
        && unchanged(remote)
        && result == Reported(repository, baseBranch, RemediationBranch(p.investigationID),
             Failed("authorization_invalid"))
      ensures d.allowed && d.policyVersion != "" && p.target.repository == repository && p.target.path == path ==>
        var e := Finish(ConfigOf(p), LookUp, old(remote.world), remote.env, old(remote.calls));
        && remote.world == e.world && remote.calls == e.calls
        && result == Reported(repository, baseBranch, RemediationBranch(p.investigationID), e.outcome)
    {
      if !Authorized(p, d) { return Failure(p, "authorization_invalid"); }
      var c := ConfigOf(p);
      ghost var fate := remote.Fate();
      var seen := remote.FindOpenPull(c);
      ghost var a := StepLookUp(c, remote.world, fate);
      assert Finish(c, LookUp, old(remote.world), remote.env, old(remote.calls))
        == Finish(c, a, remote.world, remote.env, remote.calls);
      if seen.Err? { return Failure(p, "github_pr_lookup_failed"); }
      if seen.value.One? { return Success(p, seen.value.number, seen.value.commit, true); }
      result := FromBaseRef(c, p);
    }

    method FromBaseRef(c: Config, p: Proposal) returns (result: PullRequest)
      requires c == ConfigOf(p)
      modifies remote
      ensures var e := Finish(c, NeedBaseRef, old(remote.world), remote.env, old(remote.calls));
        && remote.world == e.world && remote.calls == e.calls
        && result == Reported(repository, baseBranch, RemediationBranch(p.investigationID), e.outcome)
    {
      var baseRef := remote.FindRef(baseBranch);
      if baseRef.Err? || baseRef.value.None? { return Failure(p, "github_base_ref_failed"); }
      result := FromBaseFile(c, p, baseRef.value.value);
    }

    // The patch is the edit of the configuration.
    method PatchBase(c: Config, p: Proposal, content: string) returns (r: Result<string>)
      requires c == ConfigOf(p)
      ensures r.Ok? <==> c.patch(content).Some?
      ensures r.Ok? ==> c.patch(content) == Some(r.value)
    {
      r := GenerateMemoryLimitPatch(parse, content, p);
    }

    method FromBaseFile(c: Config, p: Proposal, baseSHA: nat) returns (result: PullRequest)
      requires c == ConfigOf(p)
      modifies remote
      ensures var e := Finish(c, NeedBaseFile(baseSHA), old(remote.world), remote.env, old(remote.calls));
        && remote.world == e.world && remote.calls == e.calls
        && result == Reported(repository, baseBranch, RemediationBranch(p.investigationID), e.outcome)
    {
      ghost var fate := remote.Fate();
      var baseFile := remote.GetContent(baseBranch);
      ghost var a := StepBaseFile(c, baseSHA, remote.world, fate);
      assert Finish(c, NeedBaseFile(baseSHA), old(remote.world), remote.env, old(remote.calls))
        == Finish(c, a, remote.world, remote.env, remote.calls);
      if baseFile.Err? {
        assert a == Fail("github_content_read_failed");
        return Failure(p, "github_content_read_failed");
      }
      var patched := PatchBase(c, p, baseFile.value);
      if patched.Err? {
        assert a == Fail("patch_not_applicable");
        return Failure(p, "patch_not_applicable");
      }
      assert a == NeedHeadRef(baseSHA, baseFile.value, patched.value);
      result := FromHeadRef(c, p, baseSHA, baseFile.value, patched.value);
    }

    method FromHeadRef(
      c: Config, p: Proposal, baseSHA: nat, baseFile: string, patched: string) returns (result: PullRequest)
      requires c == ConfigOf(p)
      modifies remote
      ensures var e :=
        Finish(c, NeedHeadRef(baseSHA, baseFile, patched), old(remote.world), remote.env, old(remote.calls));
        && remote.world == e.world && remote.calls == e.calls
        && result == Reported(repository, baseBranch, RemediationBranch(p.investigationID), e.outcome)
    {
      var branch := remote.FindRef(c.head);
      if branch.Err? { return Failure(p, "github_branch_lookup_failed"); }
      if branch.value.None? {
        result := FromCreateRef(c, p, baseSHA, baseFile, patched);
      } else {
        result := FromHeadFile(c, p, branch.value.value, baseFile, patched);
      }
    }

    method FromHeadFile(
      c: Config, p: Proposal, headSHA: nat, baseFile: string, patched: string) returns (result: PullRequest)
      requires c == ConfigOf(p)
      modifies remote
      ensures var e :=
        Finish(c, NeedHeadFile(headSHA, baseFile, patched), old(remote.world), remote.env, old(remote.calls));
        && remote.world == e.world && remote.calls == e.calls
        && result == Reported(repository, baseBranch, RemediationBranch(p.investigationID), e.outcome)
    {
      ghost var fate := remote.Fate();
      var held := remote.GetContent(c.head);
      ghost var a := StepHeadFile(c, headSHA, baseFile, patched, remote.world, fate);
      assert Finish(c, NeedHeadFile(headSHA, baseFile, patched), old(remote.world), remote.env, old(remote.calls))
        == Finish(c, a, remote.world, remote.env, remote.calls);
      if held.Err? { return Failure(p, "github_branch_content_failed"); }
      if held.value == patched {
        result := FromOpen(c, p, headSHA);
      } else if held.value != baseFile {
        return Failure(p, "github_branch_diverged");
      } else {
        result := FromCommit(c, p, held.value, patched);
      }
    }

    method FromCreateRef(
      c: Config, p: Proposal, baseSHA: nat, baseFile: string, patched: string) returns (result: PullRequest)
      requires c == ConfigOf(p)
      modifies remote
      ensures var e :=
        Finish(c, NeedCreateRef(baseSHA, baseFile, patched), old(remote.world), remote.env, old(remote.calls));
        && remote.world == e.world && remote.calls == e.calls
        && result == Reported(repository, baseBranch, RemediationBranch(p.investigationID), e.outcome)
    {
      var made := remote.MakeRef(c.head, baseSHA);
      if made.Err? { return Failure(p, "github_branch_create_failed"); }
      result := FromCommit(c, p, baseFile, patched);
    }

    method FromCommit(c: Config, p: Proposal, blob: string, patched: string) returns (result: PullRequest)
      requires c == ConfigOf(p)
      modifies remote
      ensures var e := Finish(c, NeedCommit(blob, patched), old(remote.world), remote.env, old(remote.calls));
        && remote.world == e.world && remote.calls == e.calls
        && result == Reported(repository, baseBranch, RemediationBranch(p.investigationID), e.outcome)
    {
      var commit := remote.PutContent(c.head, blob, patched);
      if commit.Err? { return Failure(p, "github_commit_failed"); }
      result := FromOpen(c, p, commit.value);
    }

    method FromOpen(c: Config, p: Proposal, commit: nat) returns (result: PullRequest)
      requires c == ConfigOf(p)
      modifies remote
      ensures var e := Finish(c, NeedOpen(commit), old(remote.world), remote.env, old(remote.calls));
        && remote.world == e.world && remote.calls == e.calls
        && result == Reported(repository, baseBranch, RemediationBranch(p.investigationID), e.outcome)
    {
      var created := remote.OpenPull(c);
      if created.Err? {
        label again:
        assert Finish(c, NeedOpen(commit), old(remote.world), remote.env, old(remote.calls))
          == Finish(c, NeedSecondLook, remote.world, remote.env, remote.calls);
        var seen := remote.FindOpenPull(c);
        ghost var fate := remote.env.fault(old@again(remote.calls));
        if seen.Ok? && seen.value.One? {
          assert Step(c, NeedSecondLook, remote.world, fate).0
            == Done(Opened(seen.value.number, seen.value.commit, true));
          return Success(p, seen.value.number, seen.value.commit, true);
        }
        assert Step(c, NeedSecondLook, remote.world, fate).0 == Fail("github_pr_create_failed");
        return Failure(p, "github_pr_create_failed");
      }
      return Success(p, created.value, commit, false);
    }
  }
}

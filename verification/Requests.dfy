/** Sequences of remediation requests: what they open on GitHub, and what they leave in the store. */
module Requests {
  import opened Wrappers
  import opened GitHub
  import opened Attempts
  import opened Runs
  import opened Proposals
  import opened Policy
  import opened Client
  import opened Evaluations
  import opened Store
  import opened Service
  import opened Patch
  import opened Layouts
  import opened Meaning
  import opened EndToEnd
  import Safety

  // The states before and after each request, and its answer.
  ghost predicate Serving(
    setup: Setup, states: seq<Snapshot>, questions: seq<Question>, results: seq<Result<Evaluated>>) {
    && |states| == |questions| + 1 && |results| == |questions|
    && forall i :: 0 <= i < |questions| ==> ServedAt(setup, states, questions, results, i)
  }

  ghost predicate ServedAt(
    setup: Setup, states: seq<Snapshot>, questions: seq<Question>, results: seq<Result<Evaluated>>, i: nat)
    requires |states| == |questions| + 1 && |results| == |questions| && i < |questions|
  {
    Serves(setup, states[i], questions[i], states[i + 1], results[i])
  }

  lemma {:induction false} StepOfServing(
    setup: Setup, states: seq<Snapshot>, questions: seq<Question>, results: seq<Result<Evaluated>>, i: nat)
    requires Serving(setup, states, questions, results) && i < |questions|
    ensures Serves(setup, states[i], questions[i], states[i + 1], results[i])
  {
    assert ServedAt(setup, states, questions, results, i);
  }

  // --- attempts that are alike

  ghost predicate Alike(c: Config, c': Config) {
    c.head == c'.head && c.base == c'.base && forall x :: c.patch(x) == c'.patch(x)
  }

  // An attempt depends on its configuration through the two branches and the edit of each file only.
  lemma {:induction false} AlikeStep(c: Config, c': Config, a: Attempt, w: World, f: Fault)
    requires Alike(c, c') && Rank(a) > 0
    ensures Step(c, a, w, f) == Step(c', a, w, f)
  {
  }

  lemma {:induction false} AlikeFinish(c: Config, c': Config, a: Attempt, w: World, env: Env, k: nat)
    requires Alike(c, c') && a != Closed
    ensures Finish(c, a, w, env, k) == Finish(c', a, w, env, k)
    decreases Rank(a)
  {
    if !a.Done? {
      AlikeStep(c, c', a, env.others(k, w), env.fault(k));
      var (a', w') := Step(c, a, env.others(k, w), env.fault(k));
      AlikeFinish(c, c', a', w', env, k + 1);
    }
  }

  // The proposal of a change that the gate lets through, but for its reason and its IDs.
  function Canonical(config: Trusted, change: Change): Proposal {
    var target :=
      Target(config.repository, config.allowedPath, "incidentpilot-demo", "Deployment", "payments-api", "payments-api");
    Proposal("", "", "update_resource_limit", target, change, "", [], PRFailed)
  }

  function ConfigOn(setup: Setup, change: Change, head: string): Config {
    ConfigFor(setup.parse, Canonical(setup.config, change), head, setup.base)
  }

  lemma {:induction false} PatchedAlike(parse: Parser, p: Proposal, p': Proposal, x: string)
    requires p.operation == p'.operation && p.target == p'.target && p.change == p'.change
    ensures Patched(parse, p, x) == Patched(parse, p', x)
  {
  }

  lemma {:induction false} PassingIsCanonical(setup: Setup, q: Question)
    requires Passes(setup, q)
    ensures Alike(ConfigOn(setup, q.request.change, HeadOf(q)), ConfigOfQuestion(setup, q))
  {
    var p, p' := Canonical(setup.config, q.request.change), ProposalOf(setup.shapes, q.request, PRFailed);
    assert p.operation == p'.operation && p.target == p'.target && p.change == p'.change;
    forall x ensures Patched(setup.parse, p, x) == Patched(setup.parse, p', x) { PatchedAlike(setup.parse, p, p', x); }
  }

  // --- requests as runs of the protocol

  ghost predicate Tame(c: Config, env: Env) { forall j, w :: LeavesHeadAlone(c, w, env.others(j, w)) }

  lemma {:induction false} ForeignPull(pulls: seq<Pull>, p: Pull, head: string, base: string)
    requires p.head != head
    ensures OpenNumbers(pulls + [p], head, base) == OpenNumbers(pulls, head, base)
  {
    assert (pulls + [p])[..|pulls|] == pulls;
  }

  lemma {:induction false} OpeningLeavesHeadAlone(c: Config, c': Config, a: Attempt, w: World, f: Fault)
    requires a.NeedOpen? && c'.head != c.head && c'.base == c.base
    ensures LeavesHeadAlone(c, w, Step(c', a, w, f).1)
  {
    ForeignPull(w.pulls, Pull(c'.head, c'.base, true), c.head, c.base);
  }

  lemma {:induction false} WritingLeavesHeadAlone(c: Config, c': Config, a: Attempt, w: World, f: Fault)
    requires (a.NeedCreateRef? || a.NeedCommit?) && c'.head != c.head && c'.base == c.base
    ensures LeavesHeadAlone(c, w, Step(c', a, w, f).1)
  {
  }

  // Seen from one head branch, an attempt for another one is somebody else.
  lemma {:induction false} StepLeavesHeadAlone(c: Config, c': Config, a: Attempt, w: World, f: Fault)
    requires Rank(a) > 0 && c'.head != c.head && c'.base == c.base
    ensures LeavesHeadAlone(c, w, Step(c', a, w, f).1)
  {
    if a.NeedOpen? { OpeningLeavesHeadAlone(c, c', a, w, f); }
    else if a.NeedCreateRef? || a.NeedCommit? { WritingLeavesHeadAlone(c, c', a, w, f); }
    else { assert Step(c', a, w, f).1 == w; }
  }

  lemma {:induction false} OthersRun(c: Config, s: System, next: World)
    requires LeavesHeadAlone(c, s.world, next)
    ensures Run(c, s, [Others(next)], true).world == next
  {
    assert [Others(next)][..0] == [];
    assert Run(c, s, [], true) == s;
  }

  lemma {:induction false} ForeignFinishIsARun(
    c: Config, c': Config, s: System, a: Attempt, env: Env, k: nat) returns (actions: seq<Action>)
    requires a != Closed && c'.head != c.head && c'.base == c.base && Tame(c, env)
    ensures Run(c, s, actions, true).world == Finish(c', a, s.world, env, k).world
    decreases Rank(a)
  {
    actions := [];
    if !a.Done? {
      var met := env.others(k, s.world);
      var (a', w') := Step(c', a, met, env.fault(k));
      OthersRun(c, s, met);
      var s1 := Run(c, s, [Others(met)], true);
      StepLeavesHeadAlone(c, c', a, met, env.fault(k));
      OthersRun(c, s1, w');
      var s2 := Run(c, s1, [Others(w')], true);
      var rest := ForeignFinishIsARun(c, c', s2, a', env, k + 1);
      Safety.RunAppend(c, s1, [Others(w')], rest);
      Safety.RunAppend(c, s, [Others(met)], [Others(w')] + rest);
      actions := [Others(met)] + ([Others(w')] + rest);
    }
  }

  lemma {:induction false} OwnFinishIsARun(c: Config, s: System, env: Env, k: nat) returns (actions: seq<Action>)
    requires Tame(c, env)
    ensures Run(c, s, actions, true).world == Finish(c, LookUp, s.world, env, k).world
  {
    var s1 := Apply(c, s, Start, true);
    assert [Start][..0] == [] && Run(c, s, [], true) == s && Run(c, s, [Start], true) == s1;
    var who := |s.attempts|;
    var rest := Safety.FinishIsARun(c, s1, who, env, k);
    Safety.RunAppend(c, s, [Start], rest);
    actions := [Start] + rest;
  }

  // The passing requests for c's head branch all make c's edit.
  ghost predicate OnlyEdit(setup: Setup, c: Config, q: Question) {
    Passes(setup, q) && HeadOf(q) == c.head ==> Alike(c, ConfigOfQuestion(setup, q))
  }

  lemma {:induction false} RequestIsARun(
    setup: Setup, c: Config, s: System, before: Snapshot, q: Question, after: Snapshot)
    returns (actions: seq<Action>)
    requires Reaches(setup, before, q, after, Passes(setup, q)) && s.world == before.world
    requires c.base == setup.base && OnlyEdit(setup, c, q) && Tame(c, setup.env)
    ensures Run(c, s, actions, true).world == after.world
  {
    actions := [];
    if Passes(setup, q) {
      if HeadOf(q) == c.head {
        AlikeFinish(c, ConfigOfQuestion(setup, q), LookUp, before.world, setup.env, before.calls);
        actions := OwnFinishIsARun(c, s, setup.env, before.calls);
      } else {
        actions := ForeignFinishIsARun(c, ConfigOfQuestion(setup, q), s, LookUp, setup.env, before.calls);
      }
    }
  }

  ghost predicate OnlyEdits(setup: Setup, c: Config, questions: seq<Question>) {
    c.base == setup.base && forall i :: 0 <= i < |questions| ==> OnlyEdit(setup, c, questions[i])
  }

  lemma {:induction false} RequestIsARunAt(
    setup: Setup, c: Config, s: System, states: seq<Snapshot>, questions: seq<Question>,
      results: seq<Result<Evaluated>>, i: nat)
    returns (actions: seq<Action>)
    requires Serving(setup, states, questions, results) && i < |questions| && s.world == states[i].world
    requires OnlyEdits(setup, c, questions) && Tame(c, setup.env)
    ensures Run(c, s, actions, true).world == states[i + 1].world
  {
    StepOfServing(setup, states, questions, results, i);
    actions := RequestIsARun(setup, c, s, states[i], questions[i], states[i + 1]);
  }

  // Requests one after another are one run of the protocol of any one head branch.
  lemma {:induction false} RequestsAreARun(
    setup: Setup, c: Config, s0: System, states: seq<Snapshot>, questions: seq<Question>,
      results: seq<Result<Evaluated>>, n: nat)
    returns (actions: seq<Action>)
    requires Serving(setup, states, questions, results) && n <= |questions| && s0.world == states[0].world
    requires OnlyEdits(setup, c, questions) && Tame(c, setup.env)
    ensures Run(c, s0, actions, true).world == states[n].world
  {
    actions := [];
    if n > 0 {
      var first := RequestsAreARun(setup, c, s0, states, questions, results, n - 1);
      var s := Run(c, s0, first, true);
      var rest := RequestIsARunAt(setup, c, s, states, questions, results, n - 1);
      Safety.RunAppend(c, s0, first, rest);
      actions := first + rest;
    }
  }

  // --- at most one pull request

  // No head branch yet, and no pull request for it.
  ghost predicate Untouched(head: string, base: string, w: World) {
    head !in w.refs && OpenNumbers(w.pulls, head, base) == [] && (base in w.refs ==> w.refs[base] < |w.commits|)
  }

  function StartOf(c: Config, w: World): System { System(w, [], LogBase(c, [], w), [], []) }

  // Every passing request for this head branch asks for this change.
  ghost predicate OneChange(setup: Setup, questions: seq<Question>, head: string, change: Change) {
    forall i :: 0 <= i < |questions| && Passes(setup, questions[i]) && HeadOf(questions[i]) == head ==>
      questions[i].request.change == change
  }

  lemma {:induction false} OneChangeIsOneEdit(setup: Setup, questions: seq<Question>, head: string, change: Change)
    requires OneChange(setup, questions, head, change)
    ensures OnlyEdits(setup, ConfigOn(setup, change, head), questions)
  {
    forall i | 0 <= i < |questions| ensures OnlyEdit(setup, ConfigOn(setup, change, head), questions[i]) {
      if Passes(setup, questions[i]) && HeadOf(questions[i]) == head { PassingIsCanonical(setup, questions[i]); }
    }
  }

  lemma {:induction false} CanonicalIsSound(setup: Setup, grammar: seq<Layout> -> bool, q: Question)
    requires Passes(setup, q) && HeadOf(q) != setup.base
    requires Faithful(setup.parse, grammar, q.request.change.before, q.request.change.after)
    ensures Sound(ConfigOn(setup, q.request.change, HeadOf(q)))
  {
    var p, change := Canonical(setup.config, q.request.change), q.request.change;
    MiBIsPlain(change.before);
    MiBIsPlain(change.after);
    PatchIsSound(setup.parse, grammar, p, HeadOf(q), setup.base);
  }

  ghost predicate NonePasses(setup: Setup, questions: seq<Question>, head: string) {
    forall i :: 0 <= i < |questions| && Passes(setup, questions[i]) ==> HeadOf(questions[i]) != head
  }

  // Without a passing request for a head branch, no pull request for it appears.
  lemma {:induction false} NoPullWithoutPassing(
    setup: Setup, head: string, states: seq<Snapshot>, questions: seq<Question>, results: seq<Result<Evaluated>>)
    requires Serving(setup, states, questions, results) && head != setup.base && NonePasses(setup, questions, head)
    requires Untouched(head, setup.base, states[0].world)
    requires Tame(Config(head, setup.base, x => None), setup.env)
    ensures OpenNumbers(states[|questions|].world.pulls, head, setup.base) == []
  {
    var c := Config(head, setup.base, x => None);
    var s0 := StartOf(c, states[0].world);
    var actions := RequestsAreARun(setup, c, s0, states, questions, results, |questions|);
    RunsKeepInv(c, s0, actions);
  }

  lemma {:induction false} TameIsOfTheBranches(c: Config, c': Config, env: Env)
    requires c.head == c'.head && c.base == c'.base && Tame(c, env)
    ensures Tame(c', env)
  {
    forall j, w ensures LeavesHeadAlone(c', w, env.others(j, w)) { assert LeavesHeadAlone(c, w, env.others(j, w)); }
  }

  // Behind an open pull request stands the edit: some file with one stretch reading the old limit
  // replaced by the new one.
  ghost predicate ShowsEdit(w: World, head: string, change: Change) {
    exists file :: OneStretchEdited(file, change.before, change.after, FileAt(w, head))
  }

  // However many requests are made for one change, for whatever investigations, whichever of their
  // calls and saves fail, and whoever else moves the other branches: at most one pull request is open
  // for one head branch, and it shows the edit.
  lemma {:induction false} RequestsOpenAtMostOnePull(
    setup: Setup, grammar: seq<Layout> -> bool, head: string, change: Change,
    states: seq<Snapshot>, questions: seq<Question>, results: seq<Result<Evaluated>>)
    requires Serving(setup, states, questions, results) && head != setup.base
    requires OneChange(setup, questions, head, change) && Faithful(setup.parse, grammar, change.before, change.after)
    requires Untouched(head, setup.base, states[0].world) && Tame(ConfigOn(setup, change, head), setup.env)
    ensures var w := states[|questions|].world; var numbers := OpenNumbers(w.pulls, head, setup.base);
      |numbers| <= 1 && (numbers != [] ==> ShowsEdit(w, head, change))
  {
    var c := ConfigOn(setup, change, head);
    if NonePasses(setup, questions, head) {
      TameIsOfTheBranches(c, Config(head, setup.base, x => None), setup.env);
      NoPullWithoutPassing(setup, head, states, questions, results);
    } else {
      var i :| 0 <= i < |questions| && Passes(setup, questions[i]) && HeadOf(questions[i]) == head;
      CanonicalIsSound(setup, grammar, questions[i]);
      OneChangeIsOneEdit(setup, questions, head, change);
      var s0 := StartOf(c, states[0].world);
      var actions := RequestsAreARun(setup, c, s0, states, questions, results, |questions|);
      Safety.AtMostOneCommitAndPull(c, s0, actions);
      var w := states[|questions|].world;
      if OpenNumbers(w.pulls, head, setup.base) != [] {
        var x :| Past(Run(c, s0, actions, true), x) && c.patch(x) == FileAt(w, head);
        PatchedIsOneSplice(setup.parse, Canonical(setup.config, change), x);
      }
    }
  }

  // --- the store

  ghost predicate AllConsistent(t: Tables) {
    Joined(t) && forall id :: Load(t, id).Some? ==> Consistent(Load(t, id).value)
  }

  ghost predicate OnlyAdds(t: Tables, t': Tables) {
    forall id :: Load(t, id).Some? ==> Load(t', id) == Load(t, id)
  }

  lemma {:induction false} RequestKeepsTheStore(
    setup: Setup, s: Snapshot, q: Question, s': Snapshot, r: Result<Evaluated>)
    requires Serves(setup, s, q, s', r) && AllConsistent(s.tables)
    ensures AllConsistent(s'.tables) && OnlyAdds(s.tables, s'.tables)
  {
    if Eligible(setup.shapes, setup.config, q.request, q.report, q.stored) && s'.tables != s.tables {
      assert Load(s.tables, q.id).None?;
    }
  }

  lemma {:induction false} OnlyAddsTwice(t: Tables, t': Tables, t'': Tables)
    requires OnlyAdds(t, t') && OnlyAdds(t', t'')
    ensures OnlyAdds(t, t'')
  {
  }

  // Whatever is in the store agrees in proposal, decision, pull request and audit, and stays there.
  lemma {:induction false} StoredStaysConsistent(
    setup: Setup, states: seq<Snapshot>, questions: seq<Question>, results: seq<Result<Evaluated>>, n: nat)
    requires Serving(setup, states, questions, results) && n <= |questions| && AllConsistent(states[0].tables)
    ensures AllConsistent(states[n].tables) && OnlyAdds(states[0].tables, states[n].tables)
  {
    if n > 0 {
      StoredStaysConsistent(setup, states, questions, results, n - 1);
      StepOfServing(setup, states, questions, results, n - 1);
      RequestKeepsTheStore(setup, states[n - 1], questions[n - 1], states[n], results[n - 1]);
      OnlyAddsTwice(states[0].tables, states[n - 1].tables, states[n].tables);
    }
  }

  // --- a lost save

  ghost predicate OpensExactly(c: Config, outcome: Outcome, w: World) {
    outcome.Opened? ==> OpenNumbers(w.pulls, c.head, c.base) == [outcome.number] && RefAt(w, c.head).Some?
  }

  lemma {:induction false} SeenIsOpen(c: Config, w: World)
    ensures var seen := SeenPull(c, w);
      seen.One? ==> OpenNumbers(w.pulls, c.head, c.base) == [seen.number] && RefAt(w, c.head).Some?
  {
  }

  lemma {:induction false} LookedUpIsOpen(c: Config, a: Attempt, w: World, f: Fault)
    requires a.LookUp? || a.NeedSecondLook?
    ensures var (a', w') := Step(c, a, w, f); a'.Done? ==> OpensExactly(c, a'.outcome, w')
  {
    SeenIsOpen(c, w);
  }

  lemma {:induction false} CreatedIsOpen(c: Config, a: Attempt, w: World, f: Fault)
    requires a.NeedOpen?
    ensures var (a', w') := Step(c, a, w, f); a'.Done? ==> OpensExactly(c, a'.outcome, w')
  {
    OneMoreOpen(w.pulls, c.head, c.base);
  }

  lemma {:induction false} OthersOpenNothing(c: Config, a: Attempt, w: World, f: Fault)
    requires Rank(a) > 0 && !a.LookUp? && !a.NeedSecondLook? && !a.NeedOpen?
    ensures var (a', w') := Step(c, a, w, f); a'.Done? ==> a'.outcome.Failed?
  {
  }

  lemma {:induction false} StepOpensExactly(c: Config, a: Attempt, w: World, f: Fault)
    requires Rank(a) > 0
    ensures var (a', w') := Step(c, a, w, f); a'.Done? ==> OpensExactly(c, a'.outcome, w')
  {
    if a.LookUp? || a.NeedSecondLook? { LookedUpIsOpen(c, a, w, f); }
    else if a.NeedOpen? { CreatedIsOpen(c, a, w, f); }
    else { OthersOpenNothing(c, a, w, f); }
  }

  // An attempt that reports a pull request leaves exactly that one open.
  lemma {:induction false} OpenedIsOpen(c: Config, a: Attempt, w: World, env: Env, k: nat)
    requires Rank(a) > 0
    ensures OpensExactly(c, Finish(c, a, w, env, k).outcome, Finish(c, a, w, env, k).world)
    decreases Rank(a)
  {
    var met := env.others(k, w);
    var (a', w') := Step(c, a, met, env.fault(k));
    assert Finish(c, a, w, env, k) == Finish(c, a', w', env, k + 1);
    if a'.Done? {
      StepOpensExactly(c, a, met, env.fault(k));
    } else {
      OpenedIsOpen(c, a', w', env, k + 1);
    }
  }

  // The next call is delivered, and nobody moves just before it.
  predicate CalmCall(env: Env, k: nat, w: World) { env.fault(k).Delivered? && env.others(k, w) == w }

  lemma {:induction false} LookUpFinds(c: Config, w: World, env: Env, k: nat, number: nat)
    requires OpenNumbers(w.pulls, c.head, c.base) == [number] && RefAt(w, c.head).Some? && CalmCall(env, k, w)
    ensures Finish(c, LookUp, w, env, k) == Ending(Opened(number, RefAt(w, c.head).value, true), w, k + 1)
  {
    var found := Done(Opened(number, RefAt(w, c.head).value, true));
    assert Step(c, LookUp, w, Delivered) == (found, w);
    assert Finish(c, LookUp, w, env, k) == Finish(c, found, w, env, k + 1);
  }

  // The service can record this pull request as created.
  predicate RecordablePull(setup: Setup, head: string, number: nat) {
    && 1 <= number <= 1_000_000_000 && HTTPS(setup.shapes.pullURL(number))
    && setup.shapes.branch(setup.base) && setup.shapes.branch(head)
  }

  // With a pull request open, a passing request whose one call is calm changes nothing on GitHub and
  // stores it as created and reused.
  lemma {:induction false} OpenPullIsRecordedAgain(
    setup: Setup, s: Snapshot, q: Question, s': Snapshot, r: Result<Evaluated>, number: nat)
    requires Serves(setup, s, q, s', r) && Passes(setup, q) && q.id !in s.tables.proposals && q.at.Nowhere?
    requires OpenNumbers(s.world.pulls, HeadOf(q), setup.base) == [number] && RefAt(s.world, HeadOf(q)).Some?
    requires CalmCall(setup.env, s.calls, s.world) && RecordablePull(setup, HeadOf(q), number)
    ensures s'.world == s.world && s'.calls == s.calls + 1 && r.Ok? && Load(s'.tables, q.id) == Some(r.value)
    ensures r.value.pull == Some(PullRequest(
      PRCreated, setup.config.repository, setup.base, HeadOf(q), number, RefAt(s.world, HeadOf(q)), true, ""))
    ensures r.value.proposal.status == PRCreated && r.value.outcome == AuditCreated
  {
    LookUpFinds(ConfigOfQuestion(setup, q), s.world, setup.env, s.calls, number);
    RecordedAsCreatedIff(setup.shapes, setup.config.repository, setup.base, HeadOf(q), AttemptFor(setup, s, q).outcome);
  }

  // A request whose attempt opened or found a pull request, and whose save broke off anywhere, is made
  // good by the next one for that head branch: the store then holds that very pull request, created
  // and reused, and GitHub is as the first request left it.
  lemma {:induction false} LostSaveIsMadeGood(
    setup: Setup, s0: Snapshot, q0: Question, s1: Snapshot, r0: Result<Evaluated>, q1: Question, s2: Snapshot,
      r1: Result<Evaluated>)
    requires Serves(setup, s0, q0, s1, r0) && Serves(setup, s1, q1, s2, r1)
    requires Passes(setup, q0) && Passes(setup, q1) && HeadOf(q1) == HeadOf(q0)
    requires AttemptFor(setup, s0, q0).outcome.Opened?
    requires RecordablePull(setup, HeadOf(q0), AttemptFor(setup, s0, q0).outcome.number)
    requires q1.id !in s1.tables.proposals && q1.at.Nowhere? && CalmCall(setup.env, s1.calls, s1.world)
    ensures s2.world == s1.world && r1.Ok? && Load(s2.tables, q1.id) == Some(r1.value)
    ensures r1.value.pull == Some(PullRequest(
      PRCreated, setup.config.repository, setup.base, HeadOf(q0), AttemptFor(setup, s0, q0).outcome.number,
      RefAt(s1.world, HeadOf(q0)), true, ""))
    ensures !Commits(q0.at, Statements(true)) ==> s1.tables == s0.tables && r0.Err?
  {
    OpenedIsOpen(ConfigOfQuestion(setup, q0), LookUp, s0.world, setup.env, s0.calls);
    OpenPullIsRecordedAgain(setup, s1, q1, s2, r1, AttemptFor(setup, s0, q0).outcome.number);
  }
}

/** How many pull requests one investigation opens, and what is recorded of them. */
module Investigations {
  import opened Wrappers
  import opened GitHub
  import opened Attempts
  import opened Runs
  import opened Proposals
  import opened Client
  import opened Evaluations
  import opened Store
  import opened Service
  import opened Patch
  import opened Layouts
  import opened Meaning
  import opened EndToEnd
  import opened Requests
  import opened Spelling
  import Recovery
  import Safety
  import Evaluation
  import Remediation

  // From call k on no call fails and nobody else moves.
  ghost predicate Quiet(env: Env, k: nat) {
    forall j: nat :: j >= k ==> env.fault(j).Delivered? && forall w :: env.others(j, w) == w
  }

  lemma {:induction false} QuietFinish(c: Config, a: Attempt, w: World, env: Env, k: nat, j: nat)
    requires Quiet(env, k) && a != Closed
    ensures var e := Finish(c, a, w, CALM, j); Finish(c, a, w, env, k) == Ending(e.outcome, e.world, e.calls - j + k)
    decreases Rank(a)
  {
    if !a.Done? {
      var (a', w') := Step(c, a, w, Delivered);
      assert Finish(c, a, w, env, k) == Finish(c, a', w', env, k + 1) by {
        assert env.fault(k).Delivered? && env.others(k, w) == w;
      }
      Recovery.CalmStep(c, a, w, j);
      QuietFinish(c, a', w', env, k + 1, j + 1);
    }
  }

  // Only the head branch moves, and nothing is forgotten.
  ghost predicate OnlyHeadMoves(head: string, w: World, w': World) {
    && w.commits <= w'.commits
    && forall branch :: branch != head ==>
         && (branch in w'.refs <==> branch in w.refs)
         && (branch in w.refs ==> w'.refs[branch] == w.refs[branch])
  }

  lemma {:induction false} StepMovesOnlyHead(c: Config, a: Attempt, w: World, f: Fault)
    requires Rank(a) > 0
    ensures OnlyHeadMoves(c.head, w, Step(c, a, w, f).1)
  {
    forall branch | branch != c.head
      ensures var w' := Step(c, a, w, f).1;
        (branch in w'.refs <==> branch in w.refs) && (branch in w.refs ==> w'.refs[branch] == w.refs[branch])
    {
      Safety.AttemptsWriteOnlyTheHead(c, a, w, f, branch);
    }
    Safety.AttemptsWriteOnlyTheHead(c, a, w, f, c.head + "x");
  }

  lemma {:induction false} FinishMovesOnlyHead(c: Config, a: Attempt, w: World, j: nat)
    requires a != Closed
    ensures OnlyHeadMoves(c.head, w, Finish(c, a, w, CALM, j).world)
    decreases Rank(a)
  {
    if !a.Done? {
      StepMovesOnlyHead(c, a, w, Delivered);
      var (a', w') := Step(c, a, w, Delivered);
      FinishMovesOnlyHead(c, a', w', j + 1);
    }
  }

  // The base file can be read and patched, and the patched file can be read back.
  ghost predicate BaseReady(setup: Setup, change: Change, w: World) {
    && Readable(FileAt(w, setup.base))
    && Readable(Patched(setup.parse, Canonical(setup.config, change), FileAt(w, setup.base).value))
  }

  lemma {:induction false} BaseStaysReady(setup: Setup, change: Change, head: string, w: World, w': World)
    requires BaseReady(setup, change, w) && OnlyHeadMoves(head, w, w') && head != setup.base
    ensures BaseReady(setup, change, w')
  {
  }

  lemma {:induction false} OtherHeadStaysUntouched(head: string, other: string, base: string, w: World, w': World)
    requires Untouched(other, base, w) && OnlyHeadMoves(head, w, w') && other != head && head != base
    requires w'.pulls == w.pulls + [Pull(head, base, true)]
    ensures Untouched(other, base, w')
  {
    ForeignPull(w.pulls, Pull(head, base, true), other, base);
  }

  // Where a first request finds everything it needs.
  ghost predicate Opening(setup: Setup, s: Snapshot, q: Question) {
    && Passes(setup, q) && HeadOf(q) != setup.base && Quiet(setup.env, s.calls)
    && Untouched(HeadOf(q), setup.base, s.world) && BaseReady(setup, q.request.change, s.world)
  }

  lemma {:induction false} OpeningIsReady(setup: Setup, s: Snapshot, q: Question)
    requires Opening(setup, s, q)
    ensures Recovery.Ready(ConfigOfQuestion(setup, q), s.world)
  {
    PassingIsCanonical(setup, q);
    var c, c' := ConfigOn(setup, q.request.change, HeadOf(q)), ConfigOfQuestion(setup, q);
    var file := FileAt(s.world, setup.base).value;
    assert c.patch(file) == c'.patch(file) == Patched(setup.parse, Canonical(setup.config, q.request.change), file);
  }

  // s' is s with one pull request opened for the head branch.
  ghost predicate OpenedOne(setup: Setup, s: Snapshot, head: string, s': Snapshot) {
    && s'.world.pulls == s.world.pulls + [Pull(head, setup.base, true)] && s'.calls >= s.calls
    && OnlyHeadMoves(head, s.world, s'.world)
    && OpenNumbers(s'.world.pulls, head, setup.base) == [|s.world.pulls| + 1]
    && RefAt(s'.world, head).Some?
  }

  // The first passing request opens one pull request.
  lemma {:induction false} FirstRequestOpens(setup: Setup, s: Snapshot, q: Question, s': Snapshot)
    requires Reaches(setup, s, q, s', true) && Opening(setup, s, q)
    ensures OpenedOne(setup, s, HeadOf(q), s')
    ensures var outcome := AttemptFor(setup, s, q).outcome; outcome.Opened? && outcome.number == |s.world.pulls| + 1
  {
    var c := ConfigOfQuestion(setup, q);
    OpeningIsReady(setup, s, q);
    Recovery.AloneRepairsExactlyReady(c, s.world);
    QuietFinish(c, LookUp, s.world, setup.env, s.calls, 0);
    FinishMovesOnlyHead(c, LookUp, s.world, 0);
    OneMoreOpen(s.world.pulls, c.head, c.base);
  }

  lemma {:induction false} SecondReuses(setup: Setup, s0: Snapshot, s: Snapshot, q: Question, s': Snapshot)
    requires OpenedOne(setup, s0, HeadOf(q), s) && Quiet(setup.env, s.calls)
    requires Reaches(setup, s, q, s', true)
    ensures s'.world == s.world
  {
    LookUpFinds(ConfigOfQuestion(setup, q), s.world, setup.env, s.calls, |s0.world.pulls| + 1);
  }

  lemma {:induction false} StillOpening(setup: Setup, s: Snapshot, head: string, s': Snapshot, q: Question)
    requires Opening(setup, s, q) && HeadOf(q) != head && head != setup.base && OpenedOne(setup, s, head, s')
    ensures Opening(setup, s', q)
  {
    BaseStaysReady(setup, q.request.change, head, s.world, s'.world);
    OtherHeadStaysUntouched(head, HeadOf(q), setup.base, s.world, s'.world);
  }

  lemma {:induction false} SecondOpens(setup: Setup, s0: Snapshot, head: string, s: Snapshot, q: Question, s': Snapshot)
    requires OpenedOne(setup, s0, head, s) && Opening(setup, s0, q) && HeadOf(q) != head && head != setup.base
    requires Reaches(setup, s, q, s', true)
    ensures s'.world.pulls == s.world.pulls + [Pull(HeadOf(q), setup.base, true)]
  {
    StillOpening(setup, s0, head, s, q);
    FirstRequestOpens(setup, s, q, s');
  }

  // The second one reuses it if it is for the same head branch, and opens another one if it is not.
  lemma {:induction false} TwoRequestsOpen(
    setup: Setup, s0: Snapshot, q: Question, s1: Snapshot, q': Question, s2: Snapshot)
    requires Reaches(setup, s0, q, s1, true) && Reaches(setup, s1, q', s2, true)
    requires Opening(setup, s0, q) && Opening(setup, s0, q')
    ensures s2.world.pulls == s0.world.pulls + [Pull(HeadOf(q), setup.base, true)] +
      if HeadOf(q') == HeadOf(q) then [] else [Pull(HeadOf(q'), setup.base, true)]
  {
    FirstRequestOpens(setup, s0, q, s1);
    if HeadOf(q') == HeadOf(q) {
      SecondReuses(setup, s0, s1, q', s2);
    } else {
      SecondOpens(setup, s0, HeadOf(q), s1, q', s2);
    }
  }

  // --- the two head branches of one investigation

  function HeadFor(d: string, braced: bool): string
    requires HexDigits(d)
  {
    RemediationBranch(Spell(d, if braced then Braced else Digits))
  }

  predicate Mixed(forms: set<Form>) { Braced in forms && (Digits in forms || Dashed in forms) }

  ghost predicate SpelledAs(id: string, d: string, forms: set<Form>) {
    exists d', form :: form in forms && HexDigits(d') && SameUUID(d, d') && id == Spell(d', form)
  }

  // The request is for this change and for this investigation, spelled in one of these forms.
  ghost predicate About(q: Question, d: string, forms: set<Form>, change: Change) {
    q.request.change == change && SpelledAs(q.request.investigationID, d, forms)
  }

  ghost predicate AboutOne(setup: Setup, questions: seq<Question>, d: string, forms: set<Form>, change: Change) {
    forall i :: 0 <= i < |questions| && Passes(setup, questions[i]) ==> About(questions[i], d, forms, change)
  }

  function OpenFor(setup: Setup, d: string, w: World): nat
    requires HexDigits(d)
  {
    |OpenNumbers(w.pulls, HeadFor(d, false), setup.base)| + |OpenNumbers(w.pulls, HeadFor(d, true), setup.base)|
  }

  lemma {:induction false} HeadOfSpelled(id: string, d: string, forms: set<Form>)
    requires HexDigits(d) && SpelledAs(id, d, forms)
    ensures Braced !in forms ==> RemediationBranch(id) == HeadFor(d, false)
    ensures Digits !in forms && Dashed !in forms ==> RemediationBranch(id) == HeadFor(d, true)
    ensures RemediationBranch(id) == HeadFor(d, false) || RemediationBranch(id) == HeadFor(d, true)
  {
    var d', form :| form in forms && HexDigits(d') && SameUUID(d, d') && id == Spell(d', form);
    SpellingsShareABranchIff(d', form, d, if form.Braced? then Braced else Digits);
  }

  lemma {:induction false} TwoHeads(d: string)
    requires HexDigits(d)
    ensures HeadFor(d, false) != HeadFor(d, true)
  {
    SpellingsShareABranchIff(d, Digits, d, Braced);
  }

  ghost predicate UntouchedFor(setup: Setup, d: string, w: World)
    requires HexDigits(d)
  {
    && HeadFor(d, false) != setup.base && HeadFor(d, true) != setup.base
    && Untouched(HeadFor(d, false), setup.base, w) && Untouched(HeadFor(d, true), setup.base, w)
  }

  ghost predicate TameFor(setup: Setup, d: string, change: Change, env: Env)
    requires HexDigits(d)
  {
    Tame(ConfigOn(setup, change, HeadFor(d, false)), env) && Tame(ConfigOn(setup, change, HeadFor(d, true)), env)
  }

  // For one of the two head branches.
  lemma {:induction false} AtMostOneFor(
    setup: Setup, grammar: seq<Layout> -> bool, d: string, forms: set<Form>, change: Change, braced: bool,
    states: seq<Snapshot>, questions: seq<Question>, results: seq<Result<Evaluated>>)
    requires HexDigits(d) && Serving(setup, states, questions, results) && AboutOne(setup, questions, d, forms, change)
    requires Faithful(setup.parse, grammar, change.before, change.after)
    requires UntouchedFor(setup, d, states[0].world) && TameFor(setup, d, change, setup.env)
    ensures var open := OpenNumbers(states[|questions|].world.pulls, HeadFor(d, braced), setup.base);
      && |open| <= 1
      && ((if braced then Braced !in forms else Digits !in forms && Dashed !in forms) ==> open == [])
  {
    var head := HeadFor(d, braced);
    RequestsOpenAtMostOnePull(setup, grammar, head, change, states, questions, results);
    if if braced then Braced !in forms else Digits !in forms && Dashed !in forms {
      TwoHeads(d);
      forall i | 0 <= i < |questions| && Passes(setup, questions[i]) ensures HeadOf(questions[i]) != head {
        HeadOfSpelled(questions[i].request.investigationID, d, forms);
      }
      TameIsOfTheBranches(ConfigOn(setup, change, head), Config(head, setup.base, x => None), setup.env);
      NoPullWithoutPassing(setup, head, states, questions, results);
    }
  }

  // Whatever the spellings, and whatever fails, one investigation and one change have at most two
  // pull requests open; without a mixture of spellings at most one.
  lemma {:induction false} InvestigationOpensAtMost(
    setup: Setup, grammar: seq<Layout> -> bool, d: string, forms: set<Form>, change: Change,
    states: seq<Snapshot>, questions: seq<Question>, results: seq<Result<Evaluated>>)
    requires HexDigits(d) && Serving(setup, states, questions, results) && AboutOne(setup, questions, d, forms, change)
    requires Faithful(setup.parse, grammar, change.before, change.after)
    requires UntouchedFor(setup, d, states[0].world) && TameFor(setup, d, change, setup.env)
    ensures OpenFor(setup, d, states[|questions|].world) <= if Mixed(forms) then 2 else 1
  {
    AtMostOneFor(setup, grammar, d, forms, change, false, states, questions, results);
    AtMostOneFor(setup, grammar, d, forms, change, true, states, questions, results);
  }

  // --- the counterexample

  // The same request for the same investigation, its ID spelled differently.
  function Respelled(q: Question, proposal: string, id: string): Question {
    q.(id := proposal, request := q.request.(investigationID := id), at := Nowhere)
  }

  // The gate looks at an investigation's ID only through UUID parsing: the report is found under
  // every spelling.
  lemma {:induction false} RespelledPasses(setup: Setup, q: Question, proposal: string, id: string)
    requires Passes(setup, q) && setup.shapes.uuid(id)
    ensures Passes(setup, Respelled(q, proposal, id))
  {
  }

  // What a passing request stores.
  function EvaluatedFor(setup: Setup, s: Snapshot, q: Question): Evaluated {
    var pull := PullFor(setup, s, q);
    Evaluated(ProposalOf(setup.shapes, q.request, pull.status), PolicyDecision(true, [], "phase10-v1"), Some(pull),
              PolicyAllowed, if pull.status == PRCreated then AuditCreated else AuditFailed)
  }

  function WithEvaluation(t: Tables, id: string, e: Evaluated, pull: PullRequest): Tables {
    Tables(t.proposals[id := e.proposal], t.decisions[id := e.decision], t.pulls[id := pull],
           t.audits[id := Audit(e.auditDecision, e.outcome)])
  }

  // The state after a passing request whose save succeeds.
  function AfterRequest(setup: Setup, s: Snapshot, q: Question): Snapshot {
    var e := AttemptFor(setup, s, q);
    Snapshot(e.world, e.calls, WithEvaluation(s.tables, q.id, EvaluatedFor(setup, s, q), PullFor(setup, s, q)))
  }

  lemma {:induction false} EvaluatedIsKept(setup: Setup, s: Snapshot, q: Question)
    requires Passes(setup, q)
    ensures KeptFor(setup.shapes, setup.config, q, EvaluatedFor(setup, s, q), true, PullFor(setup, s, q))
  {
    Evaluation.PermittedIsExplained(setup.config, q.request, q.report.value.rootCause.value.cause,
      Remediation.StoredLimit(q.stored.value));
    RecordedAsCreatedIff(setup.shapes, setup.config.repository, setup.base, HeadOf(q), AttemptFor(setup, s, q).outcome);
  }

  lemma {:induction false} EvaluationIsRead(t: Tables, id: string, e: Evaluated, pull: PullRequest)
    requires Joined(t) && id !in t.proposals && e.pull == Some(pull)
    ensures Joined(WithEvaluation(t, id, e, pull)) && Load(WithEvaluation(t, id, e, pull), id) == Some(e)
    ensures forall other :: other != id ==> Load(WithEvaluation(t, id, e, pull), other) == Load(t, other)
  {
  }

  lemma {:induction false} ServedAndSaved(setup: Setup, s: Snapshot, q: Question)
    requires Passes(setup, q) && q.at.Nowhere? && q.id !in s.tables.proposals && Joined(s.tables)
    ensures Serves(setup, s, q, AfterRequest(setup, s, q), Ok(EvaluatedFor(setup, s, q)))
    ensures AfterRequest(setup, s, q).tables.proposals.Keys == s.tables.proposals.Keys + {q.id}
    ensures Joined(AfterRequest(setup, s, q).tables)
  {
    EvaluatedIsKept(setup, s, q);
    EvaluationIsRead(s.tables, q.id, EvaluatedFor(setup, s, q), PullFor(setup, s, q));
  }

  lemma {:induction false} CalmIsTame(c: Config)
    ensures Tame(c, CALM)
  {
    forall j: nat, w: World ensures LeavesHeadAlone(c, w, CALM.others(j, w)) {
      assert CALM.others(j, w) == w;
    }
  }

  const NOTHING := Tables(map[], map[], map[], map[])

  // Two requests of one investigation, one spelled plainly and one in braces: both pass the gate, no
  // call and no save fails, nobody else moves, and two pull requests are open for the same change.
  lemma {:induction false} BracesOpenASecondPull(
    setup: Setup, d: string, form: Form, q: Question, first: string, second: string, w: World)
    returns (states: seq<Snapshot>, questions: seq<Question>, results: seq<Result<Evaluated>>)
    requires HexDigits(d) && !form.Braced? && setup.env == CALM && Passes(setup, q) && first != second
    requires setup.shapes.uuid(Spell(d, form)) && setup.shapes.uuid(Spell(d, Braced))
    requires UntouchedFor(setup, d, w) && BaseReady(setup, q.request.change, w)
    ensures |questions| == 2 && Serving(setup, states, questions, results) && states[0] == Snapshot(w, 0, NOTHING)
    ensures questions == [Respelled(q, first, Spell(d, form)), Respelled(q, second, Spell(d, Braced))]
    ensures Passes(setup, questions[0]) && Passes(setup, questions[1]) && results[0].Ok? && results[1].Ok?
    ensures OpenFor(setup, d, states[2].world) == 2
  {
    var q0, q1 := Respelled(q, first, Spell(d, form)), Respelled(q, second, Spell(d, Braced));
    RespelledPasses(setup, q, first, Spell(d, form));
    RespelledPasses(setup, q, second, Spell(d, Braced));
    var s0 := Snapshot(w, 0, NOTHING);
    var s1 := AfterRequest(setup, s0, q0);
    var s2 := AfterRequest(setup, s1, q1);
    ServedTwice(setup, s0, q0, q1);
    states, questions := [s0, s1, s2], [q0, q1];
    results := [Ok(EvaluatedFor(setup, s0, q0)), Ok(EvaluatedFor(setup, s1, q1))];
    SpellingsShareABranchIff(d, form, d, Digits);
    TwoHeads(d);
    BothOpen(setup, d, s0, q0, s1, q1, s2);
  }

  lemma {:induction false} ServedTwice(setup: Setup, s0: Snapshot, q0: Question, q1: Question)
    requires Passes(setup, q0) && Passes(setup, q1) && q0.at.Nowhere? && q1.at.Nowhere? && q0.id != q1.id
    requires s0.tables == NOTHING
    ensures var s1 := AfterRequest(setup, s0, q0); var s2 := AfterRequest(setup, s1, q1);
      && Serving(setup, [s0, s1, s2], [q0, q1], [Ok(EvaluatedFor(setup, s0, q0)), Ok(EvaluatedFor(setup, s1, q1))])
      && Reaches(setup, s0, q0, s1, true) && Reaches(setup, s1, q1, s2, true)
  {
    var s1 := AfterRequest(setup, s0, q0);
    var s2 := AfterRequest(setup, s1, q1);
    ServedAndSaved(setup, s0, q0);
    ServedAndSaved(setup, s1, q1);
    TwoAreServing(setup, s0, q0, s1, Ok(EvaluatedFor(setup, s0, q0)), q1, s2, Ok(EvaluatedFor(setup, s1, q1)));
  }

  lemma {:induction false} TwoAreServing(
    setup: Setup, s0: Snapshot, q0: Question, s1: Snapshot, r0: Result<Evaluated>, q1: Question, s2: Snapshot,
    r1: Result<Evaluated>)
    requires Serves(setup, s0, q0, s1, r0) && Serves(setup, s1, q1, s2, r1)
    ensures Serving(setup, [s0, s1, s2], [q0, q1], [r0, r1])
  {
    forall i | 0 <= i < 2 ensures ServedAt(setup, [s0, s1, s2], [q0, q1], [r0, r1], i) {
      assert i == 0 || i == 1;
    }
  }

  lemma {:induction false} BothOpen(
    setup: Setup, d: string, s0: Snapshot, q: Question, s1: Snapshot, q': Question, s2: Snapshot)
    requires HexDigits(d) && UntouchedFor(setup, d, s0.world)
    requires Reaches(setup, s0, q, s1, true) && Reaches(setup, s1, q', s2, true)
    requires Opening(setup, s0, q) && Opening(setup, s0, q')
    requires HeadOf(q) == HeadFor(d, false) && HeadOf(q') == HeadFor(d, true)
    ensures OpenFor(setup, d, s2.world) == 2
  {
    var plain, braced, pulls := HeadFor(d, false), HeadFor(d, true), s0.world.pulls;
    TwoHeads(d);
    TwoRequestsOpen(setup, s0, q, s1, q', s2);
    OneMoreOpen(pulls, plain, setup.base);
    ForeignPull(pulls, Pull(plain, setup.base, true), braced, setup.base);
    ForeignPull(pulls + [Pull(plain, setup.base, true)], Pull(braced, setup.base, true), plain, setup.base);
    OneMoreOpen(pulls + [Pull(plain, setup.base, true)], braced, setup.base);
  }

  // --- the exact condition

  // In every sequence of requests for this investigation and change, spelled in these forms, at most
  // one pull request ends up open, whatever fails and whoever else moves other branches.
  ghost predicate AlwaysOnePull(setup: Setup, d: string, forms: set<Form>, change: Change, w: World)
    requires HexDigits(d)
  {
    forall env, states: seq<Snapshot>, questions: seq<Question>, results
      {:trigger Serving(setup.(env := env), states, questions, results)} ::
      Serving(setup.(env := env), states, questions, results) && states[0].world == w
      && TameFor(setup, d, change, env) && AboutOne(setup, questions, d, forms, change)
      ==> OpenFor(setup, d, states[|questions|].world) <= 1
  }

  lemma {:induction false} UnmixedIsOnePull(
    setup: Setup, grammar: seq<Layout> -> bool, d: string, forms: set<Form>, change: Change, w: World)
    requires HexDigits(d) && UntouchedFor(setup, d, w) && !Mixed(forms)
    requires Faithful(setup.parse, grammar, change.before, change.after)
    ensures AlwaysOnePull(setup, d, forms, change, w)
  {
    forall env, states: seq<Snapshot>, questions: seq<Question>, results
      {:trigger Serving(setup.(env := env), states, questions, results)}
      | Serving(setup.(env := env), states, questions, results) && states[0].world == w
        && TameFor(setup, d, change, env) && AboutOne(setup, questions, d, forms, change)
      ensures OpenFor(setup, d, states[|questions|].world) <= 1
    {
      InvestigationOpensAtMost(setup.(env := env), grammar, d, forms, change, states, questions, results);
    }
  }

  lemma {:induction false} MixedIsNotOnePull(setup: Setup, d: string, forms: set<Form>, q: Question, w: World)
    requires HexDigits(d) && UntouchedFor(setup, d, w) && Mixed(forms) && Passes(setup, q)
    requires forall form :: setup.shapes.uuid(Spell(d, form))
    requires BaseReady(setup, q.request.change, w)
    ensures !AlwaysOnePull(setup, d, forms, q.request.change, w)
  {
    var calm, change := setup.(env := CALM), q.request.change;
    var form := if Digits in forms then Digits else Dashed;
    var states, questions, results := BracesOpenASecondPull(calm, d, form, q, q.id, q.id + "'", w);
    CalmIsTame(ConfigOn(setup, change, HeadFor(d, false)));
    CalmIsTame(ConfigOn(setup, change, HeadFor(d, true)));
    TwoAreAbout(questions, d, form, forms, change);
    AllAbout(calm, questions, d, forms, change);
    assert OpenFor(setup, d, states[|questions|].world) == 2;
  }

  lemma {:induction false} AllAbout(
    setup: Setup, questions: seq<Question>, d: string, forms: set<Form>, change: Change)
    requires forall i :: 0 <= i < |questions| ==> About(questions[i], d, forms, change)
    ensures AboutOne(setup, questions, d, forms, change)
  {
  }

  lemma {:induction false} TwoAreAbout(
    questions: seq<Question>, d: string, form: Form, forms: set<Form>, change: Change)
    requires HexDigits(d) && |questions| == 2 && form in forms && Braced in forms
    requires questions[0].request.change == questions[1].request.change == change
    requires questions[0].request.investigationID == Spell(d, form)
    requires questions[1].request.investigationID == Spell(d, Braced)
    ensures forall i :: 0 <= i < |questions| ==> About(questions[i], d, forms, change)
  {
    OneIsAbout(questions[0], d, form, forms, change);
    OneIsAbout(questions[1], d, Braced, forms, change);
  }

  lemma {:induction false} OneIsAbout(q: Question, d: string, form: Form, forms: set<Form>, change: Change)
    requires HexDigits(d) && form in forms && q.request.change == change
    requires q.request.investigationID == Spell(d, form)
    ensures About(q, d, forms, change)
  {
    SpellingIsSpelled(d, form, forms);
  }

  lemma {:induction false} SpellingIsSpelled(d: string, form: Form, forms: set<Form>)
    requires HexDigits(d) && form in forms
    ensures SpelledAs(Spell(d, form), d, forms)
  {
    assert SameUUID(d, d);
  }

  // One investigation and one change keep to one pull request if and only if no two requests differ
  // in whether they put the ID in braces.
  lemma {:induction false} OnePullPerInvestigationIff(
    setup: Setup, grammar: seq<Layout> -> bool, d: string, forms: set<Form>, q: Question, w: World)
    requires HexDigits(d) && UntouchedFor(setup, d, w) && Passes(setup, q)
    requires Faithful(setup.parse, grammar, q.request.change.before, q.request.change.after)
    requires forall form :: setup.shapes.uuid(Spell(d, form))
    requires BaseReady(setup, q.request.change, w)
    ensures AlwaysOnePull(setup, d, forms, q.request.change, w) <==> !Mixed(forms)
  {
    if Mixed(forms) { MixedIsNotOnePull(setup, d, forms, q, w); }
    else { UnmixedIsOnePull(setup, grammar, d, forms, q.request.change, w); }
  }

  // --- what is recorded

  lemma {:induction false} PassingIsStored(setup: Setup, s: Snapshot, q: Question, s': Snapshot, r: Result<Evaluated>)
    requires Serves(setup, s, q, s', r) && Passes(setup, q) && q.id !in s.tables.proposals && q.at.Nowhere?
    ensures r.Ok? && Load(s'.tables, q.id) == Some(r.value)
    ensures r.value.pull == Some(PullFor(setup, s, q)) && r.value.proposal.status == PullFor(setup, s, q).status
  {
  }

  // A first request that meets no fault opens a pull request under every spelling; it is stored as
  // created if and only if the ID is not in braces, and as failed otherwise.
  lemma {:induction false} RecordedAsCreatedUnlessBraced(
    setup: Setup, d: string, form: Form, s: Snapshot, q: Question, s': Snapshot, r: Result<Evaluated>)
    requires HexDigits(d) && q.request.investigationID == Spell(d, form)
    requires Serves(setup, s, q, s', r) && Opening(setup, s, q) && q.id !in s.tables.proposals && q.at.Nowhere?
    requires (forall text :: setup.shapes.branch(text) == BranchName(text)) && BranchName(setup.base)
    requires |s.world.pulls| < 1_000_000_000 && HTTPS(setup.shapes.pullURL(|s.world.pulls| + 1))
    ensures OpenNumbers(s'.world.pulls, HeadOf(q), setup.base) == [|s.world.pulls| + 1]
    ensures r.Ok? && Load(s'.tables, q.id) == Some(r.value) && r.value.pull.Some?
    ensures r.value.pull.value.status == if form.Braced? then PRFailed else PRCreated
    ensures r.value.proposal.status == r.value.pull.value.status
  {
    var outcome := AttemptFor(setup, s, q).outcome;
    assert OpenNumbers(s'.world.pulls, HeadOf(q), setup.base) == [|s.world.pulls| + 1]
      && outcome.Opened? && outcome.number == |s.world.pulls| + 1 by {
      FirstRequestOpens(setup, s, q, s');
    }
    assert BranchName(HeadOf(q)) <==> !form.Braced? by { BranchIsNamedIff(d, form); }
    PassingIsStored(setup, s, q, s', r);
    RecordedAsCreatedIff(setup.shapes, setup.config.repository, setup.base, HeadOf(q), outcome);
  }
}

/** Requests served at the same time, by any number of replicas, interleaved call by call and save by save. */
module Replicas {
  import opened Wrappers
  import opened GitHub
  import opened Attempts
  import opened Runs
  import opened Proposals
  import opened Client
  import opened Store
  import opened Service
  import opened Layouts
  import opened Meaning
  import opened EndToEnd
  import opened Requests
  import Safety

  // A request past its gate, with its attempt under way; one that is never moved again has crashed.
  datatype Flight = Flight(q: Question, a: Attempt)

  datatype Cluster = Cluster(world: World, flights: seq<Flight>, tables: Tables)

  datatype Move =
    | Begin(q: Question)
    | Call(who: nat, fault: Fault)
    | Keep(who: nat)
    | Refuse(q: Question)
    | Elsewhere(next: World)

  function PullOf(setup: Setup, q: Question, outcome: Outcome): PullRequest {
    RecordOf(setup.shapes, setup.config.repository,
             Some(Reported(setup.config.repository, setup.base, HeadOf(q), outcome)))
  }

  ghost predicate Stores(setup: Setup, q: Question, before: Tables, after: Tables, allowed: bool, pull: PullRequest) {
    exists r :: Keeps(setup.shapes, setup.config, q, before, after, r, allowed, pull)
  }

  ghost predicate Begins(setup: Setup, s: Cluster, q: Question, s': Cluster) {
    Passes(setup, q) && s' == s.(flights := s.flights + [Flight(q, LookUp)])
  }

  ghost predicate Calls(setup: Setup, s: Cluster, who: nat, fault: Fault, s': Cluster) {
    && who < |s.flights| && Rank(s.flights[who].a) > 0
    && var (a', w') := Step(ConfigOfQuestion(setup, s.flights[who].q), s.flights[who].a, s.world, fault);
       s' == s.(world := w', flights := s.flights[who := Flight(s.flights[who].q, a')])
  }

  ghost predicate Closes(s: Cluster, who: nat, s': Cluster) {
    && who < |s.flights| && s.flights[who].a.Done?
    && s'.world == s.world && s'.flights == s.flights[who := Flight(s.flights[who].q, Closed)]
  }

  ghost predicate Saves(setup: Setup, s: Cluster, who: nat, s': Cluster) {
    && Closes(s, who, s')
    && var q := s.flights[who].q;
       Stores(setup, q, s.tables, s'.tables, true, PullOf(setup, q, s.flights[who].a.outcome))
  }

  // A request that does not pass is answered without GitHub: stored as denied, or not stored at all.
  ghost predicate Refuses(setup: Setup, s: Cluster, q: Question, s': Cluster) {
    && !Passes(setup, q) && s'.world == s.world && s'.flights == s.flights
    && (s'.tables == s.tables || Stores(setup, q, s.tables, s'.tables, false, PullOf(setup, q, Failed(""))))
  }

  ghost predicate Moves(setup: Setup, s: Cluster, m: Move, s': Cluster) {
    match m
    case Begin(q) => Begins(setup, s, q, s')
    case Call(who, fault) => Calls(setup, s, who, fault, s')
    case Keep(who) => Saves(setup, s, who, s')
    case Refuse(q) => Refuses(setup, s, q, s')
    case Elsewhere(next) => s' == s.(world := next)
  }

  ghost predicate Moving(setup: Setup, states: seq<Cluster>, moves: seq<Move>) {
    |states| == |moves| + 1 && forall i :: 0 <= i < |moves| ==> MovesAt(setup, states, moves, i)
  }

  ghost predicate MovesAt(setup: Setup, states: seq<Cluster>, moves: seq<Move>, i: nat)
    requires |states| == |moves| + 1 && i < |moves|
  {
    Moves(setup, states[i], moves[i], states[i + 1])
  }

  // --- as a run of the protocol of one head branch

  predicate Own(c: Config, f: Flight) { HeadOf(f.q) == c.head }

  // A flight for this head branch is attempt k of the run.
  ghost predicate MirrorsAs(setup: Setup, c: Config, f: Flight, run: System, k: nat) {
    Own(c, f) ==> k < |run.attempts| && run.attempts[k] == f.a && Alike(c, ConfigOfQuestion(setup, f.q))
  }

  ghost predicate Apart(c: Config, flights: seq<Flight>, idx: seq<nat>)
    requires |idx| == |flights|
  {
    forall i, j :: 0 <= i < j < |idx| && Own(c, flights[i]) && Own(c, flights[j]) ==> idx[i] != idx[j]
  }

  // Every flight for this head branch is one attempt of the run, at the place idx says.
  ghost predicate Mirrors(setup: Setup, c: Config, s: Cluster, run: System, idx: seq<nat>) {
    && run.world == s.world && |idx| == |s.flights| && Apart(c, s.flights, idx)
    && forall i :: 0 <= i < |idx| ==> MirrorsAs(setup, c, s.flights[i], run, idx[i])
  }

  // What is asked of a move: nobody else touches the head branch, and it is for the one change.
  ghost predicate Fair(setup: Setup, c: Config, s: Cluster, m: Move) {
    match m
    case Begin(q) => OnlyEdit(setup, c, q)
    case Elsewhere(next) => LeavesHeadAlone(c, s.world, next)
    case _ => true
  }

  lemma {:induction false} OneAction(c: Config, s: System, action: Action)
    ensures Run(c, s, [action], true) == Apply(c, s, action, true)
  {
    assert [action][..0] == [];
    assert Run(c, s, [], true) == s;
  }

  lemma {:induction false} MirrorBegin(
    setup: Setup, c: Config, s: Cluster, q: Question, s': Cluster, run: System, idx: seq<nat>)
    returns (actions: seq<Action>, idx': seq<nat>)
    requires Begins(setup, s, q, s') && Mirrors(setup, c, s, run, idx) && OnlyEdit(setup, c, q)
    ensures Mirrors(setup, c, s', Run(c, run, actions, true), idx')
  {
    if HeadOf(q) == c.head {
      actions, idx' := [Start], idx + [|run.attempts|];
      OneAction(c, run, Start);
      var run' := run.(attempts := run.attempts + [LookUp]);
      forall i | 0 <= i < |idx'| ensures MirrorsAs(setup, c, s'.flights[i], run', idx'[i]) {
        if i < |idx| { assert MirrorsAs(setup, c, s.flights[i], run, idx[i]); }
      }
    } else {
      actions, idx' := [], idx + [0];
      forall i | 0 <= i < |idx'| ensures MirrorsAs(setup, c, s'.flights[i], run, idx'[i]) {
        if i < |idx| { assert MirrorsAs(setup, c, s.flights[i], run, idx[i]); }
      }
    }
  }

  lemma {:induction false} MirrorOwnCall(
    setup: Setup, c: Config, s: Cluster, who: nat, fault: Fault, s': Cluster, run: System, idx: seq<nat>)
    returns (actions: seq<Action>)
    requires Calls(setup, s, who, fault, s') && Mirrors(setup, c, s, run, idx) && Own(c, s.flights[who])
    ensures Mirrors(setup, c, s', Run(c, run, actions, true), idx)
  {
    var action := Advance(idx[who], fault);
    actions := [action];
    assert MirrorsAs(setup, c, s.flights[who], run, idx[who]);
    OneAction(c, run, action);
    AlikeStep(c, ConfigOfQuestion(setup, s.flights[who].q), s.flights[who].a, s.world, fault);
  }

  lemma {:induction false} MirrorForeignCall(
    setup: Setup, c: Config, s: Cluster, who: nat, fault: Fault, s': Cluster, run: System, idx: seq<nat>)
    returns (actions: seq<Action>)
    requires Calls(setup, s, who, fault, s') && Mirrors(setup, c, s, run, idx) && !Own(c, s.flights[who])
    requires c.base == setup.base
    ensures Mirrors(setup, c, s', Run(c, run, actions, true), idx)
  {
    StepLeavesHeadAlone(c, ConfigOfQuestion(setup, s.flights[who].q), s.flights[who].a, s.world, fault);
    actions := [Others(s'.world)];
    OneAction(c, run, Others(s'.world));
  }

  lemma {:induction false} MirrorSave(
    setup: Setup, c: Config, s: Cluster, who: nat, s': Cluster, run: System, idx: seq<nat>)
    returns (actions: seq<Action>)
    requires Closes(s, who, s') && Mirrors(setup, c, s, run, idx)
    ensures Mirrors(setup, c, s', Run(c, run, actions, true), idx)
  {
    if Own(c, s.flights[who]) {
      var action := Runs.Save(idx[who], Delivered);
      actions := [action];
      assert MirrorsAs(setup, c, s.flights[who], run, idx[who]);
      OneAction(c, run, action);
      var run' := Apply(c, run, action, true);
      forall i | 0 <= i < |idx| ensures MirrorsAs(setup, c, s'.flights[i], run', idx[i]) {
        assert MirrorsAs(setup, c, s.flights[i], run, idx[i]);
      }
    } else {
      actions := [];
    }
  }

  lemma {:induction false} MirrorMove(
    setup: Setup, c: Config, s: Cluster, m: Move, s': Cluster, run: System, idx: seq<nat>)
    returns (actions: seq<Action>, idx': seq<nat>)
    requires Moves(setup, s, m, s') && Mirrors(setup, c, s, run, idx) && Fair(setup, c, s, m) && c.base == setup.base
    ensures Mirrors(setup, c, s', Run(c, run, actions, true), idx')
  {
    actions, idx' := [], idx;
    match m
    case Begin(q) => actions, idx' := MirrorBegin(setup, c, s, q, s', run, idx);
    case Call(who, fault) =>
      if Own(c, s.flights[who]) { actions := MirrorOwnCall(setup, c, s, who, fault, s', run, idx); }
      else { actions := MirrorForeignCall(setup, c, s, who, fault, s', run, idx); }
    case Keep(who) => actions := MirrorSave(setup, c, s, who, s', run, idx);
    case Elsewhere(next) =>
      actions := [Others(next)];
      OneAction(c, run, Others(next));
    case Refuse(_) =>
  }

  ghost predicate AllFair(setup: Setup, c: Config, states: seq<Cluster>, moves: seq<Move>)
    requires |states| == |moves| + 1
  {
    c.base == setup.base && forall i :: 0 <= i < |moves| ==> Fair(setup, c, states[i], moves[i])
  }

  lemma {:induction false} MirrorMoveAt(
    setup: Setup, c: Config, states: seq<Cluster>, moves: seq<Move>, i: nat, run: System, idx: seq<nat>)
    returns (actions: seq<Action>, idx': seq<nat>)
    requires Moving(setup, states, moves) && AllFair(setup, c, states, moves) && i < |moves|
    requires Mirrors(setup, c, states[i], run, idx)
    ensures Mirrors(setup, c, states[i + 1], Run(c, run, actions, true), idx')
  {
    assert MovesAt(setup, states, moves, i);
    actions, idx' := MirrorMove(setup, c, states[i], moves[i], states[i + 1], run, idx);
  }

  // Interleaved requests are one run of the protocol of any one head branch.
  lemma {:induction false} InterleavingIsARun(
    setup: Setup, c: Config, states: seq<Cluster>, moves: seq<Move>, n: nat, run: System)
    returns (actions: seq<Action>, idx: seq<nat>)
    requires Moving(setup, states, moves) && AllFair(setup, c, states, moves) && n <= |moves|
    requires run.world == states[0].world && states[0].flights == []
    ensures Mirrors(setup, c, states[n], Run(c, run, actions, true), idx)
  {
    actions, idx := [], [];
    if n > 0 {
      var first, before := InterleavingIsARun(setup, c, states, moves, n - 1, run);
      var rest, after := MirrorMoveAt(setup, c, states, moves, n - 1, Run(c, run, first, true), before);
      Safety.RunAppend(c, run, first, rest);
      actions, idx := first + rest, after;
    }
  }

  // --- at most one pull request

  // Every request for this head branch that begins asks for this change.
  ghost predicate BeginsOneChange(moves: seq<Move>, head: string, change: Change) {
    forall i ::
      0 <= i < |moves| && moves[i].Begin? && HeadOf(moves[i].q) == head ==> moves[i].q.request.change == change
  }

  ghost predicate OthersLeaveAlone(c: Config, states: seq<Cluster>, moves: seq<Move>)
    requires |states| == |moves| + 1
  {
    forall i :: 0 <= i < |moves| && moves[i].Elsewhere? ==> LeavesHeadAlone(c, states[i].world, moves[i].next)
  }

  ghost predicate NoneBegins(moves: seq<Move>, head: string) {
    forall i :: 0 <= i < |moves| && moves[i].Begin? ==> HeadOf(moves[i].q) != head
  }

  lemma {:induction false} OneChangeIsFair(
    setup: Setup, head: string, change: Change, states: seq<Cluster>, moves: seq<Move>)
    requires Moving(setup, states, moves) && BeginsOneChange(moves, head, change)
    requires OthersLeaveAlone(ConfigOn(setup, change, head), states, moves)
    ensures AllFair(setup, ConfigOn(setup, change, head), states, moves)
  {
    forall i | 0 <= i < |moves| ensures Fair(setup, ConfigOn(setup, change, head), states[i], moves[i]) {
      if moves[i].Begin? && Passes(setup, moves[i].q) && HeadOf(moves[i].q) == head {
        PassingIsCanonical(setup, moves[i].q);
      }
    }
  }

  // The second half of the case split: nobody asks for this head branch.
  lemma {:induction false} NoPullWithoutBegin(setup: Setup, head: string, states: seq<Cluster>, moves: seq<Move>)
    requires Moving(setup, states, moves) && NoneBegins(moves, head) && head != setup.base && states[0].flights == []
    requires OthersLeaveAlone(Config(head, setup.base, x => None), states, moves)
    requires Untouched(head, setup.base, states[0].world)
    ensures OpenNumbers(states[|moves|].world.pulls, head, setup.base) == []
  {
    var c := Config(head, setup.base, x => None);
    var run := StartOf(c, states[0].world);
    var actions, idx := InterleavingIsARun(setup, c, states, moves, |moves|, run);
    RunsKeepInv(c, run, actions);
  }

  lemma {:induction false} PullOfOneChange(
    setup: Setup, c: Config, change: Change, states: seq<Cluster>, moves: seq<Move>)
    requires Moving(setup, states, moves) && AllFair(setup, c, states, moves) && states[0].flights == []
    requires c == ConfigOn(setup, change, c.head) && Sound(c) && Untouched(c.head, c.base, states[0].world)
    ensures var w := states[|moves|].world; var numbers := OpenNumbers(w.pulls, c.head, c.base);
      |numbers| <= 1 && (numbers != [] ==> ShowsEdit(w, c.head, change))
  {
    var run := StartOf(c, states[0].world);
    var actions, idx := InterleavingIsARun(setup, c, states, moves, |moves|, run);
    Safety.AtMostOneCommitAndPull(c, run, actions);
    var w := states[|moves|].world;
    if OpenNumbers(w.pulls, c.head, c.base) != [] {
      var x :| Past(Run(c, run, actions, true), x) && c.patch(x) == FileAt(w, c.head);
      PatchedIsOneSplice(setup.parse, Canonical(setup.config, change), x);
    }
  }

  // However many requests are served at the same time, for whatever investigations, however their
  // calls and saves interleave, fail or never come: at most one pull request is open for one head
  // branch and one change, and it shows the edit.
  lemma {:induction false} ReplicasOpenAtMostOnePull(
    setup: Setup, grammar: seq<Layout> -> bool, head: string, change: Change, states: seq<Cluster>, moves: seq<Move>)
    requires Moving(setup, states, moves) && states[0].flights == [] && head != setup.base
    requires BeginsOneChange(moves, head, change) && Faithful(setup.parse, grammar, change.before, change.after)
    requires OthersLeaveAlone(ConfigOn(setup, change, head), states, moves)
    requires Untouched(head, setup.base, states[0].world)
    ensures var w := states[|moves|].world; var numbers := OpenNumbers(w.pulls, head, setup.base);
      |numbers| <= 1 && (numbers != [] ==> ShowsEdit(w, head, change))
  {
    if NoneBegins(moves, head) {
      NoPullWithoutBegin(setup, head, states, moves);
    } else {
      var i :| 0 <= i < |moves| && moves[i].Begin? && HeadOf(moves[i].q) == head;
      assert MovesAt(setup, states, moves, i);
      CanonicalIsSound(setup, grammar, moves[i].q);
      OneChangeIsFair(setup, head, change, states, moves);
      PullOfOneChange(setup, ConfigOn(setup, change, head), change, states, moves);
    }
  }

  // --- the store

  lemma {:induction false} StoringKeepsTheStore(
    setup: Setup, q: Question, before: Tables, after: Tables, allowed: bool, pull: PullRequest)
    requires Stores(setup, q, before, after, allowed, pull) && AllConsistent(before)
    ensures AllConsistent(after) && OnlyAdds(before, after)
  {
    if after != before { assert Load(before, q.id).None?; }
  }

  lemma {:induction false} MoveKeepsTheStore(setup: Setup, s: Cluster, m: Move, s': Cluster)
    requires Moves(setup, s, m, s') && AllConsistent(s.tables)
    ensures AllConsistent(s'.tables) && OnlyAdds(s.tables, s'.tables)
  {
    match m
    case Keep(who) =>
      var f := s.flights[who];
      StoringKeepsTheStore(setup, f.q, s.tables, s'.tables, true, PullOf(setup, f.q, f.a.outcome));
    case Refuse(q) =>
      if s'.tables != s.tables {
        StoringKeepsTheStore(setup, q, s.tables, s'.tables, false, PullOf(setup, q, Failed("")));
      }
    case _ =>
  }

  // Whatever the interleaving, everything stored agrees in its four parts and stays as it was stored.
  lemma {:induction false} ReplicasKeepTheStore(setup: Setup, states: seq<Cluster>, moves: seq<Move>, n: nat)
    requires Moving(setup, states, moves) && n <= |moves| && AllConsistent(states[0].tables)
    ensures AllConsistent(states[n].tables) && OnlyAdds(states[0].tables, states[n].tables)
  {
    if n > 0 {
      ReplicasKeepTheStore(setup, states, moves, n - 1);
      assert MovesAt(setup, states, moves, n - 1);
      MoveKeepsTheStore(setup, states[n - 1], moves[n - 1], states[n]);
      OnlyAddsTwice(states[0].tables, states[n - 1].tables, states[n].tables);
    }
  }
}

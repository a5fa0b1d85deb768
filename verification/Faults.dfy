/** What one failing call does to an attempt: what is reported, and what is left on GitHub. */
module Faults {
  import opened Wrappers
  import opened GitHub
  import opened Attempts
  import opened Recovery

  // Call k meets this fate, and nobody else has moved before it.
  ghost predicate Meets(env: Env, k: nat, f: Fault) {
    env.fault(k) == f && forall w :: env.others(k, w) == w
  }

  // The next i calls from k on are delivered.
  ghost predicate CalmFor(env: Env, k: nat, i: nat) {
    forall j: nat :: k <= j < k + i ==> Meets(env, j, Delivered)
  }

  lemma {:induction false} OneCall(c: Config, a: Attempt, w: World, env: Env, k: nat, f: Fault)
    requires Rank(a) > 0 && Meets(env, k, f)
    ensures var (a', w') := Step(c, a, w, f); Finish(c, a, w, env, k) == Finish(c, a', w', env, k + 1)
  {
    assert env.others(k, w) == w;
  }

  // Wherever an attempt stands: a reading call that fails ends it and leaves everything, and so does a
  // writing call, but for what it has done when only its response was lost.
  lemma {:induction false} FailedReadEnds(c: Config, a: Attempt, w: World, f: Fault)
    requires Rank(a) > 0 && !f.Delivered? && !a.NeedCreateRef? && !a.NeedCommit? && !a.NeedOpen?
    ensures Step(c, a, w, f) == (Done(Failed(
      match a
      case LookUp => "github_pr_lookup_failed"
      case NeedBaseRef => "github_base_ref_failed"
      case NeedBaseFile(_) => "github_content_read_failed"
      case NeedHeadRef(_, _, _) => "github_branch_lookup_failed"
      case NeedHeadFile(_, _, _) => "github_branch_content_failed"
      case _ => "github_pr_create_failed")), w)
  {
  }

  lemma {:induction false} FailedWriteEnds(c: Config, a: Attempt, w: World, f: Fault)
    requires !f.Delivered? && (a.NeedCreateRef? || a.NeedCommit?)
    ensures Step(c, a, w, f).0
      == Done(Failed(if a.NeedCommit? then "github_commit_failed" else "github_branch_create_failed"))
    ensures f.Refused? ==> Step(c, a, w, f).1 == w
    ensures f.Lost? ==> Step(c, a, w, f).1 == Step(c, a, w, Delivered).1
  {
  }

  // --- the creation of the pull request

  lemma {:induction false} SecondLook(c: Config, w: World, env: Env, k: nat)
    ensures var e := Finish(c, NeedSecondLook, w, env, k); var numbers := OpenNumbers(e.world.pulls, c.head, c.base);
      && (e.outcome.Failed? ==>
            e.outcome == Failed("github_pr_create_failed")
              && (env.fault(k).Delivered? ==> |numbers| != 1 || RefAt(e.world, c.head).None?))
      && (e.outcome.Opened? ==>
            env.fault(k).Delivered? && numbers == [e.outcome.number]
              && RefAt(e.world, c.head) == Some(e.outcome.commit) && e.outcome.reused)
  {
    var met := env.others(k, w);
    var a' := StepSecondLook(c, met, env.fault(k));
    assert Finish(c, NeedSecondLook, w, env, k) == Ending(a'.outcome, met, k + 1);
  }

  // A failed creation is only reported as failed when the second look, if it gets through, does not
  // find exactly one pull request; found, it is returned as reused, with the head commit.
  lemma {:induction false} SecondLookDecides(c: Config, commit: nat, w: World, env: Env, k: nat)
    ensures var e := Finish(c, NeedOpen(commit), w, env, k);
      var made := env.fault(k).Delivered? && CreatePull(env.others(k, w), c.head, c.base).Some?;
      var numbers := OpenNumbers(e.world.pulls, c.head, c.base);
      && (made ==> e.outcome == Opened(|env.others(k, w).pulls| + 1, commit, false) && e.calls == k + 1)
      && (!made && e.outcome.Failed? ==>
            e.outcome == Failed("github_pr_create_failed")
              && (env.fault(k + 1).Delivered? ==> |numbers| != 1 || RefAt(e.world, c.head).None?))
      && (!made && e.outcome.Opened? ==>
            env.fault(k + 1).Delivered? && numbers == [e.outcome.number]
              && RefAt(e.world, c.head) == Some(e.outcome.commit) && e.outcome.reused)
  {
    var w0 := env.others(k, w);
    var (a', w') := StepOpen(c, commit, w0, env.fault(k));
    assert Finish(c, NeedOpen(commit), w, env, k) == Finish(c, a', w', env, k + 1);
    if a'.NeedSecondLook? {
      SecondLook(c, w', env, k + 1);
    } else {
      assert Finish(c, a', w', env, k + 1) == Ending(a'.outcome, w', k + 1);
    }
  }

  // A failed creation was not a pull request that a last call could have found.
  ghost predicate FailedForReal(c: Config, env: Env, e: Ending) {
    e.outcome == Failed("github_pr_create_failed") && e.calls > 0 && env.fault(e.calls - 1).Delivered? ==>
      |OpenNumbers(e.world.pulls, c.head, c.base)| != 1 || RefAt(e.world, c.head).None?
  }

  lemma {:induction false} OtherFailures(c: Config, a: Attempt, w: World, f: Fault)
    requires Rank(a) > 0 && !a.NeedSecondLook?
    ensures Step(c, a, w, f).0.Done? ==> Step(c, a, w, f).0.outcome != Failed("github_pr_create_failed")
  {
  }

  lemma {:induction false} LastLook(c: Config, w: World, env: Env, k: nat)
    ensures FailedForReal(c, env, Finish(c, NeedSecondLook, w, env, k))
  {
    SecondLook(c, w, env, k);
    assert Finish(c, NeedSecondLook, w, env, k).calls == k + 1 by {
      assert Finish(c, NeedSecondLook, w, env, k)
        == Finish(c, StepSecondLook(c, env.others(k, w), env.fault(k)), env.others(k, w), env, k + 1);
    }
  }

  // Of a whole attempt, under any faults and other writers: when it says that the pull request could
  // not be created and its last call got through, there was not exactly one.
  lemma {:induction false} CreationFailureIsReal(c: Config, a: Attempt, w: World, env: Env, k: nat)
    requires Rank(a) > 0
    ensures FailedForReal(c, env, Finish(c, a, w, env, k))
    decreases Rank(a)
  {
    if a.NeedSecondLook? {
      LastLook(c, w, env, k);
    } else {
      var next := Step(c, a, env.others(k, w), env.fault(k));
      assert Finish(c, a, w, env, k) == Finish(c, next.0, next.1, env, k + 1);
      OtherFailures(c, a, env.others(k, w), env.fault(k));
      if !next.0.Done? { CreationFailureIsReal(c, next.0, next.1, env, k + 1); }
    }
  }

  // --- a first attempt, call by call

  // The base file can be read and edited, and there is neither a head branch nor a pull request.
  ghost predicate Fresh(c: Config, w: World, base: nat, file: string, patched: string) {
    && c.head != c.base && c.head !in w.refs && OpenNumbers(w.pulls, c.head, c.base) == []
    && RefAt(w, c.base) == Some(base) && FileAt(w, c.base) == Some(file) && 0 < |file| <= 262144
    && c.patch(file) == Some(patched)
  }

  function Branched(c: Config, w: World, base: nat): World { World(w.commits, w.refs[c.head := base], w.pulls) }

  function Committed(c: Config, w: World, patched: string): World {
    World(w.commits + [Some(patched)], w.refs[c.head := |w.commits|], w.pulls)
  }

  function WithPull(c: Config, w: World): World { World(w.commits, w.refs, w.pulls + [Pull(c.head, c.base, true)]) }

  lemma {:induction false} UpToBaseFile(
    c: Config, w: World, base: nat, file: string, patched: string, env: Env, k: nat)
    requires Fresh(c, w, base, file, patched) && Meets(env, k, Delivered) && Meets(env, k + 1, Delivered)
    ensures Finish(c, LookUp, w, env, k) == Finish(c, NeedBaseFile(base), w, env, k + 2)
  {
    OneCall(c, LookUp, w, env, k, Delivered);
    OneCall(c, NeedBaseRef, w, env, k + 1, Delivered);
  }

  lemma {:induction false} UpToCreateRef(
    c: Config, w: World, base: nat, file: string, patched: string, env: Env, k: nat)
    requires Fresh(c, w, base, file, patched) && Meets(env, k, Delivered) && Meets(env, k + 1, Delivered)
    ensures Finish(c, NeedBaseFile(base), w, env, k) == Finish(c, NeedCreateRef(base, file, patched), w, env, k + 2)
  {
    OneCall(c, NeedBaseFile(base), w, env, k, Delivered);
    OneCall(c, NeedHeadRef(base, file, patched), w, env, k + 1, Delivered);
  }

  lemma {:induction false} UpToCommit(
    c: Config, w: World, base: nat, file: string, patched: string, env: Env, k: nat)
    requires Fresh(c, w, base, file, patched) && Meets(env, k, Delivered)
    ensures Finish(c, NeedCreateRef(base, file, patched), w, env, k)
      == Finish(c, NeedCommit(file, patched), Branched(c, w, base), env, k + 1)
  {
    OneCall(c, NeedCreateRef(base, file, patched), w, env, k, Delivered);
  }

  lemma {:induction false} CommitStep(c: Config, w: World, base: nat, file: string, patched: string)
    requires Fresh(c, w, base, file, patched)
    ensures UpdateContent(Branched(c, w, base), c.head, file, patched) == Some(Committed(c, w, patched))
  {
    assert Branched(c, w, base).refs[c.head := |w.commits|] == w.refs[c.head := |w.commits|];
  }

  lemma {:induction false} UpToOpen(c: Config, w: World, base: nat, file: string, patched: string, env: Env, k: nat)
    requires Fresh(c, w, base, file, patched) && Meets(env, k, Delivered)
    ensures Finish(c, NeedCommit(file, patched), Branched(c, w, base), env, k)
      == Finish(c, NeedOpen(|w.commits|), Committed(c, w, patched), env, k + 1)
  {
    CommitStep(c, w, base, file, patched);
    OneCall(c, NeedCommit(file, patched), Branched(c, w, base), env, k, Delivered);
  }

  lemma {:induction false} FreshReadsOn(
    c: Config, w: World, base: nat, file: string, patched: string, env: Env, k: nat)
    requires Fresh(c, w, base, file, patched) && CalmFor(env, k, 4)
    ensures Finish(c, LookUp, w, env, k) == Finish(c, NeedCreateRef(base, file, patched), w, env, k + 4)
  {
    assert Meets(env, k, Delivered) && Meets(env, k + 1, Delivered);
    assert Meets(env, k + 2, Delivered) && Meets(env, k + 3, Delivered);
    UpToBaseFile(c, w, base, file, patched, env, k);
    UpToCreateRef(c, w, base, file, patched, env, k + 2);
  }

  lemma {:induction false} FreshWritesOn(
    c: Config, w: World, base: nat, file: string, patched: string, env: Env, k: nat)
    requires Fresh(c, w, base, file, patched) && CalmFor(env, k, 6)
    ensures Finish(c, LookUp, w, env, k) == Finish(c, NeedOpen(|w.commits|), Committed(c, w, patched), env, k + 6)
  {
    assert CalmFor(env, k, 4) && Meets(env, k + 4, Delivered) && Meets(env, k + 5, Delivered);
    var branched, committed := Branched(c, w, base), Committed(c, w, patched);
    assert Finish(c, LookUp, w, env, k) == Finish(c, NeedCreateRef(base, file, patched), w, env, k + 4) by {
      FreshReadsOn(c, w, base, file, patched, env, k);
    }
    assert Finish(c, NeedCreateRef(base, file, patched), w, env, k + 4)
      == Finish(c, NeedCommit(file, patched), branched, env, k + 5) by {
      UpToCommit(c, w, base, file, patched, env, k + 4);
    }
    assert Finish(c, NeedCommit(file, patched), branched, env, k + 5)
      == Finish(c, NeedOpen(|w.commits|), committed, env, k + 6) by {
      UpToOpen(c, w, base, file, patched, env, k + 5);
    }
  }

  lemma {:induction false} PullStep(c: Config, w: World, base: nat, file: string, patched: string)
    requires Fresh(c, w, base, file, patched)
    ensures var now := Committed(c, w, patched); CreatePull(now, c.head, c.base) == Some(WithPull(c, now))
  {
  }

  lemma {:induction false} OpenAt(c: Config, w: World, base: nat, file: string, patched: string, env: Env, k: nat)
    requires Fresh(c, w, base, file, patched) && Meets(env, k, Delivered)
    ensures var now := Committed(c, w, patched);
      Finish(c, NeedOpen(|w.commits|), now, env, k)
        == Ending(Opened(|w.pulls| + 1, |w.commits|, false), WithPull(c, now), k + 1)
  {
    PullStep(c, w, base, file, patched);
    OneCall(c, NeedOpen(|w.commits|), Committed(c, w, patched), env, k, Delivered);
  }

  // Without a fault a first attempt makes seven calls, and this is all it does.
  lemma {:induction false} FirstAttempt(
    c: Config, w: World, base: nat, file: string, patched: string, env: Env, k: nat)
    requires Fresh(c, w, base, file, patched) && CalmFor(env, k, 7)
    ensures Finish(c, LookUp, w, env, k) == Ending(Opened(|w.pulls| + 1, |w.commits|, false),
      World(w.commits + [Some(patched)], w.refs[c.head := |w.commits|], w.pulls + [Pull(c.head, c.base, true)]), k + 7)
  {
    FreshWritesOn(c, w, base, file, patched, env, k);
    assert Meets(env, k + 6, Delivered);
    OpenAt(c, w, base, file, patched, env, k + 6);
  }

  // A call that only reads and fails ends the attempt with its own failure, and leaves everything.
  lemma {:induction false} ReadFails(
    c: Config, w: World, base: nat, file: string, patched: string, env: Env, k: nat, n: nat, f: Fault)
    requires Fresh(c, w, base, file, patched) && CalmFor(env, k, n) && Meets(env, k + n, f) && !f.Delivered? && n < 4
    ensures Finish(c, LookUp, w, env, k) == Ending(Failed(
      if n == 0 then "github_pr_lookup_failed"
      else if n == 1 then "github_base_ref_failed"
      else if n == 2 then "github_content_read_failed"
      else "github_branch_lookup_failed"), w, k + n + 1)
  {
    if n == 0 {
      OneCall(c, LookUp, w, env, k, f);
    } else if n == 1 {
      assert Meets(env, k, Delivered);
      OneCall(c, LookUp, w, env, k, Delivered);
      OneCall(c, NeedBaseRef, w, env, k + 1, f);
    } else {
      assert Meets(env, k, Delivered) && Meets(env, k + 1, Delivered);
      UpToBaseFile(c, w, base, file, patched, env, k);
      if n == 2 {
        OneCall(c, NeedBaseFile(base), w, env, k + 2, f);
      } else {
        assert Meets(env, k + 2, Delivered);
        OneCall(c, NeedBaseFile(base), w, env, k + 2, Delivered);
        OneCall(c, NeedHeadRef(base, file, patched), w, env, k + 3, f);
      }
    }
  }

  // So does one that creates the branch, which is there when only the response was lost ...
  lemma {:induction false} BranchCreationFails(
    c: Config, w: World, base: nat, file: string, patched: string, env: Env, k: nat, f: Fault)
    requires Fresh(c, w, base, file, patched) && CalmFor(env, k, 4) && Meets(env, k + 4, f) && !f.Delivered?
    ensures Finish(c, LookUp, w, env, k) == Ending(Failed("github_branch_create_failed"),
      if f.Lost? then World(w.commits, w.refs[c.head := base], w.pulls) else w, k + 5)
  {
    FreshReadsOn(c, w, base, file, patched, env, k);
    OneCall(c, NeedCreateRef(base, file, patched), w, env, k + 4, f);
  }

  // ... and one that commits.
  lemma {:induction false} CommitFails(
    c: Config, w: World, base: nat, file: string, patched: string, env: Env, k: nat, f: Fault)
    requires Fresh(c, w, base, file, patched) && CalmFor(env, k, 5) && Meets(env, k + 5, f) && !f.Delivered?
    ensures Finish(c, LookUp, w, env, k) == Ending(Failed("github_commit_failed"),
      if f.Lost? then World(w.commits + [Some(patched)], w.refs[c.head := |w.commits|], w.pulls)
      else World(w.commits, w.refs[c.head := base], w.pulls), k + 6)
  {
    assert CalmFor(env, k, 4) && Meets(env, k + 4, Delivered);
    var branched := Branched(c, w, base);
    assert Finish(c, LookUp, w, env, k) == Finish(c, NeedCommit(file, patched), branched, env, k + 5) by {
      FreshReadsOn(c, w, base, file, patched, env, k);
      UpToCommit(c, w, base, file, patched, env, k + 4);
    }
    CommitStep(c, w, base, file, patched);
    OneCall(c, NeedCommit(file, patched), branched, env, k + 5, f);
  }

  lemma {:induction false} FaultyOpen(
    c: Config, w: World, base: nat, file: string, patched: string, env: Env, k: nat, f: Fault)
    requires Fresh(c, w, base, file, patched) && Meets(env, k, f) && !f.Delivered?
    ensures var now := Committed(c, w, patched);
      Finish(c, NeedOpen(|w.commits|), now, env, k)
        == Finish(c, NeedSecondLook, if f.Lost? then WithPull(c, now) else now, env, k + 1)
  {
    var now := Committed(c, w, patched);
    PullStep(c, w, base, file, patched);
    OneCall(c, NeedOpen(|w.commits|), now, env, k, f);
  }

  lemma {:induction false} SecondLookAt(
    c: Config, w: World, base: nat, file: string, patched: string, lost: bool, env: Env, k: nat)
    requires Fresh(c, w, base, file, patched) && Meets(env, k, Delivered)
    ensures var now := Committed(c, w, patched); var w' := if lost then WithPull(c, now) else now;
      Finish(c, NeedSecondLook, w', env, k) == Ending(
        if lost then Opened(|w.pulls| + 1, |w.commits|, true) else Failed("github_pr_create_failed"), w', k + 1)
  {
    var now := Committed(c, w, patched);
    var w' := if lost then WithPull(c, now) else now;
    assert SeenPull(c, w') == if lost then One(|w.pulls| + 1, |w.commits|) else Nothing by { FreshPull(c, w); }
    OneCall(c, NeedSecondLook, w', env, k, Delivered);
  }

  // The creation of the pull request is the one call whose lost response is made good: the pull
  // request it opened is found and returned, as reused and with the new commit.
  lemma {:induction false} LostCreationIsFound(
    c: Config, w: World, base: nat, file: string, patched: string, env: Env, k: nat, f: Fault)
    requires Fresh(c, w, base, file, patched) && CalmFor(env, k, 6) && !f.Delivered?
    requires Meets(env, k + 6, f) && Meets(env, k + 7, Delivered)
    ensures var commits, refs := w.commits + [Some(patched)], w.refs[c.head := |w.commits|];
      Finish(c, LookUp, w, env, k) ==
        if f.Lost? then
          Ending(Opened(|w.pulls| + 1, |w.commits|, true),
            World(commits, refs, w.pulls + [Pull(c.head, c.base, true)]), k + 8)
        else Ending(Failed("github_pr_create_failed"), World(commits, refs, w.pulls), k + 8)
  {
    FreshWritesOn(c, w, base, file, patched, env, k);
    FaultyOpen(c, w, base, file, patched, env, k + 6, f);
    SecondLookAt(c, w, base, file, patched, f.Lost?, env, k + 7);
  }

  // --- an attempt without faults that cannot succeed

  // No pull request is open, and the base file and its edit are there.
  ghost predicate BaseServes(c: Config, w: World) {
    && OpenNumbers(w.pulls, c.head, c.base) == [] && RefAt(w, c.base).Some?
    && FileAt(w, c.base).Some? && 0 < |FileAt(w, c.base).value| <= 262144 && c.patch(FileAt(w, c.base).value).Some?
  }

  lemma {:induction false} EarlyFailure(c: Config, w: World)
    requires !BaseServes(c, w) && !Ready(c, w)
    ensures Alone(c, w) ==
      if OpenNumbers(w.pulls, c.head, c.base) != [] then Ending(Failed("github_pr_lookup_failed"), w, 1)
      else if RefAt(w, c.base).None? then Ending(Failed("github_base_ref_failed"), w, 2)
      else if FileAt(w, c.base).None? || |FileAt(w, c.base).value| == 0 || |FileAt(w, c.base).value| > 262144 then
        Ending(Failed("github_content_read_failed"), w, 3)
      else Ending(Failed("patch_not_applicable"), w, 3)
  {
    CalmStep(c, LookUp, w, 0);
    if OpenNumbers(w.pulls, c.head, c.base) == [] {
      CalmStep(c, NeedBaseRef, w, 1);
      if RefAt(w, c.base).Some? { CalmStep(c, NeedBaseFile(RefAt(w, c.base).value), w, 2); }
    }
  }

  lemma {:induction false} UpToHead(c: Config, w: World)
    requires BaseServes(c, w)
    ensures var file := FileAt(w, c.base).value;
      Alone(c, w) == Finish(c, NeedHeadRef(RefAt(w, c.base).value, file, c.patch(file).value), w, CALM, 3)
  {
    CalmStep(c, LookUp, w, 0);
    CalmStep(c, NeedBaseRef, w, 1);
    CalmStep(c, NeedBaseFile(RefAt(w, c.base).value), w, 2);
  }

  // An attempt alone that does not succeed changes nothing and says what is in its way.
  lemma {:induction false} FailureNamesItsCause(c: Config, w: World)
    requires !Ready(c, w)
    ensures Alone(c, w).world == w
    ensures Alone(c, w).outcome == Failed(
      if OpenNumbers(w.pulls, c.head, c.base) != [] then "github_pr_lookup_failed"
      else if RefAt(w, c.base).None? then "github_base_ref_failed"
      else if FileAt(w, c.base).None? || |FileAt(w, c.base).value| == 0 || |FileAt(w, c.base).value| > 262144 then
        "github_content_read_failed"
      else if c.patch(FileAt(w, c.base).value).None? then "patch_not_applicable"
      else if RefAt(w, c.head).None? then "github_branch_create_failed"
      else if FileAt(w, c.head).None? || |FileAt(w, c.head).value| == 0 || |FileAt(w, c.head).value| > 262144 then
        "github_branch_content_failed"
      else "github_branch_diverged")
  {
    if BaseServes(c, w) {
      var file, base := FileAt(w, c.base).value, RefAt(w, c.base).value;
      var patched := c.patch(file).value;
      UpToHead(c, w);
      CalmStep(c, NeedHeadRef(base, file, patched), w, 3);
      if RefAt(w, c.head).None? { CalmStep(c, NeedCreateRef(base, file, patched), w, 4); }
      else { CalmStep(c, NeedHeadFile(RefAt(w, c.head).value, file, patched), w, 4); }
    } else {
      EarlyFailure(c, w);
    }
  }
}

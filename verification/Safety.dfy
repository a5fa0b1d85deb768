/** What every run of concurrent, failing attempts keeps. */
module Safety {
  import opened Wrappers
  import opened GitHub
  import opened Attempts
  import opened Runs

  // However attempts interleave and fail and however the base branch moves: at most one commit is
  // ever made, at most one pull request is open, the head branch holds a file the base branch once
  // held or the edit of one, and behind an open pull request it is the edit.
  lemma {:induction false} AtMostOneCommitAndPull(c: Config, s0: System, actions: seq<Action>)
    requires Sound(c) && Initial(c, s0)
    ensures var s := Run(c, s0, actions, true);
      && |s.landed| <= 1
      && |OpenNumbers(s.world.pulls, c.head, c.base)| <= 1
      && (c.head in s.world.refs ==>
        RefAt(s.world, c.head).Some? && (s.world.refs[c.head] in s.baseLog || HeadEdited(c, s)))
      && (OpenNumbers(s.world.pulls, c.head, c.base) != [] ==> HeadEdited(c, s))
      && (forall i :: 0 <= i < |s.saved| ==> Ours(c, s, s.saved[i]))
  {
    RunsKeepInv(c, s0, actions);
  }

  // One call of an attempt touches nothing but the head branch and its pull request: no other branch
  // moves, history is only extended, and pull requests are only added for this head and base.
  lemma AttemptsWriteOnlyTheHead(c: Config, a: Attempt, w: World, f: Fault, branch: string)
    requires Rank(a) > 0 && branch != c.head
    ensures var w' := Step(c, a, w, f).1;
      && (branch in w'.refs <==> branch in w.refs)
      && (branch in w.refs ==> w'.refs[branch] == w.refs[branch])
      && w.commits <= w'.commits && w.pulls <= w'.pulls
      && (w'.commits != w.commits ==> a.NeedCommit? && w'.commits == w.commits + [Some(a.patched)])
      && (w'.pulls != w.pulls ==> w'.pulls == w.pulls + [Pull(c.head, c.base, true)])
  {
  }

  // ... so the base branch is safe exactly because it is not the head branch: configured equal, a
  // fault-free attempt commits its edit to it.
  lemma EqualBranchesWouldWriteTheBase(c: Config, w: World)
    requires c.head == c.base && OpenNumbers(w.pulls, c.head, c.base) == []
    requires Readable(FileAt(w, c.base)) && c.patch(FileAt(w, c.base).value).Some?
    requires c.patch(FileAt(w, c.base).value) != FileAt(w, c.base)
    ensures FileAt(Alone(c, w).world, c.base) == c.patch(FileAt(w, c.base).value)
  {
    var file := FileAt(w, c.base).value;
    var patched, sha := c.patch(file).value, RefAt(w, c.base).value;
    var w' := UpdateContent(w, c.head, file, patched).value;
    assert Alone(c, w) == Finish(c, NeedBaseRef, w, CALM, 1);
    assert Finish(c, NeedBaseRef, w, CALM, 1) == Finish(c, NeedBaseFile(sha), w, CALM, 2);
    assert Finish(c, NeedBaseFile(sha), w, CALM, 2) == Finish(c, NeedHeadRef(sha, file, patched), w, CALM, 3);
    assert Finish(c, NeedHeadRef(sha, file, patched), w, CALM, 3)
      == Finish(c, NeedHeadFile(sha, file, patched), w, CALM, 4);
    assert Finish(c, NeedHeadFile(sha, file, patched), w, CALM, 4) == Finish(c, NeedCommit(file, patched), w, CALM, 5);
    assert Finish(c, NeedCommit(file, patched), w, CALM, 5) == Finish(c, NeedOpen(|w.commits|), w', CALM, 6);
  }

  // The edit an attempt holds is the edit of the file it compares against.
  ghost predicate Computed(c: Config, a: Attempt) {
    match a
    case NeedHeadRef(_, file, patched) => c.patch(file) == Some(patched)
    case NeedCreateRef(_, file, patched) => c.patch(file) == Some(patched)
    case NeedHeadFile(_, file, patched) => c.patch(file) == Some(patched)
    case NeedCommit(blob, patched) => c.patch(blob) == Some(patched)
    case _ => true
  }

  lemma {:induction false} HostileRunsKeepComputed(c: Config, s0: System, actions: seq<Action>, i: nat)
    requires Initial(c, s0) && i < |Run(c, s0, actions, false).attempts|
    ensures Computed(c, Run(c, s0, actions, false).attempts[i])
  {
    if actions != [] {
      var before := actions[..|actions| - 1];
      if i < |Run(c, s0, before, false).attempts| {
        HostileRunsKeepComputed(c, s0, before, i);
      }
    }
  }

  // No clobbering, whatever others push to the head branch: when a call of an attempt changes the
  // file of some branch that existed, that branch is the head branch, its file was exactly the
  // content an edit applies to, and it is now that edit.
  lemma {:induction false} NoClobbering(
    c: Config, s0: System, actions: seq<Action>, who: nat, fault: Fault, branch: string)
    requires Initial(c, s0)
    requires var s := Run(c, s0, actions, false);
      who < |s.attempts| && Rank(s.attempts[who]) > 0 && RefAt(s.world, branch).Some?
    ensures var s := Run(c, s0, actions, false); var s' := Apply(c, s, Advance(who, fault), false);
      FileAt(s'.world, branch) != FileAt(s.world, branch) ==>
        && branch == c.head
        && FileAt(s.world, branch).Some?
        && c.patch(FileAt(s.world, branch).value).Some?
        && FileAt(s'.world, branch) == c.patch(FileAt(s.world, branch).value)
  {
    HostileRunsKeepComputed(c, s0, actions, who);
  }

  // Content on the head branch that is neither the base file nor its edit is reported and left alone.
  lemma UnexpectedContentIsReported(c: Config, headSha: nat, file: string, patched: string, w: World)
    requires Readable(FileAt(w, c.head)) && FileAt(w, c.head).value != file && FileAt(w, c.head).value != patched
    ensures Step(c, NeedHeadFile(headSha, file, patched), w, Delivered) == (Done(Failed("github_branch_diverged")), w)
  {
  }

  lemma {:induction false} RunAppend(c: Config, s: System, first: seq<Action>, second: seq<Action>)
    ensures Run(c, s, first + second, true) == Run(c, Run(c, s, first, true), second, true)
    decreases |second|
  {
    if second == [] {
      assert first + second == first;
    } else {
      var last := |second| - 1;
      assert (first + second)[..|first + second| - 1] == first + second[..last];
      RunAppend(c, s, first, second[..last]);
    }
  }

  // One call of the attempt is two actions: others move, then it does.
  lemma OneCall(c: Config, s: System, who: nat, env: Env, k: nat) returns (two: seq<Action>)
    requires who < |s.attempts| && Rank(s.attempts[who]) > 0 && LeavesHeadAlone(c, s.world, env.others(k, s.world))
    ensures var (a', w') := Step(c, s.attempts[who], env.others(k, s.world), env.fault(k));
      var s' := Run(c, s, two, true);
      s'.world == w' && |s'.attempts| == |s.attempts| && s'.attempts[who] == a'
  {
    var others, advance := Others(env.others(k, s.world)), Advance(who, env.fault(k));
    two := [others, advance];
    assert two[..1] == [others] && [others][..0] == [];
    assert Run(c, s, [], true) == s && Run(c, s, [others], true) == Apply(c, s, others, true);
  }

  // The attempt taken as one call, with others moving before each of its calls, is one of the runs
  // above: what every run keeps, it keeps.
  lemma {:induction false} FinishIsARun(c: Config, s: System, who: nat, env: Env, k: nat) returns (actions: seq<Action>)
    requires who < |s.attempts| && s.attempts[who] != Closed
    requires forall j, w :: LeavesHeadAlone(c, w, env.others(j, w))
    ensures var e := Finish(c, s.attempts[who], s.world, env, k); var s' := Run(c, s, actions, true);
      s'.world == e.world && |s'.attempts| == |s.attempts| && s'.attempts[who] == Done(e.outcome)
    decreases Rank(s.attempts[who])
  {
    actions := [];
    if !s.attempts[who].Done? {
      var two := OneCall(c, s, who, env, k);
      var rest := FinishIsARun(c, Run(c, s, two, true), who, env, k + 1);
      RunAppend(c, s, two, rest);
      actions := two + rest;
    }
  }
}

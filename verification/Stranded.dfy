/** What a base branch that moves at the wrong moment leaves behind, and for how long. */
module Stranding {
  import opened Wrappers
  import opened GitHub
  import opened Attempts
  import opened Runs
  import opened Recovery
  import Safety

  // The run in which the base branch moves between the read of its reference and of its file.
  function MovedBase(c: Config, file: string, file': string): seq<Action> {
    [Start, Advance(0, Delivered), Advance(0, Delivered),
     Others(World([Some(file), Some(file')], map[c.base := 1], [])),
     Advance(0, Delivered), Advance(0, Delivered), Advance(0, Delivered)]
  }

  // The head branch sits on this file, and there is no pull request for it.
  ghost predicate Stranded(c: Config, w: World, file: string) {
    RefAt(w, c.head).Some? && FileAt(w, c.head) == Some(file) && OpenNumbers(w.pulls, c.head, c.base) == []
  }

  // The base branch shows neither that file nor one whose edit is that file.
  ghost predicate BaseApart(c: Config, w: World, file: string) {
    FileAt(w, c.base).Some? ==> FileAt(w, c.base) != Some(file) && c.patch(FileAt(w, c.base).value) != Some(file)
  }

  // No attempt under way can commit to the stranded branch or open a pull request for it.
  ghost predicate Harmless(a: Attempt, file: string) {
    match a
    case NeedHeadRef(_, base, patched) => base != file && patched != file
    case NeedCreateRef(_, base, _) => base != file
    case NeedHeadFile(_, base, patched) => base != file && patched != file
    case NeedCommit(blob, _) => blob != file
    case NeedOpen(_) => false
    case _ => true
  }

  ghost predicate Frozen(c: Config, s: System, file: string) {
    Stranded(c, s.world, file) && forall i :: 0 <= i < |s.attempts| ==> Harmless(s.attempts[i], file)
  }

  // An attempt running alone meets the file, reports it as diverged and changes nothing.
  lemma {:induction false} StrandedIsDiverged(c: Config, w: World, base: string, file: string)
    requires Stranded(c, w, file) && RefAt(w, c.base).Some? && FileAt(w, c.base) == Some(base)
    requires Readable(Some(base)) && Readable(Some(file)) && c.patch(base).Some?
    requires file != base && c.patch(base) != Some(file)
    ensures Alone(c, w) == Ending(Failed("github_branch_diverged"), w, 5)
  {
    var sha, head, patched := RefAt(w, c.base).value, RefAt(w, c.head).value, c.patch(base).value;
    CalmStep(c, LookUp, w, 0);
    CalmStep(c, NeedBaseRef, w, 1);
    CalmStep(c, NeedBaseFile(sha), w, 2);
    CalmStep(c, NeedHeadRef(sha, base, patched), w, 3);
    CalmStep(c, NeedHeadFile(head, base, patched), w, 4);
    Safety.UnexpectedContentIsReported(c, head, base, patched, w);
  }

  // The branch is repaired exactly when the base branch comes back: to that file, or to one whose edit
  // it is.
  lemma {:induction false} StrandedIsRepairedIff(c: Config, w: World, file: string)
    requires Stranded(c, w, file) && Readable(Some(file))
    ensures Alone(c, w).outcome.Opened? <==>
      && Readable(FileAt(w, c.base)) && c.patch(FileAt(w, c.base).value).Some?
      && (FileAt(w, c.base) == Some(file) || c.patch(FileAt(w, c.base).value) == Some(file))
  {
    AloneRepairsExactlyReady(c, w);
  }

  // One call of a harmless attempt leaves the branch as it is, and stays harmless.
  lemma {:induction false} HarmlessReader(c: Config, a: Attempt, w: World, f: Fault, file: string)
    requires Stranded(c, w, file) && BaseApart(c, w, file) && Harmless(a, file)
    requires a.LookUp? || a.NeedBaseRef? || a.NeedBaseFile? || a.NeedSecondLook?
    ensures var (a', w') := Step(c, a, w, f); w' == w && Harmless(a', file) && (a'.Done? ==> a'.outcome.Failed?)
  {
  }

  lemma {:induction false} HarmlessOnHead(c: Config, a: Attempt, w: World, f: Fault, file: string)
    requires Stranded(c, w, file) && Harmless(a, file) && (a.NeedHeadRef? || a.NeedHeadFile?)
    ensures var (a', w') := Step(c, a, w, f); w' == w && Harmless(a', file) && (a'.Done? ==> a'.outcome.Failed?)
  {
  }

  lemma {:induction false} HarmlessWriter(c: Config, a: Attempt, w: World, f: Fault, file: string)
    requires Stranded(c, w, file) && Harmless(a, file) && (a.NeedCreateRef? || a.NeedCommit?)
    ensures var (a', w') := Step(c, a, w, f); w' == w && Harmless(a', file) && (a'.Done? ==> a'.outcome.Failed?)
  {
  }

  lemma {:induction false} HarmlessStep(c: Config, a: Attempt, w: World, f: Fault, file: string)
    requires Stranded(c, w, file) && BaseApart(c, w, file) && Harmless(a, file) && Rank(a) > 0
    ensures var (a', w') := Step(c, a, w, f); w' == w && Harmless(a', file) && (a'.Done? ==> a'.outcome.Failed?)
  {
    if a.NeedHeadRef? || a.NeedHeadFile? { HarmlessOnHead(c, a, w, f, file); }
    else if a.NeedCreateRef? || a.NeedCommit? { HarmlessWriter(c, a, w, f, file); }
    else { HarmlessReader(c, a, w, f, file); }
  }

  lemma {:induction false} OthersLeaveStranded(c: Config, w: World, w': World, file: string)
    requires Stranded(c, w, file) && LeavesHeadAlone(c, w, w')
    ensures Stranded(c, w', file)
  {
    AscendingFits(OpenNumbers(w'.pulls, c.head, c.base), OpenNumbers(w.pulls, c.head, c.base));
  }

  // What attempts have come to: those that had ended before, and failures.
  ghost predicate OnlyFails(s: System, s': System) {
    && |s.attempts| <= |s'.attempts|
    && forall i :: 0 <= i < |s'.attempts| && s'.attempts[i].Done? ==>
         s'.attempts[i].outcome.Failed? || (i < |s.attempts| && s.attempts[i] == s'.attempts[i])
  }

  lemma {:induction false} FrozenStays(c: Config, s: System, action: Action, file: string)
    requires Frozen(c, s, file) && BaseApart(c, s.world, file)
    ensures var s' := Apply(c, s, action, true); Frozen(c, s', file) && OnlyFails(s, s')
  {
    match action
    case Advance(who, fault) =>
      if who < |s.attempts| && Rank(s.attempts[who]) > 0 {
        HarmlessStep(c, s.attempts[who], s.world, fault, file);
      }
    case Others(next) =>
      if LeavesHeadAlone(c, s.world, next) { OthersLeaveStranded(c, s.world, next, file); }
    case _ =>
  }

  // The base branch keeps apart from the file throughout.
  ghost predicate KeepsApart(c: Config, s: System, actions: seq<Action>, file: string) {
    forall n :: 0 <= n <= |actions| ==> ApartAfter(c, s, actions, n, file)
  }

  ghost predicate ApartAfter(c: Config, s: System, actions: seq<Action>, n: nat, file: string)
    requires n <= |actions|
  {
    BaseApart(c, Run(c, s, actions[..n], true).world, file)
  }

  lemma {:induction false} FrozenForLong(c: Config, s: System, actions: seq<Action>, n: nat, file: string)
    requires Frozen(c, s, file) && n <= |actions| && KeepsApart(c, s, actions, file)
    ensures Frozen(c, Run(c, s, actions[..n], true), file) && OnlyFails(s, Run(c, s, actions[..n], true))
  {
    if n > 0 {
      FrozenForLong(c, s, actions, n - 1, file);
      assert ApartAfter(c, s, actions, n - 1, file);
      assert actions[..n] == actions[..n - 1] + [actions[n - 1]];
      AfterOne(c, s, actions[..n - 1], actions[n - 1]);
      FrozenStays(c, Run(c, s, actions[..n - 1], true), actions[n - 1], file);
    }
  }

  // However many attempts are made, and however their calls and everybody else interleave: as long as
  // the base branch keeps apart from the file, the branch stays as it is, no pull request opens, and
  // every attempt fails.
  lemma {:induction false} StrandedStaysStranded(c: Config, s: System, actions: seq<Action>, file: string)
    requires Frozen(c, s, file) && KeepsApart(c, s, actions, file)
    ensures Frozen(c, Run(c, s, actions, true), file) && OnlyFails(s, Run(c, s, actions, true))
  {
    FrozenForLong(c, s, actions, |actions|, file);
    assert actions[..|actions|] == actions;
  }

  // Nobody else ever touches the head branch, and yet: after that one attempt it sits on the older
  // file, the next attempt reports it as diverged, and it is frozen.
  lemma {:induction false} MovedBaseStrandsTheBranch(c: Config, file: string, file': string)
    requires Sound(c) && file != file' && Readable(Some(file)) && Readable(Some(file'))
    requires c.patch(file').Some? && c.patch(file') != Some(file)
    ensures Initial(c, Fresh(c, file))
    ensures var s := Run(c, Fresh(c, file), MovedBase(c, file, file'), true);
      && FileAt(s.world, c.base) == Some(file') && Frozen(c, s, file) && BaseApart(c, s.world, file)
      && Alone(c, s.world) == Ending(Failed("github_branch_diverged"), s.world, 5)
  {
    var s, go, patched := Fresh(c, file), Advance(0, Delivered), c.patch(file').value;
    var w := World([Some(file), Some(file')], map[c.base := 1], []);
    var move := Others(w);
    var r1 := [Start]; AfterOne(c, s, [], Start);
    assert [] + r1 == r1;
    var r2 := r1 + [go]; AfterOne(c, s, r1, go);
    var r3 := r2 + [go]; AfterOne(c, s, r2, go);
    assert Run(c, s, r3, true) == s.(attempts := [NeedBaseFile(0)]);
    var r4 := r3 + [move]; AfterOne(c, s, r3, move);
    assert Run(c, s, r4, true) == System(w, [NeedBaseFile(0)], [0, 1], [], []);
    var r5 := r4 + [go]; AfterOne(c, s, r4, go);
    assert Run(c, s, r5, true) == System(w, [NeedHeadRef(0, file', patched)], [0, 1], [], []);
    var r6 := r5 + [go]; AfterOne(c, s, r5, go);
    AfterOne(c, s, r6, go);
    assert r6 + [go] == MovedBase(c, file, file');
    var stuck := Run(c, s, MovedBase(c, file, file'), true);
    assert stuck == System(w.(refs := w.refs[c.head := 0]), [NeedCommit(file', patched)], [0, 1], [], []);
    StrandedIsDiverged(c, stuck.world, file', file);
  }
}

/** When one later attempt, running alone and without faults, repairs what earlier attempts left. */
module Recovery {
  import opened Wrappers
  import opened GitHub
  import opened Attempts
  import opened Runs

  // The state of the world an attempt can finish from.
  ghost predicate Ready(c: Config, w: World) {
    var numbers := OpenNumbers(w.pulls, c.head, c.base);
    if numbers != [] then |numbers| == 1 && RefAt(w, c.head).Some?
    else
      && Readable(FileAt(w, c.base))
      && c.patch(FileAt(w, c.base).value).Some?
      && (c.head !in w.refs
          || (Readable(FileAt(w, c.head))
              && (FileAt(w, c.head) == FileAt(w, c.base) || FileAt(w, c.head) == c.patch(FileAt(w, c.base).value))))
  }

  // What a finished attempt has brought about.
  ghost predicate Repaired(c: Config, w: World, e: Ending)
    requires Ready(c, w)
  {
    var numbers, numbers' := OpenNumbers(w.pulls, c.head, c.base), OpenNumbers(e.world.pulls, c.head, c.base);
    && e.outcome.Opened?
    && numbers' == [e.outcome.number]
    && RefAt(e.world, c.head) == Some(e.outcome.commit)
    && e.outcome.reused == (numbers != [])
    && (numbers != [] ==> e.world == w && e.calls == 1)
    && (numbers == [] ==>
          && FileAt(e.world, c.head) == c.patch(FileAt(w, c.base).value)
          && e.world.pulls == w.pulls + [Pull(c.head, c.base, true)]
          && e.calls <= 7)
  }

  lemma FreshPull(c: Config, w: World)
    requires OpenNumbers(w.pulls, c.head, c.base) == []
    ensures OpenNumbers(w.pulls + [Pull(c.head, c.base, true)], c.head, c.base) == [|w.pulls| + 1]
  {
    var pulls := w.pulls + [Pull(c.head, c.base, true)];
    assert pulls[..|pulls| - 1] == w.pulls;
  }

  lemma {:induction false} FromOpen(c: Config, commit: nat, w: World, k: nat)
    requires OpenNumbers(w.pulls, c.head, c.base) == [] && RefAt(w, c.base).Some? && RefAt(w, c.head) == Some(commit)
    ensures Finish(c, NeedOpen(commit), w, CALM, k) ==
      Ending(Opened(|w.pulls| + 1, commit, false), w.(pulls := w.pulls + [Pull(c.head, c.base, true)]), k + 1)
  {
  }

  lemma {:induction false} FromCommit(c: Config, blob: string, patched: string, w: World, k: nat)
    requires OpenNumbers(w.pulls, c.head, c.base) == [] && RefAt(w, c.base).Some?
    ensures var e := Finish(c, NeedCommit(blob, patched), w, CALM, k);
      if FileAt(w, c.head) != Some(blob) then e.outcome == Failed("github_commit_failed")
      else
        var w' := UpdateContent(w, c.head, blob, patched).value;
        e == Ending(Opened(|w.pulls| + 1, |w.commits|, false), w'.(pulls := w.pulls + [Pull(c.head, c.base, true)]),
          k + 2)
  {
    if FileAt(w, c.head) == Some(blob) {
      var w' := UpdateContent(w, c.head, blob, patched).value;
      FromOpen(c, |w.commits|, w', k + 1);
    } else {
      assert Step(c, NeedCommit(blob, patched), w, Delivered) == (Fail("github_commit_failed"), w);
    }
  }

  // One call of an attempt that runs alone.
  lemma {:induction false} CalmStep(c: Config, a: Attempt, w: World, k: nat)
    requires Rank(a) > 0
    ensures var (a', w') := Step(c, a, w, Delivered); Finish(c, a, w, CALM, k) == Finish(c, a', w', CALM, k + 1)
  {
    assert CALM.fault(k) == Delivered && CALM.others(k, w) == w;
  }

  // The attempt has opened a pull request whose head file is the edit.
  ghost predicate Landed(c: Config, w: World, patched: string, calls: nat, e: Ending) {
    && e.calls <= calls
    && e.outcome.Opened? && e.outcome.number == |w.pulls| + 1 && !e.outcome.reused
    && RefAt(e.world, c.head) == Some(e.outcome.commit)
    && FileAt(e.world, c.head) == Some(patched)
    && e.world.pulls == w.pulls + [Pull(c.head, c.base, true)]
  }

  // The base branch as the attempt has read it, and no pull request.
  ghost predicate BaseRead(c: Config, w: World, sha: nat, file: string, patched: string) {
    && OpenNumbers(w.pulls, c.head, c.base) == []
    && RefAt(w, c.base) == Some(sha) && FileAt(w, c.base) == Some(file)
    && c.patch(file) == Some(patched) && Readable(Some(file))
  }

  lemma {:induction false} CommitLands(c: Config, blob: string, patched: string, w: World, k: nat)
    requires OpenNumbers(w.pulls, c.head, c.base) == [] && RefAt(w, c.base).Some? && FileAt(w, c.head) == Some(blob)
    ensures Landed(c, w, patched, k + 2, Finish(c, NeedCommit(blob, patched), w, CALM, k))
  {
    FromCommit(c, blob, patched, w, k);
  }

  // No head branch yet: it is created at the base commit.
  lemma {:induction false} FromNoHead(c: Config, sha: nat, file: string, patched: string, w: World, k: nat)
    requires BaseRead(c, w, sha, file, patched) && c.head !in w.refs
    ensures Ready(c, w) && Landed(c, w, patched, k + 3, Finish(c, NeedCreateRef(sha, file, patched), w, CALM, k))
  {
    var w' := CreateRef(w, c.head, sha).value;
    CalmStep(c, NeedCreateRef(sha, file, patched), w, k);
    assert Step(c, NeedCreateRef(sha, file, patched), w, Delivered) == (NeedCommit(file, patched), w');
    CommitLands(c, file, patched, w', k + 1);
  }

  // A head branch without a commit cannot be created again.
  lemma {:induction false} FromBrokenHead(c: Config, sha: nat, file: string, patched: string, w: World, k: nat)
    requires BaseRead(c, w, sha, file, patched) && c.head in w.refs && RefAt(w, c.head).None?
    ensures !Ready(c, w) && Finish(c, NeedCreateRef(sha, file, patched), w, CALM, k).outcome.Failed?
  {
    CalmStep(c, NeedCreateRef(sha, file, patched), w, k);
  }

  // The head branch already holds the edit.
  lemma {:induction false} FromEditedHead(
    c: Config, sha: nat, file: string, patched: string, head: nat, w: World, k: nat)
    requires BaseRead(c, w, sha, file, patched) && RefAt(w, c.head) == Some(head)
    requires Readable(FileAt(w, c.head)) && FileAt(w, c.head) == Some(patched)
    ensures Ready(c, w) && Landed(c, w, patched, k + 2, Finish(c, NeedHeadFile(head, file, patched), w, CALM, k))
  {
    CalmStep(c, NeedHeadFile(head, file, patched), w, k);
    FromOpen(c, head, w, k + 1);
  }

  // The head branch still holds the base file.
  lemma {:induction false} FromUneditedHead(
    c: Config, sha: nat, file: string, patched: string, head: nat, w: World, k: nat)
    requires BaseRead(c, w, sha, file, patched) && RefAt(w, c.head) == Some(head)
    requires FileAt(w, c.head) == Some(file) && file != patched
    ensures Ready(c, w) && Landed(c, w, patched, k + 3, Finish(c, NeedHeadFile(head, file, patched), w, CALM, k))
  {
    CalmStep(c, NeedHeadFile(head, file, patched), w, k);
    CommitLands(c, file, patched, w, k + 1);
  }

  // The head branch holds something else, or nothing that can be read.
  lemma {:induction false} FromOtherHead(
    c: Config, sha: nat, file: string, patched: string, head: nat, w: World, k: nat)
    requires BaseRead(c, w, sha, file, patched) && RefAt(w, c.head) == Some(head)
    requires !Readable(FileAt(w, c.head)) || (FileAt(w, c.head) != Some(patched) && FileAt(w, c.head) != Some(file))
    ensures !Ready(c, w) && Finish(c, NeedHeadFile(head, file, patched), w, CALM, k).outcome.Failed?
  {
    CalmStep(c, NeedHeadFile(head, file, patched), w, k);
  }

  lemma {:induction false} FromHeadRef(c: Config, sha: nat, file: string, patched: string, w: World, k: nat)
    requires BaseRead(c, w, sha, file, patched)
    ensures var e := Finish(c, NeedHeadRef(sha, file, patched), w, CALM, k);
      (e.outcome.Opened? <==> Ready(c, w)) && (Ready(c, w) ==> Landed(c, w, patched, k + 4, e))
  {
    CalmStep(c, NeedHeadRef(sha, file, patched), w, k);
    if c.head !in w.refs {
      FromNoHead(c, sha, file, patched, w, k + 1);
    } else if RefAt(w, c.head).None? {
      FromBrokenHead(c, sha, file, patched, w, k + 1);
    } else {
      var head := RefAt(w, c.head).value;
      if !Readable(FileAt(w, c.head)) {
        FromOtherHead(c, sha, file, patched, head, w, k + 1);
      } else if FileAt(w, c.head) == Some(patched) {
        FromEditedHead(c, sha, file, patched, head, w, k + 1);
      } else if FileAt(w, c.head) == Some(file) {
        FromUneditedHead(c, sha, file, patched, head, w, k + 1);
      } else {
        FromOtherHead(c, sha, file, patched, head, w, k + 1);
      }
    }
  }

  lemma {:induction false} LandedIsRepaired(c: Config, w: World, patched: string, e: Ending)
    requires OpenNumbers(w.pulls, c.head, c.base) == [] && Ready(c, w)
    requires c.patch(FileAt(w, c.base).value) == Some(patched) && Landed(c, w, patched, 7, e)
    ensures Repaired(c, w, e)
  {
    FreshPull(c, w);
  }

  // From the read of the base file on.
  lemma {:induction false} FromBaseFile(c: Config, sha: nat, w: World)
    requires OpenNumbers(w.pulls, c.head, c.base) == [] && RefAt(w, c.base) == Some(sha)
    ensures var e := Finish(c, NeedBaseFile(sha), w, CALM, 2);
      (e.outcome.Opened? <==> Ready(c, w)) && (Ready(c, w) ==> Repaired(c, w, e))
  {
    CalmStep(c, NeedBaseFile(sha), w, 2);
    var file := FileAt(w, c.base);
    if Readable(file) && c.patch(file.value).Some? {
      var patched := c.patch(file.value).value;
      FromHeadRef(c, sha, file.value, patched, w, 3);
      if Ready(c, w) { LandedIsRepaired(c, w, patched, Finish(c, NeedBaseFile(sha), w, CALM, 2)); }
    }
  }

  lemma {:induction false} FromBaseRef(c: Config, w: World)
    requires OpenNumbers(w.pulls, c.head, c.base) == []
    ensures var e := Finish(c, NeedBaseRef, w, CALM, 1);
      (e.outcome.Opened? <==> Ready(c, w)) && (Ready(c, w) ==> Repaired(c, w, e))
  {
    CalmStep(c, NeedBaseRef, w, 1);
    if RefAt(w, c.base).Some? { FromBaseFile(c, RefAt(w, c.base).value, w); }
  }

  // An attempt running alone succeeds exactly from the ready worlds, and then it repairs them.
  lemma AloneRepairsExactlyReady(c: Config, w: World)
    ensures Alone(c, w).outcome.Opened? <==> Ready(c, w)
    ensures Ready(c, w) ==> Repaired(c, w, Alone(c, w))
  {
    CalmStep(c, LookUp, w, 0);
    if SeenPull(c, w).Nothing? { FromBaseRef(c, w); }
  }

  // The base branch has held one file throughout.
  ghost predicate BaseAlways(c: Config, s: System, file: string) {
    && c.base in s.world.refs
    && forall sha :: sha in s.baseLog ==> sha < |s.world.commits| && s.world.commits[sha] == Some(file)
  }

  lemma {:induction false} ReachableIsReady(c: Config, s0: System, actions: seq<Action>, file: string)
    requires Sound(c) && Initial(c, s0) && BaseAlways(c, Run(c, s0, actions, true), file)
    requires Readable(Some(file)) && c.patch(file).Some? && Readable(c.patch(file))
    ensures Ready(c, Run(c, s0, actions, true).world)
  {
    var s := Run(c, s0, actions, true);
    RunsKeepInv(c, s0, actions);
    assert s.world.refs[c.base] in s.baseLog;
    if HeadEdited(c, s) {
      var x :| Past(s, x) && c.patch(x) == FileAt(s.world, c.head);
      var k :| 0 <= k < |s.baseLog| && s.baseLog[k] < |s.world.commits| && s.world.commits[s.baseLog[k]] == Some(x);
      assert s.baseLog[k] in s.baseLog;
    }
  }

  // The run that lands an oversized edit and then crashes.
  function CrashedBeforeOpening(): seq<Action> {
    [Start, Advance(0, Delivered), Advance(0, Delivered), Advance(0, Delivered),
     Advance(0, Delivered), Advance(0, Delivered), Advance(0, Delivered)]
  }

  function Fresh(c: Config, file: string): System {
    System(World([Some(file)], map[c.base := 0], []), [], [0], [], [])
  }

  lemma {:induction false} AfterOne(c: Config, s: System, actions: seq<Action>, action: Action)
    ensures Run(c, s, actions + [action], true) == Apply(c, Run(c, s, actions, true), action, true)
  {
    assert (actions + [action])[..|actions|] == actions;
  }

  lemma {:induction false} CrashLeaves(c: Config, file: string, patched: string)
    requires Sound(c) && Readable(Some(file)) && c.patch(file) == Some(patched)
    ensures Initial(c, Fresh(c, file))
    ensures Run(c, Fresh(c, file), CrashedBeforeOpening(), true) ==
      System(World([Some(file), Some(patched)], map[c.base := 0, c.head := 1], []), [NeedOpen(1)], [0], [1], [])
  {
    var s, acts, go := Fresh(c, file), CrashedBeforeOpening(), Advance(0, Delivered);
    var w := s.world;
    var w' := w.(refs := w.refs[c.head := 0]);
    var r1 := [Start]; AfterOne(c, s, [], Start);
    assert [] + r1 == r1;
    var r2 := r1 + [go]; AfterOne(c, s, r1, go);
    var r3 := r2 + [go]; AfterOne(c, s, r2, go);
    assert Run(c, s, r3, true) == s.(attempts := [NeedBaseFile(0)]);
    var r4 := r3 + [go]; AfterOne(c, s, r3, go);
    assert Run(c, s, r4, true) == s.(attempts := [NeedHeadRef(0, file, patched)]);
    var r5 := r4 + [go]; AfterOne(c, s, r4, go);
    var r6 := r5 + [go]; AfterOne(c, s, r5, go);
    assert Run(c, s, r6, true) == s.(world := w', attempts := [NeedCommit(file, patched)]);
    AfterOne(c, s, r6, go);
    assert r6 + [go] == CrashedBeforeOpening();
  }

  // Recovery.  While the base file stays the same, an attempt running alone succeeds from whatever
  // any run left behind exactly when the edited file is one the content endpoint will still serve.
  // (An edit that grows the file past 256 KiB strands its own branch: see CrashLeaves.)
  lemma {:induction false} RecoveryExactlyIfEditReadable(c: Config, file: string)
    requires Sound(c) && Readable(Some(file)) && c.patch(file).Some?
    ensures (forall s0, actions {:trigger Run(c, s0, actions, true)} ::
        Initial(c, s0) && BaseAlways(c, Run(c, s0, actions, true), file) ==>
          Alone(c, Run(c, s0, actions, true).world).outcome.Opened?)
      <==> Readable(c.patch(file))
  {
    if Readable(c.patch(file)) {
      forall s0, actions | Initial(c, s0) && BaseAlways(c, Run(c, s0, actions, true), file)
        ensures Alone(c, Run(c, s0, actions, true).world).outcome.Opened?
      {
        ReachableIsReady(c, s0, actions, file);
        AloneRepairsExactlyReady(c, Run(c, s0, actions, true).world);
      }
    } else {
      var s := Run(c, Fresh(c, file), CrashedBeforeOpening(), true);
      CrashLeaves(c, file, c.patch(file).value);
      AloneRepairsExactlyReady(c, s.world);
      assert BaseAlways(c, s, file) && !Ready(c, s.world);
    }
  }

  // The recovered state in full: the pull request is open, its head file is the edit of the base
  // file, the commit named is the head commit, at most 7 calls were made, and Reused says whether a
  // pull request was already open.
  lemma {:induction false} Recovery(c: Config, s0: System, actions: seq<Action>, file: string)
    requires Sound(c) && Initial(c, s0) && BaseAlways(c, Run(c, s0, actions, true), file)
    requires Readable(Some(file)) && c.patch(file).Some? && Readable(c.patch(file))
    ensures var w := Run(c, s0, actions, true).world; var e := Alone(c, w);
      && e.outcome.Opened?
      && OpenNumbers(e.world.pulls, c.head, c.base) == [e.outcome.number]
      && RefAt(e.world, c.head) == Some(e.outcome.commit)
      && FileAt(e.world, c.head) == c.patch(file)
      && (e.outcome.reused <==> OpenNumbers(w.pulls, c.head, c.base) != [])
      && e.calls <= 7
  {
    var s := Run(c, s0, actions, true);
    ReachableIsReady(c, s0, actions, file);
    AloneRepairsExactlyReady(c, s.world);
    RunsKeepInv(c, s0, actions);
    assert s.world.refs[c.base] in s.baseLog;
    if OpenNumbers(s.world.pulls, c.head, c.base) != [] {
      var x :| Past(s, x) && c.patch(x) == FileAt(s.world, c.head);
      var k :| 0 <= k < |s.baseLog| && s.baseLog[k] < |s.world.commits| && s.world.commits[s.baseLog[k]] == Some(x);
      assert s.baseLog[k] in s.baseLog;
    }
  }

  // After a save that was lost, the pull request is open; the retry changes nothing and reuses it.
  lemma {:induction false} RetryReusesOpenPull(c: Config, s0: System, actions: seq<Action>)
    requires Sound(c) && Initial(c, s0)
    ensures var w := Run(c, s0, actions, true).world;
      OpenNumbers(w.pulls, c.head, c.base) != [] ==>
        && RefAt(w, c.head).Some?
        && Alone(c, w) == Ending(Opened(OpenNumbers(w.pulls, c.head, c.base)[0], RefAt(w, c.head).value, true), w, 1)
  {
    var w := Run(c, s0, actions, true).world;
    RunsKeepInv(c, s0, actions);
    AloneRepairsExactlyReady(c, w);
  }
}

/**
  Any number of attempts for one change, interleaved call by call with each other and with everybody
  else, each call failing before or after it takes effect, and any attempt stopping anywhere.
*/
module Runs {
  import opened Wrappers
  import opened GitHub
  import opened Attempts

  // `baseLog` lists every commit the base branch has pointed to, `landed` the commits attempts have
  // made, `saved` the outcomes that reached the remediation store.
  datatype System = System(
    world: World, attempts: seq<Attempt>, baseLog: seq<nat>, landed: seq<nat>, saved: seq<Outcome>)

  // An attempt that is never advanced again has crashed.
  datatype Action = Start | Advance(who: nat, fault: Fault) | Save(who: nat, fault: Fault) | Others(next: World)

  // The base branch, if there is one, points to a commit.
  predicate BaseExists(c: Config, w: World) {
    c.base in w.refs ==> w.refs[c.base] < |w.commits|
  }

  // What everybody else may do: push to the base branch and to other branches, open and close pull
  // requests, but neither move the head branch nor open a pull request for it.
  predicate LeavesHeadAlone(c: Config, w: World, w': World) {
    && w.commits <= w'.commits
    && (c.head in w.refs <==> c.head in w'.refs)
    && (c.head in w.refs ==> w'.refs[c.head] == w.refs[c.head])
    && (BaseExists(c, w) ==> BaseExists(c, w'))
    && |w.pulls| <= |w'.pulls|
    && (forall i :: 0 <= i < |w.pulls| ==> w'.pulls[i] == w.pulls[i].(open := w'.pulls[i].open))
    && (forall n :: n in OpenNumbers(w'.pulls, c.head, c.base) ==> n in OpenNumbers(w.pulls, c.head, c.base))
  }

  function LogBase(c: Config, log: seq<nat>, w: World): seq<nat> {
    if c.base in w.refs then log + [w.refs[c.base]] else log
  }

  // `tame` limits Others to moves that leave the head branch alone.
  function Apply(c: Config, s: System, action: Action, tame: bool): System {
    match action
    case Start => s.(attempts := s.attempts + [LookUp])
    case Advance(who, fault) =>
      if who >= |s.attempts| || Rank(s.attempts[who]) == 0 then s
      else
        var a := s.attempts[who];
        var (a', w') := Step(c, a, s.world, fault);
        s.(world := w', attempts := s.attempts[who := a'],
           landed := if a.NeedCommit? && w' != s.world then s.landed + [|s.world.commits|] else s.landed)
    case Save(who, fault) =>
      if who >= |s.attempts| || !s.attempts[who].Done? then s
      else s.(attempts := s.attempts[who := Closed],
              saved := if fault.Refused? then s.saved else s.saved + [s.attempts[who].outcome])
    case Others(next) =>
      if tame && !LeavesHeadAlone(c, s.world, next) then s
      else s.(world := next, baseLog := LogBase(c, s.baseLog, next))
  }

  function Run(c: Config, s: System, actions: seq<Action>, tame: bool): System {
    if actions == [] then s
    else Apply(c, Run(c, s, actions[..|actions| - 1], tame), actions[|actions| - 1], tame)
  }

  // Before the first attempt: no head branch, no pull request for it.
  ghost predicate Initial(c: Config, s: System) {
    && c.head !in s.world.refs
    && OpenNumbers(s.world.pulls, c.head, c.base) == []
    && BaseExists(c, s.world)
    && s == System(s.world, [], LogBase(c, [], s.world), [], [])
  }

  // The edit never applies to its own result, and the two branches are different.
  ghost predicate Sound(c: Config) {
    && c.head != c.base
    && forall x {:trigger c.patch(x)} :: c.patch(x).Some? ==> c.patch(c.patch(x).value).None?
  }

  // `file` was the base branch's file at some time.
  ghost predicate Past(s: System, file: string) {
    exists k :: 0 <= k < |s.baseLog| && s.baseLog[k] < |s.world.commits| && s.world.commits[s.baseLog[k]] == Some(file)
  }

  ghost predicate HeadEdited(c: Config, s: System) {
    && RefAt(s.world, c.head).Some?
    && FileAt(s.world, c.head).Some?
    && exists x :: Past(s, x) && c.patch(x) == FileAt(s.world, c.head)
  }

  ghost predicate Ours(c: Config, s: System, outcome: Outcome) {
    outcome.Opened? ==>
      && 1 <= outcome.number <= |s.world.pulls|
      && s.world.pulls[outcome.number - 1].head == c.head
      && s.world.pulls[outcome.number - 1].base == c.base
  }

  ghost predicate AttemptInv(c: Config, s: System, a: Attempt) {
    match a
    case NeedBaseFile(sha) => sha in s.baseLog
    case NeedHeadRef(sha, file, patched) => sha in s.baseLog && Past(s, file) && c.patch(file) == Some(patched)
    case NeedCreateRef(sha, file, patched) => sha in s.baseLog && Past(s, file) && c.patch(file) == Some(patched)
    case NeedHeadFile(_, file, patched) =>
      Past(s, file) && c.patch(file) == Some(patched) && RefAt(s.world, c.head).Some?
    case NeedCommit(blob, patched) =>
      Past(s, blob) && c.patch(blob) == Some(patched) && RefAt(s.world, c.head).Some?
    case NeedOpen(_) => HeadEdited(c, s)
    case Done(outcome) => Ours(c, s, outcome)
    case _ => true
  }

  ghost predicate WorldInv(c: Config, s: System) {
    && (forall sha :: sha in s.baseLog ==> sha < |s.world.commits|)
    && (c.base in s.world.refs ==> s.world.refs[c.base] in s.baseLog)
    && (c.head in s.world.refs ==> RefAt(s.world, c.head).Some?)
    && (c.head in s.world.refs && s.landed == [] ==> s.world.refs[c.head] in s.baseLog)
    && (s.landed != [] ==>
      RefAt(s.world, c.head).Some? && s.landed == [RefAt(s.world, c.head).value] && HeadEdited(c, s))
    && |OpenNumbers(s.world.pulls, c.head, c.base)| <= 1
    && (OpenNumbers(s.world.pulls, c.head, c.base) != [] ==> HeadEdited(c, s))
  }

  ghost predicate Inv(c: Config, s: System) {
    && WorldInv(c, s)
    && (forall i :: 0 <= i < |s.attempts| ==> AttemptInv(c, s, s.attempts[i]))
    && (forall i :: 0 <= i < |s.saved| ==> Ours(c, s, s.saved[i]))
  }

  // What no action undoes.
  ghost predicate Grows(c: Config, s: System, s': System) {
    && s.world.commits <= s'.world.commits
    && s.baseLog <= s'.baseLog
    && (RefAt(s.world, c.head).Some? ==> RefAt(s'.world, c.head).Some?)
    && (HeadEdited(c, s) ==> RefAt(s'.world, c.head) == RefAt(s.world, c.head))
    && |s.world.pulls| <= |s'.world.pulls|
    && forall i :: 0 <= i < |s.world.pulls| ==>
         s'.world.pulls[i].head == s.world.pulls[i].head && s'.world.pulls[i].base == s.world.pulls[i].base
  }

  lemma PastStays(c: Config, s: System, s': System, file: string)
    requires Grows(c, s, s') && Past(s, file)
    ensures Past(s', file)
  {
    var k :| 0 <= k < |s.baseLog| && s.baseLog[k] < |s.world.commits| && s.world.commits[s.baseLog[k]] == Some(file);
    assert s'.baseLog[k] == s.baseLog[k];
  }

  lemma EditedStays(c: Config, s: System, s': System)
    requires Grows(c, s, s') && HeadEdited(c, s)
    ensures HeadEdited(c, s')
  {
    var x :| Past(s, x) && c.patch(x) == FileAt(s.world, c.head);
    PastStays(c, s, s', x);
  }

  lemma AttemptStays(c: Config, s: System, s': System, a: Attempt)
    requires Grows(c, s, s') && AttemptInv(c, s, a)
    ensures AttemptInv(c, s', a)
  {
    match a
    case NeedHeadRef(_, file, _) => PastStays(c, s, s', file);
    case NeedCreateRef(_, file, _) => PastStays(c, s, s', file);
    case NeedHeadFile(_, file, _) => PastStays(c, s, s', file);
    case NeedCommit(blob, _) => PastStays(c, s, s', blob);
    case NeedOpen(_) => EditedStays(c, s, s');
    case _ =>
  }

  // The compare-and-swap cannot succeed on a branch that already holds an edited file.
  lemma EditedNeverRecommits(c: Config, s: System, blob: string, patched: string)
    requires Sound(c) && HeadEdited(c, s) && c.patch(blob) == Some(patched)
    ensures UpdateContent(s.world, c.head, blob, patched).None?
  {
    var x :| Past(s, x) && c.patch(x) == FileAt(s.world, c.head);
    assert c.patch(c.patch(x).value).None?;
  }

  // The part of Grows that is about the remote.
  ghost predicate WorldGrows(c: Config, w: World, w': World, edited: bool) {
    && w.commits <= w'.commits
    && (RefAt(w, c.head).Some? ==> RefAt(w', c.head).Some?)
    && (edited ==> RefAt(w', c.head) == RefAt(w, c.head))
    && |w.pulls| <= |w'.pulls|
    && forall i :: 0 <= i < |w.pulls| ==> w'.pulls[i].head == w.pulls[i].head && w'.pulls[i].base == w.pulls[i].base
  }

  lemma {:induction false} CreateGrows(c: Config, a: Attempt, w: World, f: Fault, edited: bool)
    requires a.NeedCreateRef? && (edited ==> RefAt(w, c.head).Some?)
    ensures WorldGrows(c, w, Step(c, a, w, f).1, edited)
  {
  }

  lemma {:induction false} CommitGrows(c: Config, a: Attempt, w: World, f: Fault, edited: bool)
    requires a.NeedCommit? && (edited ==> UpdateContent(w, c.head, a.blob, a.patched).None?)
    ensures WorldGrows(c, w, Step(c, a, w, f).1, edited)
  {
  }

  lemma {:induction false} OpenGrows(c: Config, a: Attempt, w: World, f: Fault, edited: bool)
    requires a.NeedOpen?
    ensures WorldGrows(c, w, Step(c, a, w, f).1, edited)
  {
  }

  lemma {:induction false} StepGrows(c: Config, s: System, a: Attempt, f: Fault)
    requires Sound(c) && AttemptInv(c, s, a) && Rank(a) > 0
    ensures WorldGrows(c, s.world, Step(c, a, s.world, f).1, HeadEdited(c, s))
  {
    if a.NeedCreateRef? {
      CreateGrows(c, a, s.world, f, HeadEdited(c, s));
    } else if a.NeedCommit? {
      if HeadEdited(c, s) { EditedNeverRecommits(c, s, a.blob, a.patched); }
      CommitGrows(c, a, s.world, f, HeadEdited(c, s));
    } else if a.NeedOpen? {
      OpenGrows(c, a, s.world, f, HeadEdited(c, s));
    } else {
      assert Step(c, a, s.world, f).1 == s.world;
    }
  }

  lemma {:induction false} AdvanceGrows(c: Config, s: System, who: nat, fault: Fault)
    requires Sound(c) && Inv(c, s) && who < |s.attempts| && Rank(s.attempts[who]) > 0
    ensures Grows(c, s, Apply(c, s, Advance(who, fault), true))
  {
    StepGrows(c, s, s.attempts[who], fault);
  }

  lemma BasePast(c: Config, s: System)
    requires WorldInv(c, s) && FileAt(s.world, c.base).Some?
    ensures Past(s, FileAt(s.world, c.base).value)
  {
    var k :| 0 <= k < |s.baseLog| && s.baseLog[k] == s.world.refs[c.base];
  }

  // s' is s with the world one call further.
  ghost predicate Stepped(c: Config, s: System, s': System, a: Attempt, fault: Fault) {
    && Sound(c) && WorldInv(c, s) && AttemptInv(c, s, a) && Grows(c, s, s')
    && Rank(a) > 0 && s'.world == Step(c, a, s.world, fault).1 && s'.baseLog == s.baseLog
  }

  lemma {:induction false} SteppedBaseFile(c: Config, s: System, s': System, a: Attempt, fault: Fault)
    requires Stepped(c, s, s', a, fault) && a.NeedBaseFile?
    ensures AttemptInv(c, s', Step(c, a, s.world, fault).0)
  {
    if FileAt(s.world, c.base).Some? {
      BasePast(c, s);
      PastStays(c, s, s', FileAt(s.world, c.base).value);
    }
  }

  lemma {:induction false} SteppedBaseRef(c: Config, s: System, s': System, a: Attempt, fault: Fault)
    requires Stepped(c, s, s', a, fault) && a.NeedBaseRef?
    ensures AttemptInv(c, s', Step(c, a, s.world, fault).0)
  {
  }

  lemma {:induction false} OursStays(c: Config, s: System, s': System, outcome: Outcome)
    requires Ours(c, s, outcome) && Grows(c, s, s')
    ensures Ours(c, s', outcome)
  {
  }

  lemma {:induction false} SightingStays(c: Config, s: System, s': System)
    requires Grows(c, s, s')
    ensures var seen := SeenPull(c, s.world); seen.One? ==> Ours(c, s', Opened(seen.number, seen.commit, true))
  {
    SightingIsOurs(c, s);
    var seen := SeenPull(c, s.world);
    if seen.One? { OursStays(c, s, s', Opened(seen.number, seen.commit, true)); }
  }

  lemma {:induction false} SteppedLookUp(c: Config, s: System, s': System, a: Attempt, fault: Fault)
    requires Stepped(c, s, s', a, fault) && a.LookUp?
    ensures AttemptInv(c, s', Step(c, a, s.world, fault).0)
  {
    SightingStays(c, s, s');
  }

  lemma {:induction false} SteppedSecondLook(c: Config, s: System, s': System, a: Attempt, fault: Fault)
    requires Stepped(c, s, s', a, fault) && a.NeedSecondLook?
    ensures AttemptInv(c, s', Step(c, a, s.world, fault).0)
  {
    SightingStays(c, s, s');
  }

  lemma SteppedOnHead(c: Config, s: System, s': System, a: Attempt, fault: Fault)
    requires Stepped(c, s, s', a, fault) && (a.NeedHeadRef? || a.NeedHeadFile? || a.NeedCreateRef?)
    ensures AttemptInv(c, s', Step(c, a, s.world, fault).0)
  {
    PastStays(c, s, s', a.file);
  }

  lemma SteppedCommit(c: Config, s: System, s': System, a: Attempt, fault: Fault)
    requires Stepped(c, s, s', a, fault) && a.NeedCommit?
    ensures AttemptInv(c, s', Step(c, a, s.world, fault).0)
  {
    PastStays(c, s, s', a.blob);
  }

  lemma SteppedOpen(c: Config, s: System, s': System, a: Attempt, fault: Fault)
    requires Stepped(c, s, s', a, fault) && a.NeedOpen?
    ensures AttemptInv(c, s', Step(c, a, s.world, fault).0)
  {
  }

  // The attempt that just moved is where its locals say it is.
  lemma AdvancedAttempt(c: Config, s: System, who: nat, fault: Fault)
    requires Sound(c) && Inv(c, s) && who < |s.attempts| && Rank(s.attempts[who]) > 0
    ensures AttemptInv(c, Apply(c, s, Advance(who, fault), true), Apply(c, s, Advance(who, fault), true).attempts[who])
  {
    var a, s' := s.attempts[who], Apply(c, s, Advance(who, fault), true);
    AdvanceGrows(c, s, who, fault);
    assert Stepped(c, s, s', a, fault);
    if a.NeedCommit? { SteppedCommit(c, s, s', a, fault); }
    else if a.NeedOpen? { SteppedOpen(c, s, s', a, fault); }
    else if a.NeedHeadRef? || a.NeedHeadFile? || a.NeedCreateRef? { SteppedOnHead(c, s, s', a, fault); }
    else if a.NeedBaseFile? { SteppedBaseFile(c, s, s', a, fault); }
    else if a.NeedBaseRef? { SteppedBaseRef(c, s, s', a, fault); }
    else if a.LookUp? { SteppedLookUp(c, s, s', a, fault); }
    else { SteppedSecondLook(c, s, s', a, fault); }
  }

  lemma SightingIsOurs(c: Config, s: System)
    ensures var seen := SeenPull(c, s.world);
      seen.One? ==> Ours(c, s, Opened(seen.number, seen.commit, true))
  {
    OpenNumbersAre(s.world.pulls, c.head, c.base);
    var numbers := OpenNumbers(s.world.pulls, c.head, c.base);
    assert numbers != [] ==> numbers[0] in numbers;
  }

  lemma CreatedRefKeepsWorld(c: Config, s: System, who: nat, fault: Fault)
    requires Sound(c) && Inv(c, s) && who < |s.attempts| && s.attempts[who].NeedCreateRef?
    ensures WorldInv(c, Apply(c, s, Advance(who, fault), true))
  {
    assert AttemptInv(c, s, s.attempts[who]);
    if HeadEdited(c, s) {
      AdvanceGrows(c, s, who, fault);
      EditedStays(c, s, Apply(c, s, Advance(who, fault), true));
    }
  }

  lemma CommitKeepsWorld(c: Config, s: System, who: nat, fault: Fault)
    requires Sound(c) && Inv(c, s) && who < |s.attempts| && s.attempts[who].NeedCommit?
    ensures WorldInv(c, Apply(c, s, Advance(who, fault), true))
  {
    var a, s' := s.attempts[who], Apply(c, s, Advance(who, fault), true);
    assert AttemptInv(c, s, a);
    AdvanceGrows(c, s, who, fault);
    if HeadEdited(c, s) {
      EditedNeverRecommits(c, s, a.blob, a.patched);
      EditedStays(c, s, s');
    } else {
      PastStays(c, s, s', a.blob);
    }
  }

  lemma {:induction false} OneMoreOpen(pulls: seq<Pull>, head: string, base: string)
    ensures OpenNumbers(pulls + [Pull(head, base, true)], head, base) == OpenNumbers(pulls, head, base) + [|pulls| + 1]
  {
    assert (pulls + [Pull(head, base, true)])[..|pulls|] == pulls;
  }

  lemma OpenedOnce(c: Config, commit: nat, w: World, fault: Fault)
    requires |OpenNumbers(w.pulls, c.head, c.base)| <= 1
    ensures var w' := StepOpen(c, commit, w, fault).1;
      && w'.refs == w.refs && w'.commits == w.commits && |OpenNumbers(w'.pulls, c.head, c.base)| <= 1
  {
    OneMoreOpen(w.pulls, c.head, c.base);
  }

  lemma EditedWorldInv(c: Config, s: System, s': System)
    requires WorldInv(c, s) && HeadEdited(c, s')
    requires s'.world.refs == s.world.refs && s'.world.commits == s.world.commits
      && |OpenNumbers(s'.world.pulls, c.head, c.base)| <= 1
    requires s'.baseLog == s.baseLog && s'.landed == s.landed
    ensures WorldInv(c, s')
  {
  }

  lemma OpenKeepsWorld(c: Config, s: System, who: nat, fault: Fault)
    requires Sound(c) && Inv(c, s) && who < |s.attempts| && s.attempts[who].NeedOpen?
    ensures WorldInv(c, Apply(c, s, Advance(who, fault), true))
  {
    var s' := Apply(c, s, Advance(who, fault), true);
    assert HeadEdited(c, s) by { assert AttemptInv(c, s, s.attempts[who]); }
    AdvanceGrows(c, s, who, fault);
    EditedStays(c, s, s');
    OpenedOnce(c, s.attempts[who].commit, s.world, fault);
    EditedWorldInv(c, s, s');
  }

  lemma {:induction false} ReadKeepsWorld(c: Config, s: System, who: nat, fault: Fault)
    requires Sound(c) && Inv(c, s) && who < |s.attempts| && Rank(s.attempts[who]) > 0
    requires var a := s.attempts[who]; !a.NeedCreateRef? && !a.NeedCommit? && !a.NeedOpen?
    ensures WorldInv(c, Apply(c, s, Advance(who, fault), true))
  {
    var s' := Apply(c, s, Advance(who, fault), true);
    assert s'.world == s.world && s'.baseLog == s.baseLog && s'.landed == s.landed;
    if HeadEdited(c, s) {
      AdvanceGrows(c, s, who, fault);
      EditedStays(c, s, s');
    }
  }

  lemma AdvancedWorld(c: Config, s: System, who: nat, fault: Fault)
    requires Sound(c) && Inv(c, s) && who < |s.attempts| && Rank(s.attempts[who]) > 0
    ensures WorldInv(c, Apply(c, s, Advance(who, fault), true))
  {
    var a := s.attempts[who];
    if a.NeedCreateRef? { CreatedRefKeepsWorld(c, s, who, fault); }
    else if a.NeedCommit? { CommitKeepsWorld(c, s, who, fault); }
    else if a.NeedOpen? { OpenKeepsWorld(c, s, who, fault); }
    else { ReadKeepsWorld(c, s, who, fault); }
  }

  lemma AscendingFits(ns: seq<nat>, ms: seq<nat>)
    requires forall i, j :: 0 <= i < j < |ns| ==> ns[i] < ns[j]
    requires forall n :: n in ns ==> n in ms
    requires |ms| <= 1
    ensures |ns| <= |ms|
  {
    if ns != [] {
      var last := ns[|ns| - 1];
      assert ns[0] in ns && last in ns;
      assert last == ms[0] == ns[0];
    }
  }

  lemma {:induction false} OthersGrow(c: Config, s: System, next: World)
    requires WorldInv(c, s) && LeavesHeadAlone(c, s.world, next)
    ensures Grows(c, s, Apply(c, s, Others(next), true))
  {
  }

  lemma {:induction false} OthersKeepWorld(c: Config, s: System, next: World)
    requires WorldInv(c, s) && LeavesHeadAlone(c, s.world, next)
    ensures WorldInv(c, Apply(c, s, Others(next), true))
  {
    var s' := Apply(c, s, Others(next), true);
    AscendingFits(OpenNumbers(next.pulls, c.head, c.base), OpenNumbers(s.world.pulls, c.head, c.base));
    OthersGrow(c, s, next);
    if HeadEdited(c, s) { EditedStays(c, s, s'); }
  }

  lemma OthersKeepInv(c: Config, s: System, next: World)
    requires Sound(c) && Inv(c, s) && LeavesHeadAlone(c, s.world, next)
    ensures Inv(c, Apply(c, s, Others(next), true))
  {
    var s' := Apply(c, s, Others(next), true);
    OthersGrow(c, s, next);
    OthersKeepWorld(c, s, next);
    forall i | 0 <= i < |s'.attempts| ensures AttemptInv(c, s', s'.attempts[i]) {
      AttemptStays(c, s, s', s.attempts[i]);
    }
  }

  lemma AdvanceKeepsInv(c: Config, s: System, who: nat, fault: Fault)
    requires Sound(c) && Inv(c, s) && who < |s.attempts| && Rank(s.attempts[who]) > 0
    ensures Inv(c, Apply(c, s, Advance(who, fault), true))
  {
    var s' := Apply(c, s, Advance(who, fault), true);
    AdvanceGrows(c, s, who, fault);
    AdvancedAttempt(c, s, who, fault);
    AdvancedWorld(c, s, who, fault);
    forall i | 0 <= i < |s'.attempts| && i != who ensures AttemptInv(c, s', s'.attempts[i]) {
      AttemptStays(c, s, s', s.attempts[i]);
    }
  }

  lemma ActionKeepsInv(c: Config, s: System, action: Action)
    requires Sound(c) && Inv(c, s)
    ensures Inv(c, Apply(c, s, action, true))
  {
    var s' := Apply(c, s, action, true);
    match action
    case Advance(who, fault) =>
      if who < |s.attempts| && Rank(s.attempts[who]) > 0 { AdvanceKeepsInv(c, s, who, fault); }
    case Others(next) =>
      if LeavesHeadAlone(c, s.world, next) { OthersKeepInv(c, s, next); }
    case _ =>
      assert Grows(c, s, s');
      if HeadEdited(c, s) { EditedStays(c, s, s'); }
      forall i | 0 <= i < |s.attempts| ensures AttemptInv(c, s', s.attempts[i]) {
        AttemptStays(c, s, s', s.attempts[i]);
      }
  }

  lemma {:induction false} RunsKeepInv(c: Config, s: System, actions: seq<Action>)
    requires Sound(c) && Initial(c, s)
    ensures Inv(c, Run(c, s, actions, true))
  {
    if actions != [] {
      RunsKeepInv(c, s, actions[..|actions| - 1]);
      ActionKeepsInv(c, Run(c, s, actions[..|actions| - 1], true), actions[|actions| - 1]);
    }
  }
}

/**
  The write side of GitHub as the remediation client sees it, and one pull-request attempt as a
  step function over it.

  A commit is a position in `commits`; a commit holds the file at the configured path, if there is
  one.  A branch points at a commit.  Pull request n is `pulls[n - 1]`.  A blob SHA identifies its
  content, so the model passes the content itself where the API passes the SHA.
*/
module GitHub {
  import opened Wrappers

  const MAX_CONTENT := 262144

  datatype Pull = Pull(head: string, base: string, open: bool)

  datatype World = World(commits: seq<Option<string>>, refs: map<string, nat>, pulls: seq<Pull>)

  function RefAt(w: World, branch: string): Option<nat> {
    if branch in w.refs && w.refs[branch] < |w.commits| then Some(w.refs[branch]) else None
  }

  function FileAt(w: World, branch: string): Option<string> {
    if branch in w.refs && w.refs[branch] < |w.commits| then w.commits[w.refs[branch]] else None
  }

  // What the content endpoint will hand out: a file that is not empty and not above 256 KiB.
  predicate Readable(file: Option<string>) {
    file.Some? && 0 < |file.value| <= MAX_CONTENT
  }

  predicate Matches(p: Pull, head: string, base: string) {
    p.open && p.head == head && p.base == base
  }

  function OpenNumbers(pulls: seq<Pull>, head: string, base: string): (ns: seq<nat>)
    ensures forall i :: 0 <= i < |ns| ==> 1 <= ns[i] <= |pulls|
    ensures forall i, j :: 0 <= i < j < |ns| ==> ns[i] < ns[j]
  {
    if pulls == [] then []
    else
      var last := |pulls| - 1;
      OpenNumbers(pulls[..last], head, base) + if Matches(pulls[last], head, base) then [last + 1] else []
  }

  // Creating a reference that exists is refused, and so is one to an unknown commit.
  function CreateRef(w: World, branch: string, sha: nat): Option<World> {
    if branch in w.refs || sha >= |w.commits| then None
    else Some(w.(refs := w.refs[branch := sha]))
  }

  // A content update is a compare-and-swap on the blob the branch holds now.
  function UpdateContent(w: World, branch: string, blob: string, content: string): Option<World> {
    if FileAt(w, branch) != Some(blob) then None
    else Some(w.(commits := w.commits + [Some(content)], refs := w.refs[branch := |w.commits|]))
  }

  // A second open pull request for the same head and base is refused.
  function CreatePull(w: World, head: string, base: string): Option<World> {
    if RefAt(w, head).None? || RefAt(w, base).None? || OpenNumbers(w.pulls, head, base) != [] then None
    else Some(w.(pulls := w.pulls + [Pull(head, base, true)]))
  }

  lemma {:induction false} OpenNumbersAre(pulls: seq<Pull>, head: string, base: string)
    ensures forall n {:trigger n in OpenNumbers(pulls, head, base)} ::
      n in OpenNumbers(pulls, head, base) <==>
        1 <= n <= |pulls| && pulls[n - 1].open && pulls[n - 1].head == head && pulls[n - 1].base == base
  {
    if pulls != [] {
      OpenNumbersAre(pulls[..|pulls| - 1], head, base);
    }
  }
}

/** One run of the pull-request call as a program counter with its locals. */
module Attempts {
  import opened Wrappers
  import opened GitHub

  // `patch` is the content edit of one fixed change; None is an edit that does not apply.
  datatype Config = Config(head: string, base: string, patch: string -> Option<string>)

  datatype Outcome =
    | Opened(number: nat, commit: nat, reused: bool)
    | Failed(code: string)

  datatype Attempt =
    | LookUp
    | NeedBaseRef
    | NeedBaseFile(baseSha: nat)
    | NeedHeadRef(baseSha: nat, file: string, patched: string)
    | NeedCreateRef(baseSha: nat, file: string, patched: string)
    | NeedHeadFile(headSha: nat, file: string, patched: string)
    | NeedCommit(blob: string, patched: string)
    | NeedOpen(commit: nat)
    | NeedSecondLook
    | Done(outcome: Outcome)
    | Closed

  function Rank(a: Attempt): nat {
    match a
    case LookUp => 8
    case NeedBaseRef => 7
    case NeedBaseFile(_) => 6
    case NeedHeadRef(_, _, _) => 5
    case NeedCreateRef(_, _, _) => 4
    case NeedHeadFile(_, _, _) => 4
    case NeedCommit(_, _) => 3
    case NeedOpen(_) => 2
    case NeedSecondLook => 1
    case _ => 0
  }

  datatype Sighting = Nothing | One(number: nat, commit: nat) | Unusable

  // The open-pull listing and its projection: more than one entry, or one without a head commit,
  // is an error.
  function SeenPull(c: Config, w: World): Sighting {
    var numbers := OpenNumbers(w.pulls, c.head, c.base);
    if numbers == [] then Nothing
    else if |numbers| != 1 || RefAt(w, c.head).None? then Unusable
    else One(numbers[0], RefAt(w, c.head).value)
  }

  function Fail(code: string): Attempt { Done(Failed(code)) }

  // One API call of an attempt.
  function Step(c: Config, a: Attempt, w: World, f: Fault): (r: (Attempt, World))
    requires Rank(a) > 0
    ensures Rank(r.0) < Rank(a)
  {
    match a
    case LookUp => (StepLookUp(c, w, f), w)
    case NeedBaseRef => (StepBaseRef(c, w, f), w)
    case NeedBaseFile(baseSha) => (StepBaseFile(c, baseSha, w, f), w)
    case NeedHeadRef(baseSha, file, patched) => (StepHeadRef(c, baseSha, file, patched, w, f), w)
    case NeedCreateRef(baseSha, file, patched) => StepCreateRef(c, baseSha, file, patched, w, f)
    case NeedHeadFile(headSha, file, patched) => (StepHeadFile(c, headSha, file, patched, w, f), w)
    case NeedCommit(blob, patched) => StepCommit(c, blob, patched, w, f)
    case NeedOpen(commit) => StepOpen(c, commit, w, f)
    case NeedSecondLook => (StepSecondLook(c, w, f), w)
  }

  function StepLookUp(c: Config, w: World, f: Fault): Attempt {
    var seen := SeenPull(c, w);
    if !f.Delivered? || seen.Unusable? then Fail("github_pr_lookup_failed")
    else if seen.One? then Done(Opened(seen.number, seen.commit, true))
    else NeedBaseRef
  }

  function StepBaseRef(c: Config, w: World, f: Fault): Attempt {
    if !f.Delivered? || RefAt(w, c.base).None? then Fail("github_base_ref_failed")
    else NeedBaseFile(RefAt(w, c.base).value)
  }

  function StepBaseFile(c: Config, baseSha: nat, w: World, f: Fault): Attempt {
    var file := FileAt(w, c.base);
    if !f.Delivered? || !Readable(file) then Fail("github_content_read_failed")
    else if c.patch(file.value).None? then Fail("patch_not_applicable")
    else NeedHeadRef(baseSha, file.value, c.patch(file.value).value)
  }

  function StepHeadRef(c: Config, baseSha: nat, file: string, patched: string, w: World, f: Fault): Attempt {
    if !f.Delivered? then Fail("github_branch_lookup_failed")
    else if RefAt(w, c.head).None? then NeedCreateRef(baseSha, file, patched)
    else NeedHeadFile(RefAt(w, c.head).value, file, patched)
  }

  function StepCreateRef(c: Config, baseSha: nat, file: string, patched: string, w: World, f: Fault): (Attempt, World) {
    var created := CreateRef(w, c.head, baseSha);
    if f.Refused? || created.None? then (Fail("github_branch_create_failed"), w)
    else if f.Lost? then (Fail("github_branch_create_failed"), created.value)
    else (NeedCommit(file, patched), created.value)
  }

  function StepHeadFile(c: Config, headSha: nat, file: string, patched: string, w: World, f: Fault): Attempt {
    var held := FileAt(w, c.head);
    if !f.Delivered? || !Readable(held) then Fail("github_branch_content_failed")
    else if held.value == patched then NeedOpen(headSha)
    else if held.value != file then Fail("github_branch_diverged")
    else NeedCommit(held.value, patched)
  }

  function StepCommit(c: Config, blob: string, patched: string, w: World, f: Fault): (Attempt, World) {
    var landed := UpdateContent(w, c.head, blob, patched);
    if f.Refused? || landed.None? then (Fail("github_commit_failed"), w)
    else if f.Lost? then (Fail("github_commit_failed"), landed.value)
    else (NeedOpen(|w.commits|), landed.value)
  }

  function StepOpen(c: Config, commit: nat, w: World, f: Fault): (Attempt, World) {
    var made := CreatePull(w, c.head, c.base);
    if f.Refused? || made.None? then (NeedSecondLook, w)
    else if f.Lost? then (NeedSecondLook, made.value)
    else (Done(Opened(|w.pulls| + 1, commit, false)), made.value)
  }

  function StepSecondLook(c: Config, w: World, f: Fault): Attempt {
    var seen := SeenPull(c, w);
    if f.Delivered? && seen.One? then Done(Opened(seen.number, seen.commit, true))
    else Fail("github_pr_create_failed")
  }

  // What surrounds an attempt: whether call k fails, and what others do to the world just before it.
  datatype Env = Env(fault: nat -> Fault, others: (nat, World) -> World)

  datatype Ending = Ending(outcome: Outcome, world: World, calls: nat)

  // The attempt from `a` to its end, call k next.
  function Finish(c: Config, a: Attempt, w: World, env: Env, k: nat): (e: Ending)
    requires a != Closed
    ensures k <= e.calls <= k + Rank(a)
    decreases Rank(a)
  {
    if a.Done? then Ending(a.outcome, w, k)
    else
      var (a', w') := Step(c, a, env.others(k, w), env.fault(k));
      Finish(c, a', w', env, k + 1)
  }

  const CALM := Env((k: nat) => Delivered, (k: nat, w: World) => w)

  // A fault-free attempt with nobody else around.
  function Alone(c: Config, w: World): Ending { Finish(c, LookUp, w, CALM, 0) }
}

/**
  One investigation in demo mode.  Whatever the collector, the model and the clock do is an argument:
  Outside answers every call, the n-th check of the deadline included.
*/
module Agent {
  import opened Wrappers
  import opened Records
  import opened Verify
  import opened Verifiers
  import opened Reports
  import opened Briefs
  import Citations

  datatype Metric = SuccessLatency | HeapBytes | ErrorRate

  datatype Incident = Incident(id: string, service: Workload, latencyAlert: bool, header: string)

  datatype Collected = Collected(evidence: seq<Record>, failures: nat)

  datatype RawHypothesis = RawHypothesis(statement: string, status: string, evidenceIDs: seq<string>)

  // The model's decoded answer: nothing in it is trusted.
  datatype Analysis = Analysis(
    hypotheses: seq<RawHypothesis>, component: string, cause: string, evidenceIDs: seq<string>)

  // One provider call; the content is None when it does not decode.  retryAfter is in nanoseconds.
  datatype Reply = Answered(content: Option<Analysis>) | HTTPError(status: int, retryAfter: int) | Unreachable

  datatype Outside = Outside(
    collect: Option<Collected>,
    collectTarget: (Workload, Metric) -> Option<Collected>,
    chat: (nat, string) -> Reply,
    deadlineTooNear: nat -> bool,
    expired: nat -> bool,
    card: Record -> string)

  const MAX_LLM_CALLS := 2
  const MAX_TARGETS := 2
  const MAX_RETRY_DELAY := 20_000_000_000
  const MAX_HYPOTHESES := 5

  // --- the graph

  const GRAPH: seq<Workload> := [Frontend, Orders, Payments]

  // The workloads strictly below the service, in graph order.
  function Downstream(service: Workload): seq<Workload> {
    match service
    case Frontend => [Orders, Payments]
    case Orders => [Payments]
    case Payments => []
    case OtherWorkload(_) => []
  }

  function Unseen(workloads: seq<Workload>, seen: set<Workload>): seq<Workload> {
    if workloads == [] then []
    else
      var n := |workloads| - 1;
      Unseen(workloads[..n], seen) + if workloads[n] in seen then [] else [workloads[n]]
  }

  method DownstreamUnvisited(service: Workload, seen: set<Workload>) returns (remaining: seq<Workload>)
    ensures remaining == Unseen(Downstream(service), seen)
  {
    var position := -1;
    for index := 0 to |GRAPH|
      invariant position == -1 && forall k :: 0 <= k < index ==> GRAPH[k] != service
    {
      if GRAPH[index] == service {
        position := index;
        break;
      }
    }
    remaining := [];
    assert GRAPH[0] == Frontend && GRAPH[1] == Orders && GRAPH[2] == Payments;
    if position < 0 { return; }
    var below := GRAPH[position + 1..];
    assert below == Downstream(service);
    for i := 0 to |below|
      invariant remaining == Unseen(below[..i], seen)
    {
      assert below[..i + 1][..i] == below[..i];
      if below[i] !in seen { remaining := remaining + [below[i]]; }
    }
    assert below[..|below|] == below;
  }

  lemma {:induction false} NextUnvisited(service: Workload, visited: seq<Workload>, seen: set<Workload>)
    requires visited <= Downstream(service) && forall w :: w in seen <==> w == service || w in visited
    ensures var below := Unseen(Downstream(service), seen);
      && below == Downstream(service)[|visited|..]
      && (below == [] <==> visited == Downstream(service))
  {
    var all := Downstream(service);
    assert Unseen(all, seen) == Unseen(all[..|all|], seen);
    if |all| == 1 {
      assert Unseen([Payments], seen) == Unseen([], seen) + (if Payments in seen then [] else [Payments]);
      assert |visited| == 1 ==> visited == [Payments];
    } else if |all| == 2 {
      assert [Orders, Payments][..1] == [Orders];
      assert Unseen([Orders, Payments], seen) == Unseen([Orders], seen) + (if Payments in seen then [] else [Payments]);
      assert Unseen([Orders], seen) == Unseen([], seen) + (if Orders in seen then [] else [Orders]);
      assert |visited| == 1 ==> visited == [Orders];
      assert |visited| == 2 ==> visited == [Orders, Payments];
    }
  }

  function DefaultMetric(inc: Incident, workload: Workload): Metric {
    if inc.latencyAlert then SuccessLatency else if workload == Payments then HeapBytes else ErrorRate
  }

  // --- collection

  function All(collected: seq<Collected>): seq<Record> {
    if collected == [] then [] else All(collected[..|collected| - 1]) + collected[|collected| - 1].evidence
  }

  function ToolCalls(collected: seq<Collected>): nat {
    if collected == [] then 0
    else
      var last := collected[|collected| - 1];
      ToolCalls(collected[..|collected| - 1]) + |last.evidence| + last.failures
  }

  lemma {:induction false} OneMore(before: seq<Collected>, c: Collected)
    ensures All(before + [c]) == All(before) + c.evidence
    ensures ToolCalls(before + [c]) == ToolCalls(before) + |c.evidence| + c.failures
  {
    assert (before + [c])[..|before|] == before;
  }

  ghost predicate Proves(lens: Lens, records: seq<Record>) {
    SupportedCause(lens, records, IDsOf(records)).Some?
  }

  // The collections made: the initial one, then the workloads below the service in graph order, each
  // only because everything collected before it proved no cause.
  ghost predicate Gathered(lens: Lens, out: Outside, inc: Incident, collected: seq<Collected>, targets: seq<Workload>) {
    && targets <= Downstream(inc.service)
    && |collected| == |targets| + 1
    && out.collect == Some(collected[0])
    && (forall i :: 0 <= i < |targets| ==>
      out.collectTarget(targets[i], DefaultMetric(inc, targets[i])) == Some(collected[i + 1]))
    && forall n :: 1 <= n <= |targets| ==> !ProvedBy(lens, collected, n)
  }

  ghost predicate ProvedBy(lens: Lens, collected: seq<Collected>, n: nat)
    requires n <= |collected|
  {
    Proves(lens, All(collected[..n]))
  }

  lemma {:induction false} GatheredOneMore(
    lens: Lens, out: Outside, inc: Incident, collected: seq<Collected>, targets: seq<Workload>, w: Workload,
    c: Collected)
    requires Gathered(lens, out, inc, collected, targets) && !Proves(lens, All(collected))
    requires |targets| < |Downstream(inc.service)| && w == Downstream(inc.service)[|targets|]
    requires out.collectTarget(w, DefaultMetric(inc, w)) == Some(c)
    ensures Gathered(lens, out, inc, collected + [c], targets + [w])
  {
    var more := collected + [c];
    forall n | 1 <= n <= |targets| + 1 ensures !ProvedBy(lens, more, n) {
      assert more[..n] == collected[..n];
      assert n == |collected| ==> collected[..n] == collected;
      assert n <= |targets| ==> !ProvedBy(lens, collected, n);
    }
  }

  // The records and the number of tool calls are those of the collections made.
  ghost predicate Tallied(
    lens: Lens, out: Outside, inc: Incident, collected: seq<Collected>, targets: seq<Workload>, records: seq<Record>,
    toolCalls: nat) {
    Gathered(lens, out, inc, collected, targets) && records == All(collected) && toolCalls == ToolCalls(collected)
  }

  lemma {:induction false} FirstTallied(lens: Lens, out: Outside, inc: Incident, initial: Collected)
    requires out.collect == Some(initial)
    ensures Tallied(lens, out, inc, [initial], [], initial.evidence, |initial.evidence| + initial.failures)
  {
    OneMore([], initial);
    assert [] + [initial] == [initial] && [] + initial.evidence == initial.evidence;
  }

  lemma {:induction false} OneMoreTallied(
    lens: Lens, out: Outside, inc: Incident, collected: seq<Collected>, targets: seq<Workload>, records: seq<Record>,
    toolCalls: nat, w: Workload, c: Collected)
    requires Tallied(lens, out, inc, collected, targets, records, toolCalls) && !Proves(lens, records)
    requires |targets| < |Downstream(inc.service)| && w == Downstream(inc.service)[|targets|]
    requires out.collectTarget(w, DefaultMetric(inc, w)) == Some(c)
    ensures Tallied(lens, out, inc, collected + [c], targets + [w], records + c.evidence,
                    toolCalls + |c.evidence| + c.failures)
  {
    GatheredOneMore(lens, out, inc, collected, targets, w, c);
    OneMore(collected, c);
  }

  // The next target is the workload after those visited.
  lemma {:induction false} NextTarget(
    lens: Lens, out: Outside, inc: Incident, collected: seq<Collected>, targets: seq<Workload>, seen: set<Workload>)
    requires Gathered(lens, out, inc, collected, targets)
    requires forall w :: w in seen <==> w == inc.service || w in targets
    ensures var below, available := Downstream(inc.service), Unseen(Downstream(inc.service), seen);
      if available == [] then targets == below else |targets| < |below| && available[0] == below[|targets|]
  {
    NextUnvisited(inc.service, targets, seen);
  }

  // Why collection ends after these targets: the deadline check of this round, or the collection of
  // the next workload; without such a reason because a cause is proved, both rounds are over, or no
  // workload is left.
  ghost function StopOf(lens: Lens, out: Outside, inc: Incident, records: seq<Record>, targets: seq<Workload>): Reason {
    var below := Downstream(inc.service);
    if Proves(lens, records) || |targets| >= MAX_TARGETS then NoReason
    else if out.expired(|targets|) then DurationExhausted
    else if |targets| < |below| && out.collectTarget(below[|targets|], DefaultMetric(inc, below[|targets|])).None? then
      TargetedEvidenceUnavailable
    else NoReason
  }

  // Collection does not end while a round is left and the next workload answers.
  ghost predicate IsOver(lens: Lens, out: Outside, inc: Incident, records: seq<Record>, targets: seq<Workload>) {
    || Proves(lens, records)
    || |targets| == MAX_TARGETS
    || targets == Downstream(inc.service)
    || !StopOf(lens, out, inc, records, targets).NoReason?
  }

  method Gather(lens: Lens, out: Outside, inc: Incident, initial: Collected)
    returns (collected: seq<Collected>, targets: seq<Workload>, records: seq<Record>, toolCalls: nat, stop: Reason)
    requires out.collect == Some(initial)
    ensures Tallied(lens, out, inc, collected, targets, records, toolCalls)
    ensures stop == StopOf(lens, out, inc, records, targets) && IsOver(lens, out, inc, records, targets)
  {
    collected, targets, records, stop := [initial], [], initial.evidence, NoReason;
    toolCalls := |initial.evidence| + initial.failures;
    FirstTallied(lens, out, inc, initial);
    var seen := {inc.service};
    for target := 0 to MAX_TARGETS
      invariant Tallied(lens, out, inc, collected, targets, records, toolCalls)
      invariant |targets| == target
      invariant forall w :: w in seen <==> w == inc.service || w in targets
    {
      var cause := FindSupportedCause(lens, records, IDsOf(records));
      if cause.Some? { return; }
      if out.expired(target) { stop := DurationExhausted; return; }
      var available := DownstreamUnvisited(inc.service, seen);
      NextTarget(lens, out, inc, collected, targets, seen);
      if available == [] { return; }
      var workload := available[0];
      seen := seen + {workload};
      var c := out.collectTarget(workload, DefaultMetric(inc, workload));
      if c.None? { stop := TargetedEvidenceUnavailable; return; }
      OneMoreTallied(lens, out, inc, collected, targets, records, toolCalls, workload, c.value);
      collected, targets, records := collected + [c.value], targets + [workload], records + c.value.evidence;
      toolCalls := toolCalls + |c.value.evidence| + c.value.failures;
      cause := FindSupportedCause(lens, records, IDsOf(records));
      if cause.Some? { return; }
    }
  }

  // --- the model

  predicate Retryable(out: Outside, prompt: string, k: nat) {
    var reply := out.chat(k, prompt);
    && reply.HTTPError? && reply.status == 429 && 0 < reply.retryAfter <= 20_000_000_000
    && !out.deadlineTooNear(k)
  }

  // The reply that counts: the first call, or the second after one short rate limit.
  function Settled(out: Outside, prompt: string): Option<Option<Analysis>> {
    var first, second := out.chat(0, prompt), out.chat(1, prompt);
    if first.Answered? then Some(first.content)
    else if Retryable(out, prompt, 0) && second.Answered? then Some(second.content)
    else None
  }

  // The deadline checks that are met: before the first call, and on a retry while waiting and before
  // the second call.
  const BEFORE_FIRST := MAX_TARGETS + 1
  const WHILE_WAITING := MAX_TARGETS + 2
  const BEFORE_SECOND := MAX_TARGETS + 3

  predicate InTime(out: Outside, prompt: string) {
    && !out.expired(BEFORE_FIRST)
    && (!out.chat(0, prompt).Answered? && Retryable(out, prompt, 0) ==>
          !out.expired(WHILE_WAITING) && !out.expired(BEFORE_SECOND))
  }

  // The provider calls made, and the retries among them.
  function CallsMade(out: Outside, prompt: string): (nat, nat) {
    if out.expired(BEFORE_FIRST) then (0, 0)
    else if out.chat(0, prompt).Answered? || !Retryable(out, prompt, 0) || out.expired(WHILE_WAITING) then (1, 0)
    else if out.expired(BEFORE_SECOND) then (1, 1)
    else (2, 1)
  }

  // Every physical call is counted, and there are at most two.  The answer is the settled one, and it
  // is lost exactly to a deadline check that is met.
  method Chat(out: Outside, prompt: string) returns (answer: Option<Option<Analysis>>, calls: nat, retries: nat)
    ensures calls <= retries + 1 <= 2 && retries <= calls && (calls, retries) == CallsMade(out, prompt)
    ensures answer == if InTime(out, prompt) then Settled(out, prompt) else None
    ensures answer.Some? ==> calls == retries + 1
  {
    calls, retries := 0, 0;
    while true
      invariant calls == retries <= 1
      invariant retries == 1 ==>
        !out.expired(BEFORE_FIRST) && !out.chat(0, prompt).Answered? && Retryable(out, prompt, 0)
          && !out.expired(WHILE_WAITING)
      decreases MAX_LLM_CALLS - calls
    {
      if out.expired(MAX_TARGETS + 1 + 2 * calls) { return None, calls, retries; }
      var reply := out.chat(calls, prompt);
      calls := calls + 1;
      if reply.Answered? { return Some(reply.content), calls, retries; }
      if reply.Unreachable? || reply.status != 429 || retries > 0 || calls >= MAX_LLM_CALLS
         || reply.retryAfter <= 0 || reply.retryAfter > MAX_RETRY_DELAY { return None, calls, retries; }
      if out.deadlineTooNear(calls - 1) { return None, calls, retries; }
      if out.expired(MAX_TARGETS + 2 * calls) { return None, calls, retries; }
      retries := retries + 1;
    }
  }

  function FirstAt(ids: seq<string>, id: string): nat {
    if ids == [] || ids[0] == id then 0 else 1 + FirstAt(ids[1..], id)
  }

  lemma {:induction false} FirstAtFinds(ids: seq<string>, i: nat)
    requires i < |ids| && ids[i] !in ids[..i]
    ensures FirstAt(ids, ids[i]) == i
  {
    if i > 0 {
      assert ids[0] == ids[..i][0];
      assert forall x :: x in ids[1..][..i - 1] ==> x in ids[..i];
      FirstAtFinds(ids[1..], i - 1);
    }
  }

  // The valid IDs of a citation, each once, in the order in which they first appear.
  ghost predicate Filtered(ids: seq<string>, valid: set<string>, kept: seq<string>) {
    && (forall id :: id in kept <==> id in ids && id in valid)
    && forall i, j :: 0 <= i < j < |kept| ==> FirstAt(ids, kept[i]) < FirstAt(ids, kept[j])
  }

  method ValidIDs(ids: seq<string>, valid: set<string>) returns (kept: seq<string>)
    ensures Filtered(ids, valid, kept)
  {
    kept := [];
    var seen: set<string> := {};
    for i := 0 to |ids|
      invariant forall id :: id in kept <==> id in ids[..i] && id in valid
      invariant forall id :: id in seen <==> id in kept
      invariant forall k :: 0 <= k < |kept| ==> FirstAt(ids, kept[k]) < i
      invariant forall k, l :: 0 <= k < l < |kept| ==> FirstAt(ids, kept[k]) < FirstAt(ids, kept[l])
    {
      if ids[i] in valid && ids[i] !in seen {
        FirstAtFinds(ids, i);
        kept := kept + [ids[i]];
        seen := seen + {ids[i]};
      }
    }
  }

  function StatusOf(text: string): HypothesisStatus {
    if text == "supported" then Supported else if text == "rejected" then Rejected else Unresolved
  }

  ghost predicate Keeps(raw: RawHypothesis, kept: Hypothesis, valid: set<string>) {
    && kept.statement == raw.statement && Filtered(raw.evidenceIDs, valid, kept.evidenceIDs)
    && (kept.status == Supported <==> kept.evidenceIDs != [] && raw.status == "supported")
    && (kept.status == Rejected <==> kept.evidenceIDs != [] && raw.status == "rejected")
  }

  // The first five at most, and none from the first ill-stated one on.
  ghost predicate KeptOf(raw: seq<RawHypothesis>, kept: seq<Hypothesis>, valid: set<string>) {
    && |kept| <= |raw| && |kept| <= 5
    && (|kept| == |raw| || |kept| == 5 || |raw[|kept|].statement| == 0 || |raw[|kept|].statement| > 512)
    && forall i :: 0 <= i < |kept| ==> 0 < |raw[i].statement| <= 512 && Keeps(raw[i], kept[i], valid)
  }

  method KeepHypotheses(raw: seq<RawHypothesis>, valid: set<string>) returns (kept: seq<Hypothesis>)
    ensures KeptOf(raw, kept, valid)
  {
    kept := [];
    for i := 0 to |raw|
      invariant |kept| == i <= MAX_HYPOTHESES
      invariant forall k :: 0 <= k < i ==> 0 < |raw[k].statement| <= 512 && Keeps(raw[k], kept[k], valid)
    {
      var h := raw[i];
      if |kept| >= MAX_HYPOTHESES || |h.statement| == 0 || |h.statement| > 512 { return; }
      var ids := ValidIDs(h.evidenceIDs, valid);
      var status := StatusOf(h.status);
      if |ids| == 0 { status := Unresolved; }
      kept := kept + [Hypothesis(h.statement, status, ids)];
    }
  }

  // What a claim comes to on the collected records.
  function Judged(lens: Lens, records: seq<Record>, a: Analysis): Option<RootCause> {
    var claim := Claimed(a.component, a.cause);
    if claim.None? then None else Verified(lens, claim.value, records, a.evidenceIDs)
  }

  // The report once the model's answer is judged: the cause that its two texts claim, if the cited
  // records prove it, or else the reason why not; and its hypotheses, with invented IDs removed.
  ghost predicate Judges(lens: Lens, records: seq<Record>, a: Analysis, r: Report) {
    && r.rootCause == Judged(lens, records, a)
    && (forall cause :: Says(a.component, a.cause, cause) ==>
          r.rootCause == Verified(lens, cause, records, a.evidenceIDs))
    && (r.rootCause.Some? ==> Says(a.component, a.cause, r.rootCause.value.cause))
    && (r.rootCauseFound <==> r.rootCause.Some?)
    && r.reason == (if r.rootCause.Some? then NoReason else NotVerified(WhyNot(a.component, a.cause)))
    && KeptOf(a.hypotheses, r.hypotheses, IDsIn(records))
  }

  ghost function IDsIn(records: seq<Record>): set<string> { set record <- records :: record.id }

  // Verifying the collected records among those cited is verifying the claim.
  lemma {:induction false} ClaimIsJudged(
    lens: Lens, records: seq<Record>, a: Analysis, cited: seq<string>, verified: Option<RootCause>)
    requires Citations.SameCitation(records, cited, a.evidenceIDs)
    requires var claim := Claimed(a.component, a.cause);
      verified == if claim.None? then None else Verified(lens, claim.value, records, cited)
    ensures verified == Judged(lens, records, a)
  {
    var claim := Claimed(a.component, a.cause);
    if claim.Some? {
      Citations.VerdictDependsOnCitedSet(lens, claim.value, records, cited, a.evidenceIDs);
    }
  }

  lemma {:induction false} JudgedBySays(lens: Lens, records: seq<Record>, a: Analysis)
    ensures forall cause :: Says(a.component, a.cause, cause) ==>
      Judged(lens, records, a) == Verified(lens, cause, records, a.evidenceIDs)
    ensures Judged(lens, records, a).Some? ==> Says(a.component, a.cause, Judged(lens, records, a).value.cause)
  {
    var claim := Claimed(a.component, a.cause);
    forall cause ensures claim == Some(cause) <==> Says(a.component, a.cause, cause) {
      ClaimedIff(a.component, a.cause, cause);
    }
  }

  lemma {:induction false} CitedAlike(records: seq<Record>, ids: seq<string>, valid: set<string>, cited: seq<string>)
    requires valid == IDsIn(records) && Filtered(ids, valid, cited)
    ensures Citations.SameCitation(records, cited, ids)
  {
  }

  lemma {:induction false} KeptIsDisciplined(records: seq<Record>, raw: seq<RawHypothesis>, kept: seq<Hypothesis>)
    requires KeptOf(raw, kept, IDsIn(records))
    ensures Disciplined(records, kept)
  {
    forall i | 0 <= i < |kept| ensures kept[i].statement == raw[i].statement {
      assert Keeps(raw[i], kept[i], IDsIn(records));
    }
  }

  // The model's answer, judged.
  method Conclude(lens: Lens, records: seq<Record>, a: Analysis, bare: Report) returns (r: Report)
    requires bare.rootCause.None? && !bare.rootCauseFound
    ensures Judges(lens, records, a, r) && Disciplined(records, r.hypotheses)
    ensures r == bare.(
      hypotheses := r.hypotheses, rootCause := r.rootCause, rootCauseFound := r.rootCauseFound, reason := r.reason)
  {
    var valid := set record <- records :: record.id;
    var kept := KeepHypotheses(a.hypotheses, valid);
    var cited := ValidIDs(a.evidenceIDs, valid);
    CitedAlike(records, a.evidenceIDs, valid, cited);
    var cause, why := VerifyClaim(lens, records, cited, a.component, a.cause);
    assert cause == Judged(lens, records, a) by { ClaimIsJudged(lens, records, a, cited, cause); }
    JudgedBySays(lens, records, a);
    KeptIsDisciplined(records, a.hypotheses, kept);
    r := bare.(hypotheses := kept, rootCause := cause, rootCauseFound := cause.Some?,
               reason := if cause.Some? then NoReason else NotVerified(why));
  }

  // At most five hypotheses, which cite collected records only; none without a citation is called
  // supported or rejected.
  ghost predicate Disciplined(records: seq<Record>, hypotheses: seq<Hypothesis>) {
    && |hypotheses| <= MAX_HYPOTHESES
    && forall i :: 0 <= i < |hypotheses| ==>
         && 0 < |hypotheses[i].statement| <= 512
         && (forall id :: id in hypotheses[i].evidenceIDs ==> exists r :: r in records && r.id == id)
         && (hypotheses[i].status != Unresolved ==> hypotheses[i].evidenceIDs != [])
  }

  function Prompt(lens: Lens, out: Outside, inc: Incident, records: seq<Record>): string {
    inc.header + Cards(out.card, Chosen(out.card, |inc.header|, Prioritized(lens, records)))
  }

  // The model's answer to the brief of these records, if it came and decoded.
  function Answer(lens: Lens, out: Outside, inc: Incident, records: seq<Record>): Option<Analysis> {
    var settled := Settled(out, Prompt(lens, out, inc, records));
    if settled.None? then None else settled.value
  }

  // What every finished investigation is.
  ghost predicate Conclusive(lens: Lens, out: Outside, inc: Incident, records: seq<Record>, toolCalls: nat, r: Report) {
    && (r.rootCauseFound <==> r.rootCause.Some?)
    && (r.rootCause.Some? <==> r.reason.NoReason?)
    && r.evidenceIDs == IDsOf(records) && r.toolCalls == toolCalls && r.incidentID == inc.id
    && r.llmCalls <= r.llmRetries + 1 <= 2
    && Disciplined(records, r.hypotheses)
    && (r.rootCause.Some? ==>
          Answer(lens, out, inc, records).Some?
            && r.rootCause == Judged(lens, records, Answer(lens, out, inc, records).value))
  }

  // Nothing was asked of the model.
  predicate Unasked(r: Report) {
    !r.rootCauseFound && r.rootCause.None? && r.hypotheses == [] && r.llmCalls == 0 && r.llmRetries == 0
  }

  // What the model was asked and what became of its answer.
  ghost predicate Asked(lens: Lens, out: Outside, inc: Incident, records: seq<Record>, r: Report) {
    var prompt := Prompt(lens, out, inc, records);
    && (r.llmCalls, r.llmRetries) == CallsMade(out, prompt)
    && (if !InTime(out, prompt) || Settled(out, prompt).None? then
          !r.rootCauseFound && r.hypotheses == [] && r.reason == AnalysisFailed
        else if Settled(out, prompt).value.None? then
          !r.rootCauseFound && r.hypotheses == [] && r.reason == InvalidAnalysis
        else Judges(lens, records, Settled(out, prompt).value.value, r))
  }

  method Analyse(lens: Lens, out: Outside, inc: Incident, records: seq<Record>, bare: Report) returns (r: Report)
    requires bare == Stopped(inc, records, bare.toolCalls, NoReason)
    ensures Conclusive(lens, out, inc, records, bare.toolCalls, r) && Asked(lens, out, inc, records, r)
  {
    var brief := EvidenceBrief(lens, inc.header, out.card, records);
    var answer, calls, retries := Chat(out, brief);
    r := bare.(llmCalls := calls, llmRetries := retries);
    if answer.None? { r := r.(reason := AnalysisFailed); return; }
    if answer.value.None? { r := r.(reason := InvalidAnalysis); return; }
    r := Conclude(lens, records, answer.value.value, r);
  }

  // The report before the model is asked.
  function Stopped(inc: Incident, records: seq<Record>, toolCalls: nat, reason: Reason): Report {
    Report(inc.id, false, [], None, IDsOf(records), 0, 0, toolCalls, reason)
  }

  lemma StoppedIsConclusive(
    lens: Lens, out: Outside, inc: Incident, records: seq<Record>, toolCalls: nat, reason: Reason)
    requires !reason.NoReason?
    ensures Conclusive(lens, out, inc, records, toolCalls, Stopped(inc, records, toolCalls, reason))
  {
  }

  // How an investigation ends: with a root cause exactly when collection ended without a reason to
  // stop, each deadline check it met had not passed, and the model claims what the records prove.
  ghost predicate Ends(
    lens: Lens, out: Outside, inc: Incident, records: seq<Record>, targets: seq<Workload>, r: Report) {
    var stop := StopOf(lens, out, inc, records, targets);
    if !stop.NoReason? then Unasked(r) && r.reason == stop
    else if out.expired(2) then Unasked(r) && r.reason == DurationExhausted
    else Asked(lens, out, inc, records, r)
  }

  // What an investigation is, whatever the outside does.
  ghost predicate Investigated(lens: Lens, out: Outside, inc: Incident, collected: seq<Collected>,
                               targets: seq<Workload>, r: Report) {
    && Conclusive(lens, out, inc, All(collected), ToolCalls(collected), r)
    && (if out.collect.None? then
          collected == [] && targets == [] && Unasked(r) && r.reason == InitialEvidenceUnavailable
        else
          && Gathered(lens, out, inc, collected, targets)
          && IsOver(lens, out, inc, All(collected), targets)
          && Ends(lens, out, inc, All(collected), targets, r))
  }

  method Investigate(lens: Lens, out: Outside, inc: Incident)
    returns (r: Report, collected: seq<Collected>, targets: seq<Workload>)
    ensures Investigated(lens, out, inc, collected, targets, r)
  {
    if out.collect.None? {
      StoppedIsConclusive(lens, out, inc, [], 0, InitialEvidenceUnavailable);
      return Stopped(inc, [], 0, InitialEvidenceUnavailable), [], [];
    }
    var records, toolCalls, stop;
    collected, targets, records, toolCalls, stop := Gather(lens, out, inc, out.collect.value);
    if stop.NoReason? && out.expired(MAX_TARGETS) { stop := DurationExhausted; }
    r := Stopped(inc, records, toolCalls, stop);
    if stop.NoReason? {
      r := Analyse(lens, out, inc, records, r);
    } else {
      StoppedIsConclusive(lens, out, inc, records, toolCalls, stop);
    }
  }

  class ReportStore {
    var saved: seq<Report>

    constructor ()
      ensures saved == []
    {
      saved := [];
    }

    method SaveInvestigation(r: Report, fault: Fault) returns (ok: bool)
      modifies this
      ensures saved == if fault.Refused? then old(saved) else old(saved) + [r]
      ensures ok <==> fault.Delivered?
    {
      if !fault.Refused? { saved := saved + [r]; }
      return fault.Delivered?;
    }
  }

  // Every investigation that starts is saved, however it ends, and is returned exactly when the save
  // is acknowledged.
  method Run(lens: Lens, out: Outside, inc: Option<Incident>, store: ReportStore, fault: Fault)
    returns (result: Result<Report>, collected: seq<Collected>, targets: seq<Workload>)
    modifies store
    ensures inc.None? ==> result.Err? && store.saved == old(store.saved)
    ensures inc.Some? && fault.Refused? ==> result.Err? && store.saved == old(store.saved)
    ensures inc.Some? && !fault.Refused? ==>
      && |store.saved| == |old(store.saved)| + 1 && old(store.saved) <= store.saved
      && Investigated(lens, out, inc.value, collected, targets, store.saved[|old(store.saved)|])
      && result == if fault.Lost? then Err("persist investigation") else Ok(store.saved[|old(store.saved)|])
  {
    if inc.None? { return Err("load incident"), [], []; }
    var r;
    r, collected, targets := Investigate(lens, out, inc.value);
    var ok := store.SaveInvestigation(r, fault);
    result := if ok then Ok(r) else Err("persist investigation");
  }

  // --- what this means

  // The verdict on a claim takes nothing from the model but the claim and which records it cites.
  lemma InventedIDsChangeNothing(lens: Lens, records: seq<Record>, a: Analysis, a': Analysis)
    requires a.component == a'.component && a.cause == a'.cause
    requires Citations.SameCitation(records, a.evidenceIDs, a'.evidenceIDs)
    ensures Judged(lens, records, a) == Judged(lens, records, a')
  {
    if Claimed(a.component, a.cause).Some? {
      Citations.VerdictDependsOnCitedSet(lens, Claimed(a.component, a.cause).value, records, a.evidenceIDs,
        a'.evidenceIDs);
    }
  }

  // Role by role, the evidence of a cause is a collected and cited record that shows what the role
  // asks, and the records fit together where the cause demands it.
  ghost predicate Justified(lens: Lens, found: RootCause, records: seq<Record>, cited: seq<string>) {
    var picks := Picks(lens, found.cause, records, cited);
    && AllNamed(picks) && Agree(lens, found.cause, picks)
    && |found.evidenceIDs| == |picks| == |Citations.ProvedRoles(lens, found.cause, picks)|
    && forall i :: 0 <= i < |picks| ==>
         && found.evidenceIDs[i] == picks[i].value.id && picks[i].value in records
         && Citations.Candidate(lens, Citations.ProvedRoles(lens, found.cause, picks)[i], picks[i].value, cited)
  }

  lemma {:induction false} VerifiedIsJustified(lens: Lens, cause: Cause, records: seq<Record>, cited: seq<string>)
    requires Verified(lens, cause, records, cited).Some?
    ensures Justified(lens, Verified(lens, cause, records, cited).value, records, cited)
  {
    Citations.ProvedCauseIsJustified(lens, cause, records, cited);
  }

  lemma {:induction false} OwnEvidenceIsShown(
    lens: Lens, cause: Cause, records: seq<Record>, cited: seq<string>, id: string)
    requires Verified(lens, cause, records, cited).Some?
    requires id in Verified(lens, cause, records, cited).value.evidenceIDs
    ensures id in cited && id in IDsOf(records)
  {
    Citations.ProvedCauseIsJustified(lens, cause, records, cited);
    Citations.OwnEvidenceIsCited(lens, cause, records, cited, id);
    var picks, own := Picks(lens, cause, records, cited), Verified(lens, cause, records, cited).value.evidenceIDs;
    var i :| 0 <= i < |own| && own[i] == id;
    var k :| 0 <= k < |records| && records[k] == picks[i].value;
    assert IDsOf(records)[k] == id;
  }

  // No answer at all makes the records prove what they do not: what is concluded is justified by
  // collected records, for each of the six causes.
  lemma {:induction false} ConcludedMeansShown(
    lens: Lens, out: Outside, inc: Incident, records: seq<Record>, toolCalls: nat, r: Report)
    requires Conclusive(lens, out, inc, records, toolCalls, r) && r.rootCauseFound
    ensures var found, cited := r.rootCause.value, Answer(lens, out, inc, records).value.evidenceIDs;
      && r.rootCause == Verified(lens, found.cause, records, cited)
      && Justified(lens, found, records, cited)
      && forall id :: id in found.evidenceIDs ==> id in cited && id in r.evidenceIDs
  {
    var a := Answer(lens, out, inc, records).value;
    var cause := Claimed(a.component, a.cause).value;
    VerifiedIsJustified(lens, cause, records, a.evidenceIDs);
    forall id | id in r.rootCause.value.evidenceIDs ensures id in a.evidenceIDs && id in r.evidenceIDs {
      OwnEvidenceIsShown(lens, cause, records, a.evidenceIDs, id);
    }
  }

  // A model that repeats the cause that the records support, citing that cause's own evidence among
  // invented IDs, is believed.
  lemma HonestModelIsBelieved(lens: Lens, records: seq<Record>, a: Analysis)
    requires Proves(lens, records)
    requires var cause := SupportedCause(lens, records, IDsOf(records)).value;
      && Says(a.component, a.cause, cause.cause)
      && Citations.SameCitation(records, a.evidenceIDs, cause.evidenceIDs)
    ensures Judged(lens, records, a) == SupportedCause(lens, records, IDsOf(records))
  {
    var cause := SupportedIsVerified(lens, records, IDsOf(records));
    ClaimedIff(a.component, a.cause, cause);
    var own := SupportedCause(lens, records, IDsOf(records)).value.evidenceIDs;
    Citations.VerifiedOnOwnEvidence(lens, cause, records, IDsOf(records));
    Citations.VerdictDependsOnCitedSet(lens, cause, records, a.evidenceIDs, own);
  }

  // The records whose cards the model is shown, in order.
  function Shown(lens: Lens, out: Outside, inc: Incident, records: seq<Record>): seq<Record> {
    Chosen(out.card, |inc.header|, Prioritized(lens, records))
  }

  // The model names the cause and cites the first n cards it is shown; what else it cites is invented.
  ghost predicate RepeatsFirst(lens: Lens, out: Outside, inc: Incident, records: seq<Record>, cause: Cause, n: nat) {
    var shown := Shown(lens, out, inc, records);
    && Answer(lens, out, inc, records).Some?
    && var a := Answer(lens, out, inc, records).value;
    && Says(a.component, a.cause, cause)
    && Citations.SameCitation(records, a.evidenceIDs, IDsOf(if n <= |shown| then shown[..n] else shown))
  }

  // The header and the cards of the supported cause fit into the brief.
  ghost predicate RoomFor(out: Outside, inc: Incident, records: seq<Record>, cause: RootCause) {
    |inc.header| + |Cards(out.card, Looked(records, cause.evidenceIDs))| <= MAX_BRIEF
  }

  lemma {:induction false} RepeatingIsProving(lens: Lens, out: Outside, inc: Incident, records: seq<Record>)
    requires Proves(lens, records)
    requires var cause := SupportedCause(lens, records, IDsOf(records)).value;
      RoomFor(out, inc, records, cause) && RepeatsFirst(lens, out, inc, records, cause.cause, |cause.evidenceIDs|)
    ensures Judged(lens, records, Answer(lens, out, inc, records).value)
      == SupportedCause(lens, records, IDsOf(records))
  {
    CauseIsShown(lens, inc.header, out.card, records);
    HonestModelIsBelieved(lens, records, Answer(lens, out, inc, records).value);
  }

  // The whole loop closed: in time, with room in the brief and a model that repeats the supported
  // cause, citing the cards it is shown first, the investigation ends with that cause.
  lemma {:induction false} SupportedCauseIsReported(lens: Lens, out: Outside, inc: Incident, collected: seq<Collected>,
                                                    targets: seq<Workload>, r: Report)
    requires Investigated(lens, out, inc, collected, targets, r)
    requires out.collect.Some? && Proves(lens, All(collected))
    requires !out.expired(MAX_TARGETS) && InTime(out, Prompt(lens, out, inc, All(collected)))
    requires var cause := SupportedCause(lens, All(collected), IDsOf(All(collected))).value;
      && RoomFor(out, inc, All(collected), cause)
      && RepeatsFirst(lens, out, inc, All(collected), cause.cause, |cause.evidenceIDs|)
    ensures r.rootCause == SupportedCause(lens, All(collected), IDsOf(All(collected)))
  {
    RepeatingIsProving(lens, out, inc, All(collected));
  }

  // Where an investigation collects: after its own service the workloads below it in the graph, at
  // most two, each with the metric for the alert and the workload.
  lemma {:induction false} CollectsBelow(
    lens: Lens, out: Outside, inc: Incident, collected: seq<Collected>, targets: seq<Workload>, r: Report)
    requires Investigated(lens, out, inc, collected, targets, r) && out.collect.Some?
    ensures |collected| == |targets| + 1 <= 3 && collected[0] == out.collect.value
    ensures targets <= match inc.service
                       case Frontend => [Orders, Payments]
                       case Orders => [Payments]
                       case _ => []
    ensures forall i :: 0 <= i < |targets| ==>
      var metric :=
        if inc.latencyAlert then SuccessLatency else if targets[i] == Payments then HeapBytes else ErrorRate;
      out.collectTarget(targets[i], metric) == Some(collected[i + 1])
  {
  }

  // It collects from all of them as long as nothing is proved, the deadline has not passed and every
  // workload answers.
  lemma {:induction false} CollectsAllBelow(
    lens: Lens, out: Outside, inc: Incident, collected: seq<Collected>, targets: seq<Workload>, r: Report)
    requires Investigated(lens, out, inc, collected, targets, r) && out.collect.Some?
    requires !Proves(lens, All(collected)) && !out.expired(0) && !out.expired(1)
    requires forall workload, metric :: out.collectTarget(workload, metric).Some?
    ensures targets == match inc.service
                       case Frontend => [Orders, Payments]
                       case Orders => [Payments]
                       case _ => []
  {
  }

  // The provider is asked once more exactly after a rate limit of at most 20 seconds for which there is
  // time, and what counts is the reply to the last call.
  lemma {:induction false} RateLimitIsRetried(out: Outside, prompt: string)
    requires !out.expired(3) && !out.expired(4) && !out.expired(5)
    ensures var first := out.chat(0, prompt);
      var again := first.HTTPError? && first.status == 429 && 0 < first.retryAfter <= 20_000_000_000
        && !out.deadlineTooNear(0);
      var last := out.chat(if again then 1 else 0, prompt);
      && InTime(out, prompt) && CallsMade(out, prompt) == (if again then (2, 1) else (1, 0))
      && Settled(out, prompt) == if last.Answered? then Some(last.content) else None
  {
  }
}

/** Which tools one collection calls, and what it keeps of their answers, tool by tool. */
module Calls {
  import opened Wrappers
  import opened Records
  import opened Collection

  // The tool was answered, and the answer is kept: with the tool's name and the incident's, when it
  // has a time and is not too large.
  ghost predicate Given(o: Tools, tool: Tool, r: Record) {
    && o.answer(tool).Observed? && r == o.answer(tool).record.(tool := tool, incidentID := o.incidentID)
    && o.measures.payload(r) <= 262144 && o.measures.parameters(r) <= 2048 && o.measures.dated(r)
  }

  lemma {:induction false} MadeIff(o: Tools, tool: Tool, r: Record)
    ensures Made(o, tool) == Some(r) <==> Given(o, tool, r)
  {
  }

  // --- tool by tool

  ghost predicate Crashes(o: Tools) { exists r :: Given(o, GetPods, r) && o.crashLoopPod(r.payload) != "" }

  ghost predicate Traced(o: Tools) { exists r :: Given(o, SearchTraces, r) && o.firstTraceID(r.payload) != "" }

  ghost predicate Deployed(o: Tools) {
    && (exists r :: Given(o, ArgoApplication, r))
    && exists r :: Given(o, ArgoHistory, r) && o.newestRevision(r.payload) != ""
  }

  ghost predicate Wanted(o: Tools, demo: bool, workload: Workload, includeChanges: bool, tool: Tool) {
    match tool
    case GetOrdersConfig => demo && workload == Orders
    case MetricRange => demo
    case SearchTraces => demo
    case GetPodLogs => Crashes(o)
    case GetTrace => demo && Traced(o)
    case ArgoApplication => demo && includeChanges
    case ArgoHistory => demo && includeChanges && exists r :: Given(o, ArgoApplication, r)
    case GitHubCommit => demo && includeChanges && Deployed(o)
    case GitHubDiff => demo && includeChanges && Deployed(o)
    case OtherTool(_) => false
    case _ => true
  }

  lemma {:induction false} InFollowed(o: Tools, demo: bool, plan: seq<Tool>, tool: Tool)
    ensures tool in Followed(o, demo, plan) <==>
      exists item :: item in plan && (tool == item || tool in FollowUp(o, demo, item))
  {
    if plan != [] {
      var n := |plan| - 1;
      assert plan == plan[..n] + [plan[n]];
      InFollowed(o, demo, plan[..n], tool);
      assert forall item :: item in plan <==> item in plan[..n] || item == plan[n];
      assert plan[n] in plan;
    }
  }

  lemma {:induction false} PlanIff(demo: bool, workload: Workload, tool: Tool)
    ensures tool in Plan(demo, workload) <==>
      match tool
      case GetOrdersConfig => demo && workload == Orders
      case MetricRange => demo
      case SearchTraces => demo
      case GetDeployment => true
      case GetService => true
      case GetEndpointSlices => true
      case GetPods => true
      case GetEvents => true
      case SearchLogs => true
      case _ => false
  {
  }

  lemma {:induction false} GivenIsMade(o: Tools, tool: Tool)
    ensures (exists r :: Given(o, tool, r)) <==> Made(o, tool).Some?
    ensures Made(o, tool).Some? ==> forall r :: Given(o, tool, r) <==> r == Made(o, tool).value
  {
    forall r ensures Given(o, tool, r) <==> Made(o, tool) == Some(r) { MadeIff(o, tool, r); }
    if Made(o, tool).Some? { assert Given(o, tool, Made(o, tool).value); }
  }

  lemma {:induction false} FollowUpIff(o: Tools, demo: bool, item: Tool, tool: Tool)
    ensures tool in FollowUp(o, demo, item) <==>
      || (item == GetPods && tool == GetPodLogs && Crashes(o))
      || (item == SearchTraces && tool == GetTrace && demo && Traced(o))
  {
    GivenIsMade(o, GetPods);
    GivenIsMade(o, SearchTraces);
  }

  lemma {:induction false} ChangesIff(o: Tools, tool: Tool)
    ensures tool in Changes(o) <==>
      || tool == ArgoApplication
      || (tool == ArgoHistory && exists r :: Given(o, ArgoApplication, r))
      || ((tool == GitHubCommit || tool == GitHubDiff) && Deployed(o))
  {
    GivenIsMade(o, ArgoApplication);
    GivenIsMade(o, ArgoHistory);
  }

  // A tool is called exactly when the mode, the workload and what was collected before ask for it.
  lemma {:induction false} CalledIff(
    o: Tools, demo: bool, workload: Workload, includeChanges: bool, tool: Tool)
    ensures tool in Called(o, demo, workload, includeChanges) <==> Wanted(o, demo, workload, includeChanges, tool)
  {
    InFollowed(o, demo, Plan(demo, workload), tool);
    forall item ensures tool in FollowUp(o, demo, item) <==>
      || (item == GetPods && tool == GetPodLogs && Crashes(o))
      || (item == SearchTraces && tool == GetTrace && demo && Traced(o))
    {
      FollowUpIff(o, demo, item, tool);
    }
    PlanIff(demo, workload, tool);
    PlanIff(demo, workload, GetPods);
    PlanIff(demo, workload, SearchTraces);
    ChangesIff(o, tool);
  }

  // The calls in order: each is one of these, and further right than the one before.
  lemma {:induction false} CalledInOrder(o: Tools, demo: bool, workload: Workload, includeChanges: bool)
    ensures var called := Called(o, demo, workload, includeChanges);
      var order := [
        GetDeployment, GetOrdersConfig, GetService, GetEndpointSlices, GetPods, GetPodLogs, GetEvents, MetricRange,
        SearchLogs, SearchTraces, GetTrace, ArgoApplication, ArgoHistory, GitHubCommit, GitHubDiff];
      && (forall i :: 0 <= i < |called| ==> Rank(called[i]) < 15 && called[i] == order[Rank(called[i])])
      && forall i, j :: 0 <= i < j < |called| ==> Rank(called[i]) < Rank(called[j])
  {
    var called := Called(o, demo, workload, includeChanges);
    CallsAscend(o, demo, workload, includeChanges);
    forall i | 0 <= i < |called| ensures Rank(called[i]) < 15 { assert called[i] in called; }
  }

  // --- what is kept

  // The evidence is what the called tools gave, in the order of the calls.
  lemma {:induction false} EvidenceIs(o: Tools, called: seq<Tool>)
    requires Ascending(called)
    ensures var records := RecordsOf(o, called);
      && (forall r :: r in records <==> r.tool in called && Given(o, r.tool, r))
      && forall i, j :: 0 <= i < j < |records| ==> Rank(records[i].tool) < Rank(records[j].tool)
  {
    EachCallOneOutcome(o, called);
    forall r ensures r in RecordsOf(o, called) <==> r.tool in called && Given(o, r.tool, r) { MadeIff(o, r.tool, r); }
    RecordsInOrder(o, called);
  }

  lemma {:induction false} RecordsInOrder(o: Tools, called: seq<Tool>)
    requires Ascending(called)
    ensures var records := RecordsOf(o, called);
      forall i, j :: 0 <= i < j < |records| ==> Rank(records[i].tool) < Rank(records[j].tool)
  {
    if called != [] {
      var n := |called| - 1;
      RecordsInOrder(o, called[..n]);
      EachCallOneOutcome(o, called[..n]);
      var before, made := RecordsOf(o, called[..n]), Made(o, called[n]);
      forall i | 0 <= i < |before| ensures Rank(before[i].tool) < Rank(called[n]) {
        assert before[i] in before;
        var k :| 0 <= k < n && called[k] == before[i].tool;
      }
      if made.Some? { OneMoreInOrder(before, made.value); }
    }
  }

  lemma {:induction false} OneMoreInOrder(before: seq<Record>, r: Record)
    requires forall i, j :: 0 <= i < j < |before| ==> Rank(before[i].tool) < Rank(before[j].tool)
    requires forall i :: 0 <= i < |before| ==> Rank(before[i].tool) < Rank(r.tool)
    ensures var all := before + [r]; forall i, j :: 0 <= i < j < |all| ==> Rank(all[i].tool) < Rank(all[j].tool)
  {
  }

  lemma {:induction false} FailuresInOrder(o: Tools, called: seq<Tool>)
    requires Ascending(called)
    ensures Ascending(FailuresOf(o, called))
  {
    if called != [] {
      var n := |called| - 1;
      FailuresInOrder(o, called[..n]);
      EachCallOneOutcome(o, called[..n]);
      assert Below(FailuresOf(o, called[..n]), Rank(called[n])) by {
        forall tool | tool in called[..n] ensures Rank(tool) < Rank(called[n]) { }
      }
      AscendingAppend(FailuresOf(o, called[..n]), [called[n]], Rank(called[n]));
    }
  }

  // The failures are the other calls, in their order.
  lemma {:induction false} FailuresAre(o: Tools, called: seq<Tool>)
    requires Ascending(called)
    ensures var failures := FailuresOf(o, called);
      && (forall tool :: tool in failures <==> tool in called && forall r :: !Given(o, tool, r))
      && Ascending(failures)
  {
    FailuresInOrder(o, called);
    EachCallOneOutcome(o, called);
    forall tool ensures (forall r :: !Given(o, tool, r)) <==> Made(o, tool).None? { GivenIsMade(o, tool); }
  }
}

/** The cost of a whole investigation, from the bound of one collection. */
module Budget {
  import opened Wrappers
  import opened Records
  import opened Verify
  import opened Reports
  import opened Agent
  import Collection

  lemma {:induction false} WithoutOrdersConfig(called: seq<Tool>, i: nat)
    requires Collection.Ascending(called) && GetOrdersConfig !in called && 1 <= i < |called|
    ensures i + 1 <= Collection.Rank(called[i])
  {
    assert Collection.Rank(called[i - 1]) < Collection.Rank(called[i]) && called[i] in called;
    if i > 1 { WithoutOrdersConfig(called, i - 1); }
  }

  // Only the orders workload has the fifteenth tool.
  lemma CollectionCost(o: Collection.Tools, workload: Workload, changes: bool)
    ensures |Collection.Called(o, true, workload, changes)| <=
      (if changes then 14 else 10) + if workload == Orders then 1 else 0
  {
    var called := Collection.Called(o, true, workload, changes);
    Collection.CollectionIsBounded(o, true, workload, changes);
    if workload != Orders && |called| > 1 {
      Collection.FollowedFrom(o, true, Collection.Plan(true, workload));
      Collection.CallsAscend(o, true, workload, changes);
      WithoutOrdersConfig(called, |called| - 1);
      assert called[|called| - 1] in called;
    }
  }

  // What one collection gives, for some answers of the tools.
  ghost predicate From(c: Collected, workload: Workload, changes: bool) {
    exists o :: c == Gives(o, workload, changes)
  }

  function Gives(o: Collection.Tools, workload: Workload, changes: bool): Collected {
    var called := Collection.Called(o, true, workload, changes);
    Collected(Collection.RecordsOf(o, called), |Collection.FailuresOf(o, called)|)
  }

  lemma CostOf(c: Collected, workload: Workload, changes: bool)
    requires From(c, workload, changes)
    ensures |c.evidence| + c.failures <= (if changes then 14 else 10) + if workload == Orders then 1 else 0
  {
    var o :| c == Gives(o, workload, changes);
    Collection.EachCallOneOutcome(o, Collection.Called(o, true, workload, changes));
    CollectionCost(o, workload, changes);
  }

  lemma ToolCallsStep(collected: seq<Collected>, i: nat)
    requires i < |collected|
    ensures ToolCalls(collected[..i + 1]) == ToolCalls(collected[..i]) + |collected[i].evidence| + collected[i].failures
  {
    assert collected[..i + 1][..i] == collected[..i];
  }

  ghost predicate Costs(collected: seq<Collected>, inc: Incident, targets: seq<Workload>) {
    && |collected| == |targets| + 1
    && From(collected[0], inc.service, true)
    && forall i :: 0 <= i < |targets| ==> From(collected[i + 1], targets[i], false)
  }

  // The cost of the first n targeted collections, on top of the initial one.
  function Bound(service: Workload, targets: seq<Workload>, n: nat): nat
    requires n <= |targets|
  {
    if n == 0 then 14 + (if service == Orders then 1 else 0)
    else Bound(service, targets, n - 1) + 10 + if targets[n - 1] == Orders then 1 else 0
  }

  lemma {:induction false} FirstCost(inc: Incident, collected: seq<Collected>, targets: seq<Workload>)
    requires Costs(collected, inc, targets)
    ensures |collected[0].evidence| + collected[0].failures <= 14 + if inc.service == Orders then 1 else 0
  {
    CostOf(collected[0], inc.service, true);
  }

  lemma {:induction false} NextCost(inc: Incident, collected: seq<Collected>, targets: seq<Workload>, n: nat)
    requires Costs(collected, inc, targets) && 1 <= n <= |targets|
    ensures |collected[n].evidence| + collected[n].failures <= 10 + if targets[n - 1] == Orders then 1 else 0
  {
    assert From(collected[n - 1 + 1], targets[n - 1], false);
    CostOf(collected[n], targets[n - 1], false);
  }

  lemma {:induction false} BoundHolds(inc: Incident, collected: seq<Collected>, targets: seq<Workload>, n: nat)
    requires Costs(collected, inc, targets) && n <= |targets|
    ensures ToolCalls(collected[..n + 1]) <= Bound(inc.service, targets, n)
  {
    ToolCallsStep(collected, n);
    if n == 0 {
      assert ToolCalls(collected[..0]) == 0 by { assert collected[..0] == []; }
      FirstCost(inc, collected, targets);
    } else {
      BoundHolds(inc, collected, targets, n - 1);
      NextCost(inc, collected, targets, n);
    }
  }

  lemma {:induction false} BoundIs35(service: Workload, targets: seq<Workload>)
    requires targets <= Downstream(service)
    ensures Bound(service, targets, |targets|) <= 35
  {
    assert |targets| == 1 ==>
      Bound(service, targets, 1) == Bound(service, targets, 0) + 10 + if targets[0] == Orders then 1 else 0;
    if |targets| == 2 {
      assert targets == [Orders, Payments];
      assert Bound(service, targets, 1) == 25 && Bound(service, targets, 2) == 35;
    }
  }

  // The collector of the investigation is the one of Collection, whatever its tools answer.
  ghost predicate CollectsThatWay(out: Outside, inc: Incident) {
    && (out.collect.Some? ==> From(out.collect.value, inc.service, true))
    && forall w, metric {:trigger out.collectTarget(w, metric)} ::
         out.collectTarget(w, metric).Some? ==> From(out.collectTarget(w, metric).value, w, false)
  }

  lemma {:induction false} GatheredCosts(
    lens: Lens, out: Outside, inc: Incident, collected: seq<Collected>, targets: seq<Workload>)
    requires Gathered(lens, out, inc, collected, targets) && CollectsThatWay(out, inc)
    ensures Costs(collected, inc, targets)
  {
    forall i | 0 <= i < |targets| ensures From(collected[i + 1], targets[i], false) {
      assert out.collectTarget(targets[i], DefaultMetric(inc, targets[i])) == Some(collected[i + 1]);
    }
  }

  // However tools answer and whatever the records prove, one investigation makes at most 35 tool
  // calls: 14 for the frontend, 11 for the orders service, 10 for the payments service.
  lemma {:induction false} AtMost35ToolCalls(lens: Lens, out: Outside, inc: Incident, collected: seq<Collected>,
                                             targets: seq<Workload>, r: Report)
    requires Investigated(lens, out, inc, collected, targets, r) && CollectsThatWay(out, inc)
    ensures r.toolCalls <= 35
  {
    if out.collect.Some? {
      GatheredCosts(lens, out, inc, collected, targets);
      assert collected == collected[..|targets| + 1];
      BoundHolds(inc, collected, targets, |targets|);
      BoundIs35(inc.service, targets);
    }
  }
}

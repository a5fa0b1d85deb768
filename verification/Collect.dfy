/**
  One evidence collection: a fixed plan with at most five follow-ups, each tool called at most once,
  and the constraints of the table its records are saved to.
*/
module Collection {
  import opened Wrappers
  import opened Payloads
  import opened Records
  import opened Summaries

  // A call fails, or its result is refused, or it gives a record.
  datatype Answer = CallFailed | InvalidResult | Observed(record: Record)

  // What is measured of a record before it is kept: the lengths of two of its texts, and whether it
  // has a collection time.
  datatype Measures = Measures(payload: Record -> nat, parameters: Record -> nat, dated: Record -> bool)

  const MAX_PAYLOAD := 262144
  const MAX_PARAMETERS := 2048

  // Each tool's answer, and what the follow-ups are read from.
  datatype Tools = Tools(
    incidentID: string, measures: Measures, printer: Printer, answer: Tool -> Answer,
    crashLoopPod: Json -> string, firstTraceID: Json -> string, newestRevision: Json -> string)

  predicate Keepable(m: Measures, r: Record) {
    m.payload(r) <= MAX_PAYLOAD && m.parameters(r) <= MAX_PARAMETERS && m.dated(r)
  }

  function Made(o: Tools, tool: Tool): Option<Record> {
    var answer := o.answer(tool);
    if !answer.Observed? then None
    else
      var made := answer.record.(tool := tool, incidentID := o.incidentID);
      if Keepable(o.measures, made) then Some(made) else None
  }

  function Plan(demo: bool, workload: Workload): seq<Tool> {
    if demo && workload == Orders then
      [GetDeployment, GetOrdersConfig, GetService, GetEndpointSlices, GetPods, GetEvents,
       MetricRange, SearchLogs, SearchTraces]
    else if demo then
      [GetDeployment, GetService, GetEndpointSlices, GetPods, GetEvents, MetricRange, SearchLogs, SearchTraces]
    else [GetDeployment, GetService, GetEndpointSlices, GetPods, GetEvents, SearchLogs]
  }

  method BuildPlan(demo: bool, workload: Workload) returns (plan: seq<Tool>)
    ensures plan == Plan(demo, workload)
  {
    plan := [GetDeployment];
    if demo && workload == Orders { plan := plan + [GetOrdersConfig]; }
    plan := plan + [GetService, GetEndpointSlices, GetPods, GetEvents];
    if demo { plan := plan + [MetricRange]; }
    plan := plan + [SearchLogs];
    if demo { plan := plan + [SearchTraces]; }
  }

  function FollowUp(o: Tools, demo: bool, tool: Tool): seq<Tool> {
    var made := Made(o, tool);
    if made.None? then []
    else if tool == GetPods && o.crashLoopPod(made.value.payload) != "" then [GetPodLogs]
    else if tool == SearchTraces && demo && o.firstTraceID(made.value.payload) != "" then [GetTrace]
    else []
  }

  // The plan with its follow-ups.
  function Followed(o: Tools, demo: bool, plan: seq<Tool>): seq<Tool> {
    if plan == [] then []
    else
      var n := |plan| - 1;
      Followed(o, demo, plan[..n]) + ([plan[n]] + FollowUp(o, demo, plan[n]))
  }

  // The calls so far: those of the start and of the first i items.
  ghost predicate Reached(o: Tools, demo: bool, plan: seq<Tool>, i: nat, start: seq<Tool>, called: seq<Tool>) {
    i <= |plan| && called == start + Followed(o, demo, plan[..i])
  }

  lemma ReachedStep(
    o: Tools, demo: bool, plan: seq<Tool>, i: nat, start: seq<Tool>, before: seq<Tool>, after: seq<Tool>)
    requires i < |plan| && Reached(o, demo, plan, i, start, before)
    requires after == before + ([plan[i]] + FollowUp(o, demo, plan[i]))
    ensures Reached(o, demo, plan, i + 1, start, after)
  {
    assert plan[..i + 1][..i] == plan[..i];
    var done, part := Followed(o, demo, plan[..i]), [plan[i]] + FollowUp(o, demo, plan[i]);
    assert (start + done) + part == start + (done + part);
  }

  lemma {:induction false} ReachedEnd(o: Tools, demo: bool, plan: seq<Tool>, start: seq<Tool>, called: seq<Tool>)
    requires Reached(o, demo, plan, |plan|, start, called)
    ensures called == start + Followed(o, demo, plan)
  {
    assert plan[..|plan|] == plan;
  }

  function Changes(o: Tools): seq<Tool> {
    if Made(o, ArgoApplication).None? then [ArgoApplication]
    else if Made(o, ArgoHistory).None? then [ArgoApplication, ArgoHistory]
    else if o.newestRevision(Made(o, ArgoHistory).value.payload) == "" then [ArgoApplication, ArgoHistory]
    else [ArgoApplication, ArgoHistory, GitHubCommit, GitHubDiff]
  }

  // Every call of one collection, in order.
  function Called(o: Tools, demo: bool, workload: Workload, includeChanges: bool): seq<Tool> {
    Followed(o, demo, Plan(demo, workload)) + if includeChanges && demo then Changes(o) else []
  }

  function RecordsOf(o: Tools, called: seq<Tool>): seq<Record> {
    if called == [] then []
    else
      var n := |called| - 1; var made := Made(o, called[n]);
      RecordsOf(o, called[..n]) + if made.Some? then [made.value] else []
  }

  function FailuresOf(o: Tools, called: seq<Tool>): seq<Tool> {
    if called == [] then []
    else
      var n := |called| - 1;
      FailuresOf(o, called[..n]) + if Made(o, called[n]).Some? then [] else [called[n]]
  }

  // One more call leaves one record or one failure more.
  lemma {:induction false} OneMoreCall(o: Tools, called: seq<Tool>, tool: Tool)
    ensures RecordsOf(o, called + [tool]) ==
      if Made(o, tool).Some? then RecordsOf(o, called) + [Made(o, tool).value] else RecordsOf(o, called)
    ensures FailuresOf(o, called + [tool]) ==
      if Made(o, tool).Some? then FailuresOf(o, called) else FailuresOf(o, called) + [tool]
  {
    assert (called + [tool])[..|called|] == called;
  }

  class Collecting {
    const o: Tools
    const demo: bool
    var evidence: seq<Record>
    var failures: seq<Tool>
    ghost var called: seq<Tool>

    ghost predicate Valid() reads this {
      evidence == RecordsOf(o, called) && failures == FailuresOf(o, called)
    }

    constructor (o: Tools, demo: bool)
      ensures Valid() && called == [] && this.o == o && this.demo == demo
    {
      this.o, this.demo, evidence, failures, called := o, demo, [], [], [];
    }

    // Every call leaves one record or one failure.
    method Call(tool: Tool) returns (record: Option<Record>)
      requires Valid()
      modifies this
      ensures Valid() && called == old(called) + [tool] && record == Made(o, tool)
    {
      OneMoreCall(o, called, tool);
      called := called + [tool];
      var answer := o.answer(tool);
      if !answer.Observed? {
        failures := failures + [tool];
        return None;
      }
      var made := answer.record.(tool := tool, incidentID := o.incidentID);
      if !Keepable(o.measures, made) {
        failures := failures + [tool];
        return None;
      }
      evidence := evidence + [made];
      return Some(made);
    }

    // One item of the plan, and its follow-up.
    method RunItem(item: Tool)
      requires Valid()
      modifies this
      ensures Valid() && called == old(called) + ([item] + FollowUp(o, demo, item))
    {
      var record := Call(item);
      if record.None? { return; }
      if item == GetPods {
        var pod := o.crashLoopPod(record.value.payload);
        if pod != "" { var _ := Call(GetPodLogs); }
      }
      if item == SearchTraces && demo {
        var traceID := o.firstTraceID(record.value.payload);
        if traceID != "" { var _ := Call(GetTrace); }
      }
    }

    method RunPlan(plan: seq<Tool>)
      requires Valid()
      modifies this
      ensures Valid() && called == old(called) + Followed(o, demo, plan)
    {
      ghost var start := called;
      for i := 0 to |plan|
        invariant Valid() && Reached(o, demo, plan, i, start, called)
      {
        ghost var before := called;
        RunItem(plan[i]);
        ReachedStep(o, demo, plan, i, start, before, called);
      }
      ReachedEnd(o, demo, plan, start, called);
    }

    method CollectChanges()
      requires Valid()
      modifies this
      ensures Valid() && called == old(called) + Changes(o)
    {
      var application := Call(ArgoApplication);
      if application.None? { return; }
      var history := Call(ArgoHistory);
      if history.None? { return; }
      var revision := o.newestRevision(history.value.payload);
      if revision == "" { return; }
      var _ := Call(GitHubCommit);
      var _ := Call(GitHubDiff);
    }

    method Collect(workload: Workload, includeChanges: bool)
      requires Valid() && called == []
      modifies this
      ensures Valid() && called == Called(o, demo, workload, includeChanges)
    {
      var plan := BuildPlan(demo, workload);
      RunPlan(plan);
      if includeChanges && demo { CollectChanges(); }
    }
  }

  // --- bounds

  function Rank(tool: Tool): nat {
    match tool
    case GetDeployment => 0
    case GetOrdersConfig => 1
    case GetService => 2
    case GetEndpointSlices => 3
    case GetPods => 4
    case GetPodLogs => 5
    case GetEvents => 6
    case MetricRange => 7
    case SearchLogs => 8
    case SearchTraces => 9
    case GetTrace => 10
    case ArgoApplication => 11
    case ArgoHistory => 12
    case GitHubCommit => 13
    case GitHubDiff => 14
    case OtherTool(_) => 15
  }

  ghost predicate Ascending(called: seq<Tool>) {
    forall i, j :: 0 <= i < j < |called| ==> Rank(called[i]) < Rank(called[j])
  }

  ghost predicate Below(called: seq<Tool>, bound: nat) {
    forall tool :: tool in called ==> Rank(tool) < bound
  }

  // The rank that the next tool must reach, past a possible follow-up.
  function Above(tool: Tool): nat { Rank(tool) + if tool == GetPods || tool == SearchTraces then 2 else 1 }

  ghost predicate Spaced(plan: seq<Tool>) {
    forall i, j :: 0 <= i < j < |plan| ==> Above(plan[i]) <= Rank(plan[j])
  }

  lemma PlanIsSpaced(demo: bool, workload: Workload)
    ensures Spaced(Plan(demo, workload))
      && forall i :: 0 <= i < |Plan(demo, workload)| ==> Above(Plan(demo, workload)[i]) <= 11
  {
  }

  lemma AscendingAppend(a: seq<Tool>, b: seq<Tool>, bound: nat)
    requires Ascending(a) && Ascending(b) && Below(a, bound) && forall i :: 0 <= i < |b| ==> bound <= Rank(b[i])
    ensures Ascending(a + b)
  {
    var all := a + b;
    forall i, j | 0 <= i < j < |all| ensures Rank(all[i]) < Rank(all[j]) {
      if i < |a| { assert all[i] in a; }
    }
  }

  lemma OneItem(o: Tools, demo: bool, tool: Tool)
    ensures var part := [tool] + FollowUp(o, demo, tool);
      && Ascending(part) && Below(part, Above(tool)) && forall i :: 0 <= i < |part| ==> Rank(tool) <= Rank(part[i])
  {
  }

  lemma BelowMore(a: seq<Tool>, low: nat, b: seq<Tool>, high: nat)
    requires Below(a, low) && Below(b, high) && low <= high
    ensures Below(a + b, high)
  {
  }

  lemma {:induction false} FollowedAscends(o: Tools, demo: bool, plan: seq<Tool>, bound: nat)
    requires Spaced(plan) && forall i :: 0 <= i < |plan| ==> Above(plan[i]) <= bound
    ensures Ascending(Followed(o, demo, plan)) && Below(Followed(o, demo, plan), bound)
  {
    if plan != [] {
      var n := |plan| - 1;
      var before, last := Followed(o, demo, plan[..n]), [plan[n]] + FollowUp(o, demo, plan[n]);
      FollowedAscends(o, demo, plan[..n], Rank(plan[n]));
      OneItem(o, demo, plan[n]);
      AscendingAppend(before, last, Rank(plan[n]));
      BelowMore(before, Rank(plan[n]), last, Above(plan[n]));
    }
  }

  lemma ChangesAscend(o: Tools)
    ensures Ascending(Changes(o)) && Below(Changes(o), 15)
      && forall i :: 0 <= i < |Changes(o)| ==> 11 <= Rank(Changes(o)[i])
  {
  }

  // The calls follow one fixed order of the fifteen tools, so none is made twice.
  lemma CallsAscend(o: Tools, demo: bool, workload: Workload, includeChanges: bool)
    ensures var called := Called(o, demo, workload, includeChanges);
      Ascending(called) && Below(called, if includeChanges then 15 else 11)
  {
    var followed := Followed(o, demo, Plan(demo, workload));
    PlanIsSpaced(demo, workload);
    FollowedAscends(o, demo, Plan(demo, workload), 11);
    if includeChanges && demo {
      ChangesAscend(o);
      AscendingAppend(followed, Changes(o), 11);
      BelowMore(followed, 11, Changes(o), 15);
    } else {
      assert followed + [] == followed;
    }
  }

  lemma {:induction false} FollowedFrom(o: Tools, demo: bool, plan: seq<Tool>)
    requires GetOrdersConfig !in plan
    ensures GetOrdersConfig !in Followed(o, demo, plan)
  {
    if plan != [] { FollowedFrom(o, demo, plan[..|plan| - 1]); }
  }

  lemma {:induction false} AscendingIsShort(called: seq<Tool>, i: nat)
    requires Ascending(called) && i < |called|
    ensures i <= Rank(called[i])
  {
    if i > 0 {
      AscendingIsShort(called, i - 1);
      assert Rank(called[i - 1]) < Rank(called[i]);
    }
  }

  lemma {:induction false} EachCallOneOutcome(o: Tools, called: seq<Tool>)
    ensures |RecordsOf(o, called)| + |FailuresOf(o, called)| == |called|
    ensures forall tool :: tool in called ==>
      if Made(o, tool).Some? then Made(o, tool).value in RecordsOf(o, called) else tool in FailuresOf(o, called)
    ensures forall r :: r in RecordsOf(o, called) ==> r.tool in called && Made(o, r.tool) == Some(r)
    ensures forall tool :: tool in FailuresOf(o, called) ==> tool in called && Made(o, tool).None?
  {
    if called != [] {
      var n := |called| - 1;
      assert called == called[..n] + [called[n]];
      EachCallOneOutcome(o, called[..n]);
    }
  }

  ghost predicate DistinctTools(records: seq<Record>) {
    forall i, j :: 0 <= i < j < |records| ==> records[i].tool != records[j].tool
  }

  lemma {:induction false} RecordsAscend(o: Tools, called: seq<Tool>)
    requires Ascending(called)
    ensures DistinctTools(RecordsOf(o, called))
  {
    if called != [] {
      var n := |called| - 1;
      RecordsAscend(o, called[..n]);
      EachCallOneOutcome(o, called[..n]);
      var before := RecordsOf(o, called[..n]);
      forall i | 0 <= i < |before| ensures before[i].tool != called[n] {
        assert before[i] in before;
        var k :| 0 <= k < n && called[k] == before[i].tool;
        assert Rank(called[k]) < Rank(called[n]);
      }
    }
  }

  // At most 15 calls, 11 without the change sources; each leaves exactly one record or one failure,
  // and the records are of different tools.
  lemma {:induction false} CollectionIsBounded(o: Tools, demo: bool, workload: Workload, includeChanges: bool)
    ensures var called := Called(o, demo, workload, includeChanges);
      && |called| <= (if includeChanges then 15 else 11)
      && |RecordsOf(o, called)| + |FailuresOf(o, called)| == |called|
      && DistinctTools(RecordsOf(o, called))
  {
    var called := Called(o, demo, workload, includeChanges);
    CallsAscend(o, demo, workload, includeChanges);
    EachCallOneOutcome(o, called);
    RecordsAscend(o, called);
    if called != [] {
      AscendingIsShort(called, |called| - 1);
      assert called[|called| - 1] in called;
    }
  }

  // --- the table

  const MAX_BATCH := 16

  datatype Slot = Slot(collectionID: string, tool: Tool)

  ghost predicate HasID(rows: map<Slot, Record>, id: string) {
    exists slot :: slot in rows && rows[slot].id == id
  }

  // What the primary key and UNIQUE (collection_id, tool) accept.
  ghost predicate Fits(rows: map<Slot, Record>, collectionID: string, records: seq<Record>) {
    && DistinctTools(records) && DistinctIDs(records)
    && forall i :: 0 <= i < |records| ==> Slot(collectionID, records[i].tool) !in rows && !HasID(rows, records[i].id)
  }

  // What is checked of one record, and its reference to an incident.
  predicate Storable(m: Measures, p: Printer, incidents: set<string>, r: Record) {
    && Keepable(m, r) && |Summary(p, r.tool, r.payload)| <= MAX_SUMMARY
    && r.incidentID != "" && r.incidentID in incidents
  }

  ghost predicate Acceptable(
    m: Measures, p: Printer, incidents: set<string>, rows: map<Slot, Record>, collectionID: string,
      records: seq<Record>) {
    && 1 <= |records| <= 16
    && (forall i :: 0 <= i < |records| ==> Acceptably(m, p, incidents, records[i]))
    && Fits(rows, collectionID, records)
  }

  // The limits on one row, and its incident.
  ghost predicate Acceptably(m: Measures, p: Printer, incidents: set<string>, r: Record) {
    && m.payload(r) <= 262144 && m.parameters(r) <= 2048 && m.dated(r)
    && |Summary(p, r.tool, r.payload)| <= 512 && r.incidentID != "" && r.incidentID in incidents
  }

  function Inserted(rows: map<Slot, Record>, collectionID: string, records: seq<Record>): map<Slot, Record> {
    if records == [] then rows
    else
      var n := |records| - 1;
      Inserted(rows, collectionID, records[..n])[Slot(collectionID, records[n].tool) := records[n]]
  }

  lemma {:induction false} InsertedSlots(rows: map<Slot, Record>, collectionID: string, records: seq<Record>)
    requires Fits(rows, collectionID, records)
    ensures forall slot ::
      slot in rows ==>
        slot in Inserted(rows, collectionID, records) && Inserted(rows, collectionID, records)[slot] == rows[slot]
    ensures forall i :: 0 <= i < |records| ==>
      var slot := Slot(collectionID, records[i].tool);
      slot in Inserted(rows, collectionID, records) && Inserted(rows, collectionID, records)[slot] == records[i]
    ensures forall slot :: slot in Inserted(rows, collectionID, records) ==>
      slot in rows || exists i :: 0 <= i < |records| && slot == Slot(collectionID, records[i].tool)
  {
    if records != [] {
      var n := |records| - 1;
      InsertedSlots(rows, collectionID, records[..n]);
    }
  }

  // The next record is refused by the growing table exactly when the batch cannot fit.
  lemma {:induction false} NextFitsIff(rows: map<Slot, Record>, collectionID: string, records: seq<Record>, i: nat)
    requires i < |records| && Fits(rows, collectionID, records[..i])
    ensures var now, r := Inserted(rows, collectionID, records[..i]), records[i];
      Fits(rows, collectionID, records[..i + 1]) <==> Slot(collectionID, r.tool) !in now && !HasID(now, r.id)
  {
    var part, r, more := records[..i], records[i], records[..i + 1];
    assert more == part + [r];
    InsertedID(rows, collectionID, part, r.id);
    InsertedSlot(rows, collectionID, part, r.tool);
    FitsOneMore(rows, collectionID, part, r);
  }

  lemma {:induction false} InsertedID(rows: map<Slot, Record>, collectionID: string, records: seq<Record>, id: string)
    requires Fits(rows, collectionID, records)
    ensures HasID(Inserted(rows, collectionID, records), id) <==>
      HasID(rows, id) || exists k :: 0 <= k < |records| && records[k].id == id
  {
    var now := Inserted(rows, collectionID, records);
    InsertedSlots(rows, collectionID, records);
    if HasID(rows, id) {
      var slot :| slot in rows && rows[slot].id == id;
      assert slot in now;
    }
    forall k | 0 <= k < |records| && records[k].id == id ensures HasID(now, id) {
      assert Slot(collectionID, records[k].tool) in now;
    }
  }

  lemma {:induction false} InsertedSlot(rows: map<Slot, Record>, collectionID: string, records: seq<Record>, tool: Tool)
    requires Fits(rows, collectionID, records)
    ensures Slot(collectionID, tool) in Inserted(rows, collectionID, records) <==>
      Slot(collectionID, tool) in rows || exists k :: 0 <= k < |records| && records[k].tool == tool
  {
    InsertedSlots(rows, collectionID, records);
  }

  lemma {:induction false} FitsOneMore(rows: map<Slot, Record>, collectionID: string, records: seq<Record>, r: Record)
    requires Fits(rows, collectionID, records)
    ensures Fits(rows, collectionID, records + [r]) <==>
      && Slot(collectionID, r.tool) !in rows && !HasID(rows, r.id)
      && forall k :: 0 <= k < |records| ==> records[k].tool != r.tool && records[k].id != r.id
  {
    var more := records + [r];
    assert more[|records|] == r && forall k :: 0 <= k < |records| ==> more[k] == records[k];
  }

  lemma {:induction false} PrefixFits(rows: map<Slot, Record>, collectionID: string, records: seq<Record>, i: nat)
    requires i <= |records|
    ensures Fits(rows, collectionID, records) ==> Fits(rows, collectionID, records[..i])
  {
  }

  lemma InsertKeepsIDs(rows: map<Slot, Record>, slot: Slot, r: Record)
    requires slot !in rows
    ensures forall id :: HasID(rows[slot := r], id) <==> HasID(rows, id) || id == r.id
  {
    var after := rows[slot := r];
    forall id ensures HasID(after, id) <==> HasID(rows, id) || id == r.id {
      if HasID(rows, id) {
        var s :| s in rows && rows[s].id == id;
        assert s in after && after[s].id == id;
      }
      if id == r.id { assert slot in after && after[slot].id == id; }
    }
  }

  ghost predicate AllStorable(m: Measures, p: Printer, incidents: set<string>, records: seq<Record>) {
    forall i :: 0 <= i < |records| ==> Storable(m, p, incidents, records[i])
  }

  lemma {:induction false} AllStorableStep(
    m: Measures, p: Printer, incidents: set<string>, records: seq<Record>, i: nat)
    requires i < |records|
    ensures AllStorable(m, p, incidents, records[..i + 1]) <==>
      AllStorable(m, p, incidents, records[..i]) && Storable(m, p, incidents, records[i])
    ensures AllStorable(m, p, incidents, records) ==> Storable(m, p, incidents, records[i])
  {
    var more := records[..i + 1];
    assert more[i] == records[i] && forall k :: 0 <= k < i ==> more[k] == records[..i][k];
  }

  // What has been inserted so far.
  ghost predicate Inserting(
    rows: map<Slot, Record>, collectionID: string, records: seq<Record>, newRows: map<Slot, Record>,
      newIDs: set<string>) {
    && Fits(rows, collectionID, records) && newRows == Inserted(rows, collectionID, records)
    && forall id :: id in newIDs <==> HasID(newRows, id)
  }

  lemma {:induction false} InsertingStep(
    rows: map<Slot, Record>, collectionID: string, records: seq<Record>, i: nat, newRows: map<Slot, Record>,
    newIDs: set<string>)
    requires i < |records| && Inserting(rows, collectionID, records[..i], newRows, newIDs)
    ensures var r := records[i]; var slot := Slot(collectionID, r.tool);
      if slot in newRows || r.id in newIDs then !Fits(rows, collectionID, records)
      else Inserting(rows, collectionID, records[..i + 1], newRows[slot := r], newIDs + {r.id})
  {
    var r := records[i];
    NextFitsIff(rows, collectionID, records, i);
    if Slot(collectionID, r.tool) in newRows || r.id in newIDs {
      PrefixFits(rows, collectionID, records, i + 1);
    } else {
      InsertKeepsIDs(newRows, Slot(collectionID, r.tool), r);
      assert records[..i + 1][..i] == records[..i];
    }
  }

  // The inserts of one transaction, up to the first that a check or a constraint refuses.
  method InsertAll(
    m: Measures, p: Printer, incidents: set<string>, rows: map<Slot, Record>, ids: set<string>, collectionID: string,
    records: seq<Record>)
    returns (ok: bool, newRows: map<Slot, Record>, newIDs: set<string>)
    requires forall id :: id in ids <==> HasID(rows, id)
    ensures ok <==> AllStorable(m, p, incidents, records) && Fits(rows, collectionID, records)
    ensures ok ==> Inserting(rows, collectionID, records, newRows, newIDs)
  {
    newRows, newIDs := rows, ids;
    for i := 0 to |records|
      invariant AllStorable(m, p, incidents, records[..i])
      invariant Inserting(rows, collectionID, records[..i], newRows, newIDs)
    {
      var r := records[i];
      AllStorableStep(m, p, incidents, records, i);
      if !Storable(m, p, incidents, r) { return false, newRows, newIDs; }
      InsertingStep(rows, collectionID, records, i, newRows, newIDs);
      if Slot(collectionID, r.tool) in newRows || r.id in newIDs { return false, newRows, newIDs; }
      newRows, newIDs := newRows[Slot(collectionID, r.tool) := r], newIDs + {r.id};
    }
    assert records[..|records|] == records;
    ok := true;
  }

  class EvidenceTable {
    const measures: Measures
    const printer: Printer
    const incidents: set<string>
    var rows: map<Slot, Record>
    var ids: set<string>

    ghost predicate Valid() reads this {
      forall id :: id in ids <==> HasID(rows, id)
    }

    constructor (measures: Measures, printer: Printer, incidents: set<string>)
      ensures Valid() && rows == map[]
      ensures this.measures == measures && this.printer == printer && this.incidents == incidents
    {
      this.measures, this.printer, this.incidents, rows, ids := measures, printer, incidents, map[], {};
    }

    // One transaction: all rows or none.
    method SaveBatch(collectionID: string, records: seq<Record>, commits: bool) returns (ok: bool)
      requires Valid()
      modifies this
      ensures Valid()
      ensures ok <==> commits && Acceptable(measures, printer, incidents, old(rows), collectionID, records)
      ensures rows == if ok then Inserted(old(rows), collectionID, records) else old(rows)
    {
      if |records| < 1 || |records| > MAX_BATCH { return false; }
      var newRows, newIDs;
      ok, newRows, newIDs := InsertAll(measures, printer, incidents, rows, ids, collectionID, records);
      ok := ok && commits;
      if ok { rows, ids := newRows, newIDs; }
    }
  }

  ghost predicate FreshFor(rows: map<Slot, Record>, collectionID: string, records: seq<Record>) {
    && DistinctIDs(records) && (forall r :: r in records ==> !HasID(rows, r.id))
    && forall slot :: slot in rows ==> slot.collectionID != collectionID
  }

  lemma {:induction false} RecordsAreKeepable(o: Tools, called: seq<Tool>, r: Record)
    requires r in RecordsOf(o, called)
    ensures Keepable(o.measures, r) && r.incidentID == o.incidentID
  {
    EachCallOneOutcome(o, called);
    assert Made(o, r.tool) == Some(r);
  }

  // A payload's text is at least as long as what is counted in it.
  ghost predicate Weighs(m: Measures) {
    forall r: Record :: Counts(r.tool, r.payload).0 <= m.payload(r) && Counts(r.tool, r.payload).1 <= m.payload(r)
  }

  lemma {:induction false} KeptSummary(m: Measures, p: Printer, r: Record)
    requires Weighs(m) && Keepable(m, r)
    ensures |Summary(p, r.tool, r.payload)| <= MAX_SUMMARY <==> !TooLong(p, r.tool, r.payload)
  {
    assert Bounded(r.tool, r.payload);
    SummaryIsTooLongIff(p, r.tool, r.payload);
  }

  // With fresh IDs and a stored incident, no mix of failures and follow-ups breaks the batch limit or
  // a unique key.  A collection is refused exactly when it is empty, in which case it is not saved, or
  // when one payload makes its summary too long: that one loses the whole collection.
  lemma {:induction false} CollectionFitsTheTable(
    o: Tools, demo: bool, workload: Workload, includeChanges: bool, rows: map<Slot, Record>, incidents: set<string>,
    collectionID: string)
    requires FreshFor(rows, collectionID, RecordsOf(o, Called(o, demo, workload, includeChanges)))
    requires o.incidentID != "" && o.incidentID in incidents && Weighs(o.measures)
    ensures var records := RecordsOf(o, Called(o, demo, workload, includeChanges));
      && Fits(rows, collectionID, records) && |records| <= MAX_BATCH
      && (Acceptable(o.measures, o.printer, incidents, rows, collectionID, records) <==>
            && records != []
            && forall i :: 0 <= i < |records| ==> !TooLong(o.printer, records[i].tool, records[i].payload))
  {
    var called := Called(o, demo, workload, includeChanges);
    var records := RecordsOf(o, called);
    CollectionIsBounded(o, demo, workload, includeChanges);
    forall i | 0 <= i < |records|
      ensures Storable(o.measures, o.printer, incidents, records[i]) <==>
        !TooLong(o.printer, records[i].tool, records[i].payload)
    {
      RecordsAreKeepable(o, called, records[i]);
      KeptSummary(o.measures, o.printer, records[i]);
    }
  }

  // An application whose sync status is longer than 469 bytes, in an otherwise ordinary collection
  // with its changes: nothing of that collection is stored.
  lemma {:induction false} LongStatusLosesTheCollection(
    o: Tools, workload: Workload, status: string, rows: map<Slot, Record>, incidents: set<string>, collectionID: string)
    requires Made(o, ArgoApplication).Some? && Made(o, ArgoApplication).value.payload == StatusOnly(status)
    requires |status| > 469 && Weighs(o.measures)
    ensures var records := RecordsOf(o, Called(o, true, workload, true));
      Made(o, ArgoApplication).value in records
        && !Acceptable(o.measures, o.printer, incidents, rows, collectionID, records)
  {
    var called := Called(o, true, workload, true);
    var records, r := RecordsOf(o, called), Made(o, ArgoApplication).value;
    assert Changes(o)[0] == ArgoApplication && ArgoApplication in called;
    EachCallOneOutcome(o, called);
    LongStatusIsTooLong(o.printer, status);
    RecordsAreKeepable(o, called, r);
    KeptSummary(o.measures, o.printer, r);
    var i :| 0 <= i < |records| && records[i] == r;
    assert !Storable(o.measures, o.printer, incidents, records[i]);
  }

  // --- a collection and its save

  class Collector {
    const collecting: Collecting
    const table: EvidenceTable

    constructor (collecting: Collecting, table: EvidenceTable)
      ensures this.collecting == collecting && this.table == table
    {
      this.collecting, this.table := collecting, table;
    }

    // The records are returned exactly when there are any and the table takes them, and only then is
    // anything stored.
    method Run(
      workload: Workload, includeChanges: bool, collectionID: string, commits: bool) returns (r: Result<seq<Record>>)
      requires collecting.Valid() && collecting.called == [] && table.Valid()
      modifies collecting, table
      ensures collecting.Valid() && table.Valid()
      ensures collecting.called == Called(collecting.o, collecting.demo, workload, includeChanges)
      ensures var records := RecordsOf(collecting.o, collecting.called);
        && (r.Ok? <==>
              commits && Acceptable(table.measures, table.printer, table.incidents, old(table.rows), collectionID,
                records))
        && (r.Ok? ==> r.value == records)
        && table.rows == if r.Ok? then Inserted(old(table.rows), collectionID, records) else old(table.rows)
    {
      collecting.Collect(workload, includeChanges);
      if |collecting.evidence| == 0 { return Err("no evidence could be collected"); }
      var ok := table.SaveBatch(collectionID, collecting.evidence, commits);
      if !ok { return Err("persist evidence"); }
      return Ok(collecting.evidence);
    }
  }
}

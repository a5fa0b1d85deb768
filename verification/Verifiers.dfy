/** The six verifiers as they run: one pass over the records, later matches overwriting earlier ones. */
module Verifiers {
  import opened Wrappers
  import opened Payloads
  import opened Records
  import opened Verify

  method CitedSet(cited: seq<string>) returns (allowed: set<string>)
    ensures forall id :: id in allowed <==> id in cited
  {
    allowed := {};
    for i := 0 to |cited|
      invariant forall id :: id in allowed <==> id in cited[..i]
    {
      allowed := allowed + {cited[i]};
    }
  }

  // One more record, seen by one role.
  lemma {:induction false} LastStep(lens: Lens, role: Role, records: seq<Record>, cited: seq<string>, i: nat)
    requires i < |records|
    ensures Last(lens, role, records[..i + 1], cited) ==
      if records[i].id in cited && Plays(lens, role, records[i]) then Some(records[i])
      else Last(lens, role, records[..i], cited)
  {
    assert records[..i + 1][..i] == records[..i];
  }

  ghost predicate Holds(lens: Lens, role: Role, records: seq<Record>, cited: seq<string>, id: string) {
    id == IdOf(Last(lens, role, records, cited))
  }

  // ... and by the variable that holds the role's last record.
  lemma Track(lens: Lens, role: Role, records: seq<Record>, cited: seq<string>, i: nat, id: string)
    requires i < |records| && Holds(lens, role, records[..i], cited, id)
    ensures var matches := records[i].id in cited && Plays(lens, role, records[i]);
      Holds(lens, role, records[..i + 1], cited, if matches then records[i].id else id)
  {
    LastStep(lens, role, records, cited, i);
  }

  // The verdict in terms of the role variables of the loops.
  lemma VerdictFromIDs(lens: Lens, cause: Cause, records: seq<Record>, cited: seq<string>, ids: seq<string>)
    requires ids == IDs(Picks(lens, cause, records, cited))
    ensures "" in ids ==> Verified(lens, cause, records, cited).None?
    ensures "" !in ids ==>
      var picks := Picks(lens, cause, records, cited);
      && (forall i :: 0 <= i < |picks| ==> picks[i].Some?)
      && Verified(lens, cause, records, cited) ==
           if Agree(lens, cause, picks)
             then Some(RootCause(Conclusion(lens, cause, picks), ComponentOf(cause), cause, ids)) else None
  {
    NamedIffIDs(Picks(lens, cause, records, cited), ids);
  }

  lemma {:induction false} NamedIffIDs(picks: seq<Option<Record>>, ids: seq<string>)
    requires ids == IDs(picks)
    ensures AllNamed(picks) <==> "" !in ids
  {
    forall i | 0 <= i < |picks| ensures ids[i] == IdOf(picks[i]) && ids[i] in ids {
    }
  }

  lemma {:induction false} OOMFromVariables(
    lens: Lens, records: seq<Record>, cited: seq<string>, podID: string, deploymentID: string, limit: string)
    requires Holds(lens, OOMPod, records, cited, podID) && Holds(lens, OOMDeployment, records, cited, deploymentID)
    requires var d := Last(lens, OOMDeployment, records, cited);
      d.Some? ==> limit == lens.memoryLimitOf(d.value.payload)
    ensures Verified(lens, MemoryLimitOOM, records, cited) ==
      if podID == "" || deploymentID == "" then None
      else Some(RootCause(OOMKilledAt(limit), PaymentsApi, MemoryLimitOOM, [podID, deploymentID]))
  {
    assert IDs(Picks(lens, MemoryLimitOOM, records, cited)) == [podID, deploymentID];
    VerdictFromIDs(lens, MemoryLimitOOM, records, cited, [podID, deploymentID]);
  }

  method VerifyOOM(lens: Lens, records: seq<Record>, cited: seq<string>) returns (r: Option<RootCause>)
    ensures r == Verified(lens, MemoryLimitOOM, records, cited)
  {
    var allowed := CitedSet(cited);
    var podID, deploymentID, memoryLimit := "", "", "";
    for i := 0 to |records|
      invariant Holds(lens, OOMPod, records[..i], cited, podID)
      invariant Holds(lens, OOMDeployment, records[..i], cited, deploymentID)
      invariant var d := Last(lens, OOMDeployment, records[..i], cited);
        memoryLimit == if d.None? then "" else lens.memoryLimitOf(d.value.payload)
    {
      var record := records[i];
      LastStep(lens, OOMPod, records, cited, i);
      LastStep(lens, OOMDeployment, records, cited, i);
      if record.id !in allowed || record.resourceRef != PAYMENTS { continue; }
      if record.tool == GetPods {
        if record.source == FromPods && lens.podsShowOOM(record.payload) { podID := record.id; }
      } else if record.tool == GetDeployment {
        var limit := lens.memoryLimitOf(record.payload);
        if record.source == FromDeployment && lens.isMemoryLimit(limit) {
          deploymentID := record.id;
          memoryLimit := limit;
        }
      }
    }
    assert records[..|records|] == records;
    OOMFromVariables(lens, records, cited, podID, deploymentID, memoryLimit);
    if podID == "" || deploymentID == "" { return None; }
    return Some(RootCause(OOMKilledAt(memoryLimit), PaymentsApi, MemoryLimitOOM, [podID, deploymentID]));
  }

  lemma {:induction false} ImageRoles(lens: Lens, r: Record)
    ensures Plays(lens, ImagePod, r) <==>
      r.tool == GetPods && r.source == FromPods && r.resourceRef == ORDERS && lens.podWaitingForImage(r.payload).Some?
    ensures Plays(lens, ImageDeployment, r) <==>
      r.tool == GetDeployment && r.source == FromDeployment && r.resourceRef == ORDERS
      && lens.ordersDeploymentImage(r.payload).Some?
    ensures Plays(lens, ImageEvents, r) <==> r.tool == GetEvents && r.source == FromEvents && r.resourceRef == ORDERS
  {
  }

  // The variables of a role hold its last record and what was read from it.
  ghost predicate KnowsPod(
    lens: Lens, records: seq<Record>, cited: seq<string>, id: string, pod: ImagePullPod) {
    var p := Last(lens, ImagePod, records, cited);
    id == IdOf(p) && (p.Some? ==> lens.podWaitingForImage(p.value.payload) == Some(pod))
  }

  ghost predicate KnowsImage(
    lens: Lens, records: seq<Record>, cited: seq<string>, id: string, image: DeploymentImage) {
    var d := Last(lens, ImageDeployment, records, cited);
    id == IdOf(d) && (d.Some? ==> lens.ordersDeploymentImage(d.value.payload) == Some(image))
  }

  ghost predicate KnowsEvents(lens: Lens, records: seq<Record>, cited: seq<string>, id: string, payload: Json) {
    var e := Last(lens, ImageEvents, records, cited);
    id == IdOf(e) && (e.Some? ==> e.value.payload == payload)
  }

  // One more record leaves a role's variables or replaces them.
  lemma {:induction false} PodStep(
    lens: Lens, records: seq<Record>, cited: seq<string>, i: nat, id: string, pod: ImagePullPod)
    requires i < |records| && KnowsPod(lens, records[..i], cited, id, pod)
    ensures var r := records[i]; var found := lens.podWaitingForImage(r.payload);
      if r.id in cited && r.tool == GetPods && r.source == FromPods && r.resourceRef == ORDERS && found.Some?
      then KnowsPod(lens, records[..i + 1], cited, r.id, found.value)
      else KnowsPod(lens, records[..i + 1], cited, id, pod)
  {
    LastStep(lens, ImagePod, records, cited, i);
    ImageRoles(lens, records[i]);
  }

  lemma {:induction false} ImageStep(
    lens: Lens, records: seq<Record>, cited: seq<string>, i: nat, id: string, image: DeploymentImage)
    requires i < |records| && KnowsImage(lens, records[..i], cited, id, image)
    ensures var r := records[i]; var found := lens.ordersDeploymentImage(r.payload);
      if r.id in cited && r.tool == GetDeployment && r.source == FromDeployment && r.resourceRef == ORDERS
        && found.Some?
      then KnowsImage(lens, records[..i + 1], cited, r.id, found.value)
      else KnowsImage(lens, records[..i + 1], cited, id, image)
  {
    LastStep(lens, ImageDeployment, records, cited, i);
    ImageRoles(lens, records[i]);
  }

  lemma {:induction false} EventsStep(
    lens: Lens, records: seq<Record>, cited: seq<string>, i: nat, id: string, payload: Json)
    requires i < |records| && KnowsEvents(lens, records[..i], cited, id, payload)
    ensures var r := records[i];
      if r.id in cited && r.tool == GetEvents && r.source == FromEvents && r.resourceRef == ORDERS
      then KnowsEvents(lens, records[..i + 1], cited, r.id, r.payload)
      else KnowsEvents(lens, records[..i + 1], cited, id, payload)
  {
    LastStep(lens, ImageEvents, records, cited, i);
    ImageRoles(lens, records[i]);
  }

  // The verdict in terms of these variables.
  lemma {:induction false} ImageFromVariables(
    lens: Lens, records: seq<Record>, cited: seq<string>, podID: string, pod: ImagePullPod, imageID: string,
    image: DeploymentImage, eventsID: string, payload: Json)
    requires KnowsPod(lens, records, cited, podID, pod) && KnowsImage(lens, records, cited, imageID, image)
    requires KnowsEvents(lens, records, cited, eventsID, payload)
    ensures Verified(lens, UnpullableImage, records, cited) ==
      if podID == "" || imageID == "" || eventsID == "" || pod.image != image.image || image.pullPolicy != "Always"
         || !lens.imageReference(image.image) || !lens.failedPull(payload, pod.name, image.image) then None
      else Some(RootCause(ImageNotPulled(image.image, pod.reason), OrdersApi, UnpullableImage,
             [podID, imageID, eventsID]))
  {
    assert IDs(Picks(lens, UnpullableImage, records, cited)) == [podID, imageID, eventsID];
    VerdictFromIDs(lens, UnpullableImage, records, cited, [podID, imageID, eventsID]);
  }

  method VerifyImagePull(lens: Lens, records: seq<Record>, cited: seq<string>) returns (r: Option<RootCause>)
    ensures r == Verified(lens, UnpullableImage, records, cited)
  {
    var allowed := CitedSet(cited);
    var podRecordID, deploymentRecordID, eventRecordID := "", "", "";
    var failedPod, configured := ImagePullPod("", "", ""), DeploymentImage("", "");
    var eventPayload := Null;
    for i := 0 to |records|
      invariant KnowsPod(lens, records[..i], cited, podRecordID, failedPod)
      invariant KnowsImage(lens, records[..i], cited, deploymentRecordID, configured)
      invariant KnowsEvents(lens, records[..i], cited, eventRecordID, eventPayload)
    {
      var record := records[i];
      PodStep(lens, records, cited, i, podRecordID, failedPod);
      ImageStep(lens, records, cited, i, deploymentRecordID, configured);
      EventsStep(lens, records, cited, i, eventRecordID, eventPayload);
      if record.id !in allowed || record.resourceRef != ORDERS { continue; }
      if record.tool == GetPods {
        var pod := lens.podWaitingForImage(record.payload);
        if record.source == FromPods && pod.Some? { podRecordID, failedPod := record.id, pod.value; }
      } else if record.tool == GetDeployment {
        var deployment := lens.ordersDeploymentImage(record.payload);
        if record.source == FromDeployment && deployment.Some? {
          deploymentRecordID, configured := record.id, deployment.value;
        }
      } else if record.tool == GetEvents {
        if record.source == FromEvents { eventRecordID, eventPayload := record.id, record.payload; }
      }
    }
    assert records[..|records|] == records;
    ImageFromVariables(lens, records, cited, podRecordID, failedPod, deploymentRecordID, configured, eventRecordID,
      eventPayload);
    if podRecordID == "" || deploymentRecordID == "" || eventRecordID == "" { return None; }
    if failedPod.image != configured.image || configured.pullPolicy != "Always"
       || !lens.imageReference(configured.image) || !lens.failedPull(eventPayload, failedPod.name, configured.image) {
      return None;
    }
    return Some(RootCause(ImageNotPulled(configured.image, failedPod.reason), OrdersApi, UnpullableImage,
      [podRecordID, deploymentRecordID, eventRecordID]));
  }

  lemma {:induction false} FirstStep(lens: Lens, role: Role, records: seq<Record>, cited: seq<string>, i: nat)
    requires i < |records|
    ensures First(lens, role, records[i..], cited) ==
      if records[i].id in cited && Plays(lens, role, records[i]) then Some(records[i])
      else First(lens, role, records[i + 1..], cited)
  {
    assert records[i..][1..] == records[i + 1..];
  }

  method FindLog(
    lens: Lens, records: seq<Record>, cited: seq<string>, allowed: set<string>, failedPod: string)
    returns (logID: string)
    requires forall id :: id in allowed <==> id in cited
    ensures logID == IdOf(First(lens, CrashLog(failedPod), records, cited))
  {
    logID := "";
    assert records[0..] == records;
    for i := 0 to |records|
      invariant logID == ""
        && First(lens, CrashLog(failedPod), records, cited) == First(lens, CrashLog(failedPod), records[i..], cited)
    {
      var record := records[i];
      FirstStep(lens, CrashLog(failedPod), records, cited, i);
      if record.id in allowed && record.tool == GetPodLogs && record.source == FromPodLogs
         && record.resourceRef == Demo(failedPod) && lens.logsShowInvalidMode(record.payload) {
        logID := record.id;
        break;
      }
    }
  }

  lemma {:induction false} ConfigRoles(lens: Lens, r: Record)
    ensures Plays(lens, OrdersConfig, r) <==>
      r.tool == GetOrdersConfig && r.source == FromConfigMap && r.resourceRef == ORDERS_CONFIG
      && lens.ordersConfigIsUnsupported(r.payload)
    ensures Plays(lens, ConfigDeployment, r) <==>
      r.tool == GetDeployment && r.source == FromDeployment && r.resourceRef == ORDERS
        && lens.referencesOrdersConfig(r.payload)
    ensures Plays(lens, CrashPod, r) <==>
      r.tool == GetPods && r.source == FromPods && r.resourceRef == ORDERS && lens.crashLoopPod(r.payload) != ""
  {
  }

  // The variables hold the last record of crashing pods and the pod that crashes.
  ghost predicate KnowsCrash(lens: Lens, records: seq<Record>, cited: seq<string>, id: string, pod: string) {
    var p := Last(lens, CrashPod, records, cited);
    id == IdOf(p) && if p.None? then pod == "" else pod == lens.crashLoopPod(p.value.payload) != ""
  }

  lemma {:induction false} CrashStep(
    lens: Lens, records: seq<Record>, cited: seq<string>, i: nat, id: string, pod: string)
    requires i < |records| && KnowsCrash(lens, records[..i], cited, id, pod)
    ensures var r := records[i]; var found := lens.crashLoopPod(r.payload);
      if r.id in cited && r.tool == GetPods && r.source == FromPods && r.resourceRef == ORDERS && found != ""
      then KnowsCrash(lens, records[..i + 1], cited, r.id, found)
      else KnowsCrash(lens, records[..i + 1], cited, id, pod)
  {
    LastStep(lens, CrashPod, records, cited, i);
    ConfigRoles(lens, records[i]);
  }

  lemma {:induction false} ConfigFromVariables(
    lens: Lens, records: seq<Record>, cited: seq<string>, configID: string, deploymentID: string, podID: string,
    failedPod: string, logID: string)
    requires Holds(lens, OrdersConfig, records, cited, configID)
    requires Holds(lens, ConfigDeployment, records, cited, deploymentID)
    requires KnowsCrash(lens, records, cited, podID, failedPod)
    requires logID == if failedPod == "" then "" else IdOf(First(lens, CrashLog(failedPod), records, cited))
    ensures Verified(lens, InvalidOrderMode, records, cited) ==
      if configID == "" || deploymentID == "" || podID == "" || logID == "" then None
      else Some(RootCause(ModeRejected(failedPod), OrdersApi, InvalidOrderMode, [configID, deploymentID, podID, logID]))
  {
    assert IDs(Picks(lens, InvalidOrderMode, records, cited)) == [configID, deploymentID, podID, logID];
    VerdictFromIDs(lens, InvalidOrderMode, records, cited, [configID, deploymentID, podID, logID]);
  }

  method VerifyInvalidOrderConfig(lens: Lens, records: seq<Record>, cited: seq<string>) returns (r: Option<RootCause>)
    ensures r == Verified(lens, InvalidOrderMode, records, cited)
  {
    var allowed := CitedSet(cited);
    var configID, deploymentID, podID, logID, failedPod := "", "", "", "", "";
    for i := 0 to |records|
      invariant Holds(lens, OrdersConfig, records[..i], cited, configID)
      invariant Holds(lens, ConfigDeployment, records[..i], cited, deploymentID)
      invariant KnowsCrash(lens, records[..i], cited, podID, failedPod)
    {
      var record := records[i];
      Track(lens, OrdersConfig, records, cited, i, configID);
      Track(lens, ConfigDeployment, records, cited, i, deploymentID);
      CrashStep(lens, records, cited, i, podID, failedPod);
      ConfigRoles(lens, record);
      if record.id !in allowed { continue; }
      if record.tool == GetOrdersConfig {
        if record.source == FromConfigMap && record.resourceRef == ORDERS_CONFIG
           && lens.ordersConfigIsUnsupported(record.payload) { configID := record.id; }
      } else if record.tool == GetDeployment {
        if record.source == FromDeployment && record.resourceRef == ORDERS
          && lens.referencesOrdersConfig(record.payload) {
          deploymentID := record.id;
        }
      } else if record.tool == GetPods {
        if record.source == FromPods && record.resourceRef == ORDERS {
          var pod := lens.crashLoopPod(record.payload);
          if pod != "" { podID, failedPod := record.id, pod; }
        }
      }
    }
    assert records[..|records|] == records;
    if failedPod != "" { logID := FindLog(lens, records, cited, allowed, failedPod); }
    ConfigFromVariables(lens, records, cited, configID, deploymentID, podID, failedPod, logID);
    if configID == "" || deploymentID == "" || podID == "" || logID == "" { return None; }
    return Some(RootCause(ModeRejected(failedPod), OrdersApi, InvalidOrderMode,
      [configID, deploymentID, podID, logID]));
  }

  lemma RoutingRoles(lens: Lens, r: Record)
    ensures Plays(lens, SelectorService, r) <==>
      r.tool == GetService && r.source == FromService && r.resourceRef == PAYMENTS
        && lens.serviceDisconnected(r.payload)
    ensures Plays(lens, EmptyEndpoints, r) <==>
      r.tool == GetEndpointSlices && r.source == FromEndpointSlices && r.resourceRef == PAYMENTS
        && lens.slicesAreEmpty(r.payload)
    ensures Plays(lens, ReadyPod, r) <==>
      r.tool == GetPods && r.source == FromPods && r.resourceRef == PAYMENTS && lens.podIsReady(r.payload)
    ensures Plays(lens, ErrorMetric, r) <==>
      r.tool == MetricRange && r.source == FromPrometheusRange && r.resourceRef == FRONTEND
        && lens.rangePositive(r.payload)
  {
  }

  lemma {:induction false} RoutingFromIDs(
    lens: Lens, records: seq<Record>, cited: seq<string>, serviceID: string, endpointID: string, podID: string,
    metricID: string)
    requires Holds(lens, SelectorService, records, cited, serviceID)
    requires Holds(lens, EmptyEndpoints, records, cited, endpointID)
    requires Holds(lens, ReadyPod, records, cited, podID)
    requires Holds(lens, ErrorMetric, records, cited, metricID)
    ensures Verified(lens, BrokenSelector, records, cited) ==
      if serviceID == "" || endpointID == "" || podID == "" || metricID == "" then None
      else Some(RootCause(NoEndpoints, PaymentsApi, BrokenSelector, [serviceID, endpointID, podID, metricID]))
  {
    assert IDs(Picks(lens, BrokenSelector, records, cited)) == [serviceID, endpointID, podID, metricID];
    VerdictFromIDs(lens, BrokenSelector, records, cited, [serviceID, endpointID, podID, metricID]);
  }

  method VerifyBrokenServiceSelector(
    lens: Lens, records: seq<Record>, cited: seq<string>) returns (r: Option<RootCause>)
    ensures r == Verified(lens, BrokenSelector, records, cited)
  {
    var allowed := CitedSet(cited);
    var serviceID, endpointID, podID, metricID := "", "", "", "";
    for i := 0 to |records|
      invariant Holds(lens, SelectorService, records[..i], cited, serviceID)
      invariant Holds(lens, EmptyEndpoints, records[..i], cited, endpointID)
      invariant Holds(lens, ReadyPod, records[..i], cited, podID)
      invariant Holds(lens, ErrorMetric, records[..i], cited, metricID)
    {
      var record := records[i];
      Track(lens, SelectorService, records, cited, i, serviceID);
      Track(lens, EmptyEndpoints, records, cited, i, endpointID);
      Track(lens, ReadyPod, records, cited, i, podID);
      Track(lens, ErrorMetric, records, cited, i, metricID);
      RoutingRoles(lens, record);
      if record.id !in allowed { continue; }
      if record.tool == GetService {
        if record.source == FromService && record.resourceRef == PAYMENTS
           && lens.serviceDisconnected(record.payload) { serviceID := record.id; }
      } else if record.tool == GetEndpointSlices {
        if record.source == FromEndpointSlices && record.resourceRef == PAYMENTS
           && lens.slicesAreEmpty(record.payload) { endpointID := record.id; }
      } else if record.tool == GetPods {
        if record.source == FromPods && record.resourceRef == PAYMENTS && lens.podIsReady(record.payload) {
          podID := record.id;
        }
      } else if record.tool == MetricRange {
        if record.source == FromPrometheusRange && record.resourceRef == FRONTEND
           && lens.rangePositive(record.payload) { metricID := record.id; }
      }
    }
    assert records[..|records|] == records;
    RoutingFromIDs(lens, records, cited, serviceID, endpointID, podID, metricID);
    if serviceID == "" || endpointID == "" || podID == "" || metricID == "" { return None; }
    return Some(RootCause(NoEndpoints, PaymentsApi, BrokenSelector, [serviceID, endpointID, podID, metricID]));
  }

  lemma LatencyRoles(lens: Lens, r: Record)
    ensures Plays(lens, BurnDeployment, r) <==>
      r.tool == GetDeployment && r.source == FromDeployment && r.resourceRef == ORDERS && lens.burnsCPU(r.payload)
    ensures Plays(lens, FrontendLatency, r) <==>
      r.tool == MetricRange && r.source == FromPrometheusRange && lens.isLatency(r.parameters)
        && r.resourceRef == FRONTEND && lens.rangeAtLeast(r.payload, 0.75)
    ensures Plays(lens, OrdersLatency, r) <==>
      r.tool == MetricRange && r.source == FromPrometheusRange && lens.isLatency(r.parameters)
        && r.resourceRef == ORDERS && lens.rangeAtLeast(r.payload, 0.9)
    ensures Plays(lens, SlowTrace, r) <==> r.tool == GetTrace && r.source == FromTempo && lens.slowCheckout(r.payload)
  {
  }

  lemma {:induction false} LatencyFromIDs(
    lens: Lens, records: seq<Record>, cited: seq<string>, deploymentID: string, frontendMetricID: string,
    ordersMetricID: string, traceID: string)
    requires Holds(lens, BurnDeployment, records, cited, deploymentID)
    requires Holds(lens, FrontendLatency, records, cited, frontendMetricID)
    requires Holds(lens, OrdersLatency, records, cited, ordersMetricID)
    requires Holds(lens, SlowTrace, records, cited, traceID)
    ensures Verified(lens, ExcessiveCPU, records, cited) ==
      if deploymentID == "" || frontendMetricID == "" || ordersMetricID == "" || traceID == "" then None
      else Some(RootCause(SlowOrders, OrdersApi, ExcessiveCPU,
             [deploymentID, frontendMetricID, ordersMetricID, traceID]))
  {
    assert IDs(Picks(lens, ExcessiveCPU, records, cited)) == [deploymentID, frontendMetricID, ordersMetricID, traceID];
    VerdictFromIDs(lens, ExcessiveCPU, records, cited, [deploymentID, frontendMetricID, ordersMetricID, traceID]);
  }

  method VerifyExcessiveCPU(lens: Lens, records: seq<Record>, cited: seq<string>) returns (r: Option<RootCause>)
    ensures r == Verified(lens, ExcessiveCPU, records, cited)
  {
    var allowed := CitedSet(cited);
    var deploymentID, frontendMetricID, ordersMetricID, traceID := "", "", "", "";
    for i := 0 to |records|
      invariant Holds(lens, BurnDeployment, records[..i], cited, deploymentID)
      invariant Holds(lens, FrontendLatency, records[..i], cited, frontendMetricID)
      invariant Holds(lens, OrdersLatency, records[..i], cited, ordersMetricID)
      invariant Holds(lens, SlowTrace, records[..i], cited, traceID)
    {
      var record := records[i];
      Track(lens, BurnDeployment, records, cited, i, deploymentID);
      Track(lens, FrontendLatency, records, cited, i, frontendMetricID);
      Track(lens, OrdersLatency, records, cited, i, ordersMetricID);
      Track(lens, SlowTrace, records, cited, i, traceID);
      LatencyRoles(lens, record);
      if record.id !in allowed { continue; }
      if record.tool == GetDeployment {
        if record.source == FromDeployment && record.resourceRef == ORDERS
           && lens.burnsCPU(record.payload) { deploymentID := record.id; }
      } else if record.tool == MetricRange {
        if record.source != FromPrometheusRange || !lens.isLatency(record.parameters) { continue; }
        if record.resourceRef == FRONTEND && lens.rangeAtLeast(record.payload, 0.75) { frontendMetricID := record.id; }
        if record.resourceRef == ORDERS && lens.rangeAtLeast(record.payload, 0.9) { ordersMetricID := record.id; }
      } else if record.tool == GetTrace {
        if record.source == FromTempo && lens.slowCheckout(record.payload) { traceID := record.id; }
      }
    }
    assert records[..|records|] == records;
    LatencyFromIDs(lens, records, cited, deploymentID, frontendMetricID, ordersMetricID, traceID);
    if deploymentID == "" || frontendMetricID == "" || ordersMetricID == "" || traceID == "" { return None; }
    return Some(RootCause(SlowOrders, OrdersApi, ExcessiveCPU,
      [deploymentID, frontendMetricID, ordersMetricID, traceID]));
  }

  lemma PaymentRoles(lens: Lens, r: Record)
    ensures Plays(lens, FailDeployment, r) <==>
      r.tool == GetDeployment && r.source == FromDeployment && r.resourceRef == PAYMENTS
        && lens.paymentModeFails(r.payload)
    ensures Plays(lens, FailTrace, r) <==> r.tool == GetTrace && r.source == FromTempo && lens.failedPayment(r.payload)
    ensures Plays(lens, FailMetric, r) <==>
      r.tool == MetricRange && r.source == FromPrometheusRange && r.resourceRef == FRONTEND
      && lens.isErrorRate(r.parameters) && lens.rangePositive(r.payload)
  {
  }

  lemma {:induction false} PaymentFromIDs(
    lens: Lens, records: seq<Record>, cited: seq<string>, deploymentID: string, traceID: string, metricID: string)
    requires Holds(lens, FailDeployment, records, cited, deploymentID)
    requires Holds(lens, FailTrace, records, cited, traceID)
    requires Holds(lens, FailMetric, records, cited, metricID)
    ensures Verified(lens, PaymentFailure, records, cited) ==
      if deploymentID == "" || traceID == "" || metricID == "" then None
      else Some(RootCause(FailedPayments, PaymentsApi, PaymentFailure, [deploymentID, traceID, metricID]))
  {
    assert IDs(Picks(lens, PaymentFailure, records, cited)) == [deploymentID, traceID, metricID];
    VerdictFromIDs(lens, PaymentFailure, records, cited, [deploymentID, traceID, metricID]);
  }

  method VerifyPaymentFailure(lens: Lens, records: seq<Record>, cited: seq<string>) returns (r: Option<RootCause>)
    ensures r == Verified(lens, PaymentFailure, records, cited)
  {
    var allowed := CitedSet(cited);
    var deploymentID, metricID, traceID := "", "", "";
    for i := 0 to |records|
      invariant Holds(lens, FailDeployment, records[..i], cited, deploymentID)
      invariant Holds(lens, FailTrace, records[..i], cited, traceID)
      invariant Holds(lens, FailMetric, records[..i], cited, metricID)
    {
      var record := records[i];
      Track(lens, FailDeployment, records, cited, i, deploymentID);
      Track(lens, FailTrace, records, cited, i, traceID);
      Track(lens, FailMetric, records, cited, i, metricID);
      PaymentRoles(lens, record);
      if record.id !in allowed { continue; }
      if record.tool == GetDeployment {
        if record.source == FromDeployment && record.resourceRef == PAYMENTS
           && lens.paymentModeFails(record.payload) { deploymentID := record.id; }
      } else if record.tool == MetricRange {
        if record.source == FromPrometheusRange && record.resourceRef == FRONTEND
           && lens.isErrorRate(record.parameters) && lens.rangePositive(record.payload) { metricID := record.id; }
      } else if record.tool == GetTrace {
        if record.source == FromTempo && lens.failedPayment(record.payload) { traceID := record.id; }
      }
    }
    assert records[..|records|] == records;
    PaymentFromIDs(lens, records, cited, deploymentID, traceID, metricID);
    if deploymentID == "" || metricID == "" || traceID == "" { return None; }
    return Some(RootCause(FailedPayments, PaymentsApi, PaymentFailure, [deploymentID, traceID, metricID]));
  }

  method VerifyOne(lens: Lens, cause: Cause, records: seq<Record>, cited: seq<string>) returns (r: Option<RootCause>)
    ensures r == Verified(lens, cause, records, cited)
  {
    match cause
    case MemoryLimitOOM => r := VerifyOOM(lens, records, cited);
    case UnpullableImage => r := VerifyImagePull(lens, records, cited);
    case InvalidOrderMode => r := VerifyInvalidOrderConfig(lens, records, cited);
    case BrokenSelector => r := VerifyBrokenServiceSelector(lens, records, cited);
    case ExcessiveCPU => r := VerifyExcessiveCPU(lens, records, cited);
    case PaymentFailure => r := VerifyPaymentFailure(lens, records, cited);
  }

  lemma FirstSomeStep<T>(answers: seq<Option<T>>, i: nat)
    requires i < |answers|
    ensures FirstSome(answers[i..]) == if answers[i].Some? then answers[i] else FirstSome(answers[i + 1..])
  {
    assert answers[i..][1..] == answers[i + 1..];
  }

  // The first cause, in the fixed order, that the citation proves.
  method FindSupportedCause(lens: Lens, records: seq<Record>, cited: seq<string>) returns (r: Option<RootCause>)
    ensures r == SupportedCause(lens, records, cited)
  {
    ghost var answers := Answers(lens, records, cited);
    assert answers[0..] == answers;
    for i := 0 to |ORDER|
      invariant SupportedCause(lens, records, cited) == FirstSome(answers[i..])
    {
      r := VerifyOne(lens, ORDER[i], records, cited);
      FirstSomeStep(answers, i);
      if r.Some? { return r; }
    }
    return None;
  }

  function Claimed(component: string, cause: string): Option<Cause> {
    if component == "payments-api" then
      if cause == "memory_limit_oom" then Some(MemoryLimitOOM)
      else if cause == "service_selector_matches_no_payment_pods" then Some(BrokenSelector)
      else if cause == "payment_processor_failure_mode_enabled" then Some(PaymentFailure)
      else None
    else if component == "orders-api" then
      if cause == "deployment_references_unpullable_image" then Some(UnpullableImage)
      else if cause == "unsupported_order_mode_from_configmap" then Some(InvalidOrderMode)
      else if cause == "excessive_cpu_work_per_order" then Some(ExcessiveCPU)
      else None
    else None
  }

  // The two texts that claim a cause.
  ghost predicate Says(component: string, claim: string, cause: Cause) {
    match cause
    case MemoryLimitOOM => component == "payments-api" && claim == "memory_limit_oom"
    case BrokenSelector => component == "payments-api" && claim == "service_selector_matches_no_payment_pods"
    case PaymentFailure => component == "payments-api" && claim == "payment_processor_failure_mode_enabled"
    case UnpullableImage => component == "orders-api" && claim == "deployment_references_unpullable_image"
    case InvalidOrderMode => component == "orders-api" && claim == "unsupported_order_mode_from_configmap"
    case ExcessiveCPU => component == "orders-api" && claim == "excessive_cpu_work_per_order"
  }

  lemma {:induction false} ClaimedIff(component: string, claim: string, cause: Cause)
    ensures Claimed(component, claim) == Some(cause) <==> Says(component, claim, cause)
  {
  }

  // Why a claim is refused.
  function WhyNot(component: string, cause: string): string {
    match Claimed(component, cause)
    case Some(MemoryLimitOOM) => "missing_cited_oom_or_limit"
    case Some(BrokenSelector) => "missing_cited_service_routing_evidence"
    case Some(PaymentFailure) => "missing_cited_payment_trace_evidence"
    case Some(UnpullableImage) => "missing_cited_image_pull_evidence"
    case Some(InvalidOrderMode) => "missing_cited_invalid_config_evidence"
    case Some(ExcessiveCPU) => "missing_cited_latency_trace_evidence"
    case None =>
      if component == "payments-api" || component == "orders-api" then "unsupported_cause"
      else "unsupported_component"
  }

  // Each claim has its own reason; for any other two texts it is the cause or the component.
  lemma {:induction false} ReasonIs(component: string, claim: string, cause: Cause)
    requires Says(component, claim, cause)
    ensures WhyNot(component, claim) ==
      match cause
      case MemoryLimitOOM => "missing_cited_oom_or_limit"
      case UnpullableImage => "missing_cited_image_pull_evidence"
      case InvalidOrderMode => "missing_cited_invalid_config_evidence"
      case BrokenSelector => "missing_cited_service_routing_evidence"
      case ExcessiveCPU => "missing_cited_latency_trace_evidence"
      case PaymentFailure => "missing_cited_payment_trace_evidence"
  {
    ClaimedIff(component, claim, cause);
  }

  lemma {:induction false} OtherReasons(component: string, claim: string)
    requires forall cause :: !Says(component, claim, cause)
    ensures WhyNot(component, claim) ==
      if component in {"payments-api", "orders-api"} then "unsupported_cause" else "unsupported_component"
  {
    var named := Claimed(component, claim);
    if named.Some? { ClaimedIff(component, claim, named.value); }
  }

  method VerifyPaymentsClaim(lens: Lens, records: seq<Record>, cited: seq<string>, cause: string)
    returns (verified: Option<RootCause>, reason: string)
    ensures var claim := Claimed("payments-api", cause);
      verified == if claim.None? then None else Verified(lens, claim.value, records, cited)
    ensures reason == if verified.Some? then "" else WhyNot("payments-api", cause)
  {
    if cause == "memory_limit_oom" {
      verified := VerifyOOM(lens, records, cited);
      reason := "missing_cited_oom_or_limit";
    } else if cause == "service_selector_matches_no_payment_pods" {
      verified := VerifyBrokenServiceSelector(lens, records, cited);
      reason := "missing_cited_service_routing_evidence";
    } else if cause == "payment_processor_failure_mode_enabled" {
      verified := VerifyPaymentFailure(lens, records, cited);
      reason := "missing_cited_payment_trace_evidence";
    } else {
      verified, reason := None, "unsupported_cause";
    }
    if verified.Some? { reason := ""; }
  }

  method VerifyOrdersClaim(lens: Lens, records: seq<Record>, cited: seq<string>, cause: string)
    returns (verified: Option<RootCause>, reason: string)
    ensures var claim := Claimed("orders-api", cause);
      verified == if claim.None? then None else Verified(lens, claim.value, records, cited)
    ensures reason == if verified.Some? then "" else WhyNot("orders-api", cause)
  {
    if cause == "deployment_references_unpullable_image" {
      verified := VerifyImagePull(lens, records, cited);
      reason := "missing_cited_image_pull_evidence";
    } else if cause == "unsupported_order_mode_from_configmap" {
      verified := VerifyInvalidOrderConfig(lens, records, cited);
      reason := "missing_cited_invalid_config_evidence";
    } else if cause == "excessive_cpu_work_per_order" {
      verified := VerifyExcessiveCPU(lens, records, cited);
      reason := "missing_cited_latency_trace_evidence";
    } else {
      verified, reason := None, "unsupported_cause";
    }
    if verified.Some? { reason := ""; }
  }

  // The model's claim: only a known pair of component and cause is checked at all, each by its own
  // verifier, and a refused claim always comes with its reason.
  method VerifyClaim(lens: Lens, records: seq<Record>, cited: seq<string>, component: string, cause: string)
    returns (verified: Option<RootCause>, reason: string)
    ensures var claim := Claimed(component, cause);
      verified == if claim.None? then None else Verified(lens, claim.value, records, cited)
    ensures reason == if verified.Some? then "" else WhyNot(component, cause)
    ensures forall c :: Says(component, cause, c) ==> verified == Verified(lens, c, records, cited)
    ensures verified.Some? ==> Says(component, cause, verified.value.cause)
  {
    forall c ensures Claimed(component, cause) == Some(c) <==> Says(component, cause, c) {
      ClaimedIff(component, cause, c);
    }
    if component == "payments-api" {
      verified, reason := VerifyPaymentsClaim(lens, records, cited, cause);
    } else if component == "orders-api" {
      verified, reason := VerifyOrdersClaim(lens, records, cited, cause);
    } else {
      verified, reason := None, "unsupported_component";
    }
  }
}

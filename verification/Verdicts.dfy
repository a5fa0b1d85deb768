/** What each verifier answers, cause by cause, in terms of the records themselves. */
module Verdicts {
  import opened Wrappers
  import opened Payloads
  import opened Records
  import opened Verify
  import Citations

  // The last cited record that fits, and the first.
  function LastFit(records: seq<Record>, cited: seq<string>, fits: Record -> bool): Option<Record> {
    if records == [] then None
    else
      var n := |records| - 1;
      if records[n].id in cited && fits(records[n]) then Some(records[n]) else LastFit(records[..n], cited, fits)
  }

  function FirstFit(records: seq<Record>, cited: seq<string>, fits: Record -> bool): Option<Record> {
    if records == [] then None
    else if records[0].id in cited && fits(records[0]) then Some(records[0])
    else FirstFit(records[1..], cited, fits)
  }

  ghost predicate Fitting(records: seq<Record>, cited: seq<string>, fits: Record -> bool, i: nat) {
    i < |records| && records[i].id in cited && fits(records[i])
  }

  lemma {:induction false} LastFitIs(records: seq<Record>, cited: seq<string>, fits: Record -> bool)
    ensures var found := LastFit(records, cited, fits);
      if found.None? then forall i: nat :: !Fitting(records, cited, fits, i)
      else exists i: nat ::
        Fitting(records, cited, fits, i) && records[i] == found.value
          && forall j: nat :: Fitting(records, cited, fits, j) ==> j <= i
  {
    if records != [] {
      var n := |records| - 1;
      if Fitting(records, cited, fits, n) {
        assert LastFit(records, cited, fits) == Some(records[n]);
      } else {
        LastFitIs(records[..n], cited, fits);
        forall i: nat ensures Fitting(records, cited, fits, i) <==> Fitting(records[..n], cited, fits, i) { }
      }
    }
  }

  lemma {:induction false} FirstFitIs(records: seq<Record>, cited: seq<string>, fits: Record -> bool)
    ensures var found := FirstFit(records, cited, fits);
      if found.None? then forall i: nat :: !Fitting(records, cited, fits, i)
      else exists i: nat ::
        Fitting(records, cited, fits, i) && records[i] == found.value
          && forall j: nat :: Fitting(records, cited, fits, j) ==> i <= j
  {
    if records != [] && !Fitting(records, cited, fits, 0) {
      var rest := records[1..];
      FirstFitIs(rest, cited, fits);
      forall i: nat ensures Fitting(records, cited, fits, i + 1) <==> Fitting(rest, cited, fits, i) { }
      if FirstFit(rest, cited, fits).Some? {
        var i: nat :| Fitting(rest, cited, fits, i) && rest[i] == FirstFit(rest, cited, fits).value
          && forall j: nat :: Fitting(rest, cited, fits, j) ==> i <= j;
        forall j: nat | Fitting(records, cited, fits, j) ensures i + 1 <= j {
          assert Fitting(rest, cited, fits, j - 1);
        }
        assert Fitting(records, cited, fits, i + 1);
      } else {
        forall j: nat ensures !Fitting(records, cited, fits, j) {
          if j > 0 { assert !Fitting(rest, cited, fits, j - 1); }
        }
      }
    }
  }

  ghost predicate Alike(lens: Lens, role: Role, fits: Record -> bool) { forall r :: fits(r) <==> Plays(lens, role, r) }

  lemma {:induction false} LastIsFit(
    lens: Lens, role: Role, records: seq<Record>, cited: seq<string>, fits: Record -> bool)
    requires Alike(lens, role, fits)
    ensures Last(lens, role, records, cited) == LastFit(records, cited, fits)
  {
    if records != [] { LastIsFit(lens, role, records[..|records| - 1], cited, fits); }
  }

  lemma {:induction false} FirstIsFit(
    lens: Lens, role: Role, records: seq<Record>, cited: seq<string>, fits: Record -> bool)
    requires Alike(lens, role, fits)
    ensures First(lens, role, records, cited) == FirstFit(records, cited, fits)
  {
    if records != [] { FirstIsFit(lens, role, records[1..], cited, fits); }
  }

  // --- what a record shows

  function KilledPods(lens: Lens): Record -> bool {
    (r: Record) => r.tool == GetPods && r.source == FromPods && r.resourceRef == Demo("payments-api")
      && lens.podsShowOOM(r.payload)
  }

  function LimitedDeployment(lens: Lens): Record -> bool {
    (r: Record) => r.tool == GetDeployment && r.source == FromDeployment && r.resourceRef == Demo("payments-api")
      && lens.isMemoryLimit(lens.memoryLimitOf(r.payload))
  }

  function WaitingPods(lens: Lens): Record -> bool {
    (r: Record) => r.tool == GetPods && r.source == FromPods && r.resourceRef == Demo("orders-api")
      && lens.podWaitingForImage(r.payload).Some?
  }

  function ImagedDeployment(lens: Lens): Record -> bool {
    (r: Record) => r.tool == GetDeployment && r.source == FromDeployment && r.resourceRef == Demo("orders-api")
      && lens.ordersDeploymentImage(r.payload).Some?
  }

  function OrdersEvents(): Record -> bool {
    (r: Record) => r.tool == GetEvents && r.source == FromEvents && r.resourceRef == Demo("orders-api")
  }

  function UnsupportedConfig(lens: Lens): Record -> bool {
    (r: Record) => r.tool == GetOrdersConfig && r.source == FromConfigMap && r.resourceRef == ConfigMap("orders-config")
      && lens.ordersConfigIsUnsupported(r.payload)
  }

  function ConfiguredDeployment(lens: Lens): Record -> bool {
    (r: Record) => r.tool == GetDeployment && r.source == FromDeployment && r.resourceRef == Demo("orders-api")
      && lens.referencesOrdersConfig(r.payload)
  }

  function CrashingPods(lens: Lens): Record -> bool {
    (r: Record) => r.tool == GetPods && r.source == FromPods && r.resourceRef == Demo("orders-api")
      && lens.crashLoopPod(r.payload) != ""
  }

  function LogsOf(lens: Lens, pod: string): Record -> bool {
    (r: Record) => r.tool == GetPodLogs && r.source == FromPodLogs && r.resourceRef == Demo(pod)
      && lens.logsShowInvalidMode(r.payload)
  }

  function DisconnectedService(lens: Lens): Record -> bool {
    (r: Record) => r.tool == GetService && r.source == FromService && r.resourceRef == Demo("payments-api")
      && lens.serviceDisconnected(r.payload)
  }

  function EmptySlices(lens: Lens): Record -> bool {
    (r: Record) =>
      r.tool == GetEndpointSlices && r.source == FromEndpointSlices && r.resourceRef == Demo("payments-api")
      && lens.slicesAreEmpty(r.payload)
  }

  function ReadyPods(lens: Lens): Record -> bool {
    (r: Record) => r.tool == GetPods && r.source == FromPods && r.resourceRef == Demo("payments-api")
      && lens.podIsReady(r.payload)
  }

  function FrontendErrors(lens: Lens): Record -> bool {
    (r: Record) => r.tool == MetricRange && r.source == FromPrometheusRange && r.resourceRef == Demo("frontend")
      && lens.rangePositive(r.payload)
  }

  function BurningDeployment(lens: Lens): Record -> bool {
    (r: Record) => r.tool == GetDeployment && r.source == FromDeployment && r.resourceRef == Demo("orders-api")
      && lens.burnsCPU(r.payload)
  }

  function SlowService(lens: Lens, workload: string, seconds: real): Record -> bool {
    (r: Record) => r.tool == MetricRange && r.source == FromPrometheusRange && r.resourceRef == Demo(workload)
      && lens.isLatency(r.parameters) && lens.rangeAtLeast(r.payload, seconds)
  }

  function SlowTraces(lens: Lens): Record -> bool {
    (r: Record) => r.tool == GetTrace && r.source == FromTempo && lens.slowCheckout(r.payload)
  }

  function FailingDeployment(lens: Lens): Record -> bool {
    (r: Record) => r.tool == GetDeployment && r.source == FromDeployment && r.resourceRef == Demo("payments-api")
      && lens.paymentModeFails(r.payload)
  }

  function FailedTraces(lens: Lens): Record -> bool {
    (r: Record) => r.tool == GetTrace && r.source == FromTempo && lens.failedPayment(r.payload)
  }

  function FrontendErrorRate(lens: Lens): Record -> bool {
    (r: Record) => r.tool == MetricRange && r.source == FromPrometheusRange && r.resourceRef == Demo("frontend")
      && lens.isErrorRate(r.parameters) && lens.rangePositive(r.payload)
  }

  ghost predicate Named(r: Option<Record>) { r.Some? && r.value.id != "" }

  // --- the picks of a verifier, one by one

  lemma {:induction false} OneMoreID(r: Option<Record>, picks: seq<Option<Record>>)
    ensures IDs([r] + picks) == [IdOf(r)] + IDs(picks)
    ensures AllNamed([r] + picks) <==> Named(r) && AllNamed(picks)
  {
    var all := [r] + picks;
    assert all[1..] == picks && all[0] == r;
    assert forall i :: 0 <= i < |picks| ==> all[i + 1] == picks[i];
    if AllNamed(all) { assert forall i :: 0 <= i < |picks| ==> picks[i] == all[i + 1]; }
  }

  lemma {:induction false} TwoIDs(a: Option<Record>, b: Option<Record>)
    ensures IDs([a, b]) == [IdOf(a), IdOf(b)] && (AllNamed([a, b]) <==> Named(a) && Named(b))
  {
    assert [a, b] == [a] + ([b] + []) && IDs([]) == [];
    OneMoreID(b, []);
    OneMoreID(a, [b] + []);
  }

  lemma {:induction false} ThreeIDs(a: Option<Record>, b: Option<Record>, c: Option<Record>)
    ensures IDs([a, b, c]) == [IdOf(a), IdOf(b), IdOf(c)]
    ensures AllNamed([a, b, c]) <==> Named(a) && Named(b) && Named(c)
  {
    assert [a, b, c] == [a] + [b, c];
    TwoIDs(b, c);
    OneMoreID(a, [b, c]);
  }

  lemma {:induction false} FourIDs(a: Option<Record>, b: Option<Record>, c: Option<Record>, d: Option<Record>)
    ensures IDs([a, b, c, d]) == [IdOf(a), IdOf(b), IdOf(c), IdOf(d)]
    ensures AllNamed([a, b, c, d]) <==> Named(a) && Named(b) && Named(c) && Named(d)
  {
    assert [a, b, c, d] == [a] + [b, c, d];
    ThreeIDs(b, c, d);
    OneMoreID(a, [b, c, d]);
  }

  // --- the six verdicts

  lemma {:induction false} OOMRolesAre(lens: Lens)
    ensures Alike(lens, OOMPod, KilledPods(lens))
    ensures Alike(lens, OOMDeployment, LimitedDeployment(lens))
  {
  }

  lemma {:induction false} OOMPicks(lens: Lens, records: seq<Record>, cited: seq<string>)
    ensures Picks(lens, MemoryLimitOOM, records, cited) == [
      LastFit(records, cited, KilledPods(lens)),
      LastFit(records, cited, LimitedDeployment(lens))]
  {
    OOMRolesAre(lens);
    LastIsFit(lens, OOMPod, records, cited, KilledPods(lens));
    LastIsFit(lens, OOMDeployment, records, cited, LimitedDeployment(lens));
  }

  lemma {:induction false} OOMVerdict(lens: Lens, records: seq<Record>, cited: seq<string>)
    ensures var pod, deployment :=
        LastFit(records, cited, KilledPods(lens)), LastFit(records, cited, LimitedDeployment(lens));
      Verified(lens, MemoryLimitOOM, records, cited) ==
        if !Named(pod) || !Named(deployment) then None
        else Some(RootCause(OOMKilledAt(lens.memoryLimitOf(deployment.value.payload)), PaymentsApi, MemoryLimitOOM,
               [pod.value.id, deployment.value.id]))
  {
    OOMPicks(lens, records, cited);
    var pod := LastFit(records, cited, KilledPods(lens));
    var deployment := LastFit(records, cited, LimitedDeployment(lens));
    assert Picks(lens, MemoryLimitOOM, records, cited) == [pod, deployment];
    TwoIDs(pod, deployment);
  }

  lemma {:induction false} ImageRolesAre(lens: Lens)
    ensures Alike(lens, ImagePod, WaitingPods(lens))
    ensures Alike(lens, ImageDeployment, ImagedDeployment(lens))
    ensures Alike(lens, ImageEvents, OrdersEvents())
  {
  }

  lemma {:induction false} ImagePicks(lens: Lens, records: seq<Record>, cited: seq<string>)
    ensures Picks(lens, UnpullableImage, records, cited) == [
      LastFit(records, cited, WaitingPods(lens)),
      LastFit(records, cited, ImagedDeployment(lens)),
      LastFit(records, cited, OrdersEvents())]
  {
    ImageRolesAre(lens);
    LastIsFit(lens, ImagePod, records, cited, WaitingPods(lens));
    LastIsFit(lens, ImageDeployment, records, cited, ImagedDeployment(lens));
    LastIsFit(lens, ImageEvents, records, cited, OrdersEvents());
  }

  lemma {:induction false} ImageVerdict(lens: Lens, records: seq<Record>, cited: seq<string>)
    ensures var pods, deployment, events := LastFit(records, cited, WaitingPods(lens)),
        LastFit(records, cited, ImagedDeployment(lens)), LastFit(records, cited, OrdersEvents());
      Verified(lens, UnpullableImage, records, cited) ==
        if !Named(pods) || !Named(deployment) || !Named(events) then None
        else
          var pod := lens.podWaitingForImage(pods.value.payload);
          var image := lens.ordersDeploymentImage(deployment.value.payload);
          if pod.None? || image.None? || pod.value.image != image.value.image || image.value.pullPolicy != "Always"
             || !lens.imageReference(image.value.image)
             || !lens.failedPull(events.value.payload, pod.value.name, image.value.image) then None
          else Some(RootCause(ImageNotPulled(image.value.image, pod.value.reason), OrdersApi, UnpullableImage,
                 [pods.value.id, deployment.value.id, events.value.id]))
  {
    ImagePicks(lens, records, cited);
    var pods := LastFit(records, cited, WaitingPods(lens));
    var deployment := LastFit(records, cited, ImagedDeployment(lens));
    var events := LastFit(records, cited, OrdersEvents());
    assert Picks(lens, UnpullableImage, records, cited) == [pods, deployment, events];
    ThreeIDs(pods, deployment, events);
  }

  function LogOf(lens: Lens, records: seq<Record>, cited: seq<string>, pods: Option<Record>): Option<Record> {
    if pods.None? then None else FirstFit(records, cited, LogsOf(lens, lens.crashLoopPod(pods.value.payload)))
  }

  lemma {:induction false} ConfigRolesAre(lens: Lens)
    ensures Alike(lens, OrdersConfig, UnsupportedConfig(lens))
    ensures Alike(lens, ConfigDeployment, ConfiguredDeployment(lens))
    ensures Alike(lens, CrashPod, CrashingPods(lens))
  {
  }

  lemma {:induction false} ConfigPicks(lens: Lens, records: seq<Record>, cited: seq<string>)
    ensures var pods := LastFit(records, cited, CrashingPods(lens));
      Picks(lens, InvalidOrderMode, records, cited) == [
        LastFit(records, cited, UnsupportedConfig(lens)), LastFit(records, cited, ConfiguredDeployment(lens)), pods,
        LogOf(lens, records, cited, pods)]
  {
    ConfigRolesAre(lens);
    LastIsFit(lens, OrdersConfig, records, cited, UnsupportedConfig(lens));
    LastIsFit(lens, ConfigDeployment, records, cited, ConfiguredDeployment(lens));
    LastIsFit(lens, CrashPod, records, cited, CrashingPods(lens));
    var pods := LastFit(records, cited, CrashingPods(lens));
    if pods.Some? {
      var pod := lens.crashLoopPod(pods.value.payload);
      FirstIsFit(lens, CrashLog(pod), records, cited, LogsOf(lens, pod));
    }
  }

  lemma {:induction false} ConfigVerdict(lens: Lens, records: seq<Record>, cited: seq<string>)
    ensures var config, deployment, pods := LastFit(records, cited, UnsupportedConfig(lens)),
        LastFit(records, cited, ConfiguredDeployment(lens)), LastFit(records, cited, CrashingPods(lens));
      Verified(lens, InvalidOrderMode, records, cited) ==
        if !Named(config) || !Named(deployment) || !Named(pods) then None
        else
          var pod := lens.crashLoopPod(pods.value.payload);
          var log := FirstFit(records, cited, LogsOf(lens, pod));
          if !Named(log) then None
          else Some(RootCause(ModeRejected(pod), OrdersApi, InvalidOrderMode,
                 [config.value.id, deployment.value.id, pods.value.id, log.value.id]))
  {
    ConfigPicks(lens, records, cited);
    var config := LastFit(records, cited, UnsupportedConfig(lens));
    var deployment := LastFit(records, cited, ConfiguredDeployment(lens));
    var pods := LastFit(records, cited, CrashingPods(lens));
    var log := LogOf(lens, records, cited, pods);
    assert Picks(lens, InvalidOrderMode, records, cited) == [config, deployment, pods, log];
    FourIDs(config, deployment, pods, log);
  }

  lemma {:induction false} RoutingRolesAre(lens: Lens)
    ensures Alike(lens, SelectorService, DisconnectedService(lens))
    ensures Alike(lens, EmptyEndpoints, EmptySlices(lens))
    ensures Alike(lens, ReadyPod, ReadyPods(lens))
    ensures Alike(lens, ErrorMetric, FrontendErrors(lens))
  {
  }

  lemma {:induction false} RoutingPicks(lens: Lens, records: seq<Record>, cited: seq<string>)
    ensures Picks(lens, BrokenSelector, records, cited) == [
      LastFit(records, cited, DisconnectedService(lens)),
      LastFit(records, cited, EmptySlices(lens)),
      LastFit(records, cited, ReadyPods(lens)),
      LastFit(records, cited, FrontendErrors(lens))]
  {
    RoutingRolesAre(lens);
    LastIsFit(lens, SelectorService, records, cited, DisconnectedService(lens));
    LastIsFit(lens, EmptyEndpoints, records, cited, EmptySlices(lens));
    LastIsFit(lens, ReadyPod, records, cited, ReadyPods(lens));
    LastIsFit(lens, ErrorMetric, records, cited, FrontendErrors(lens));
  }

  lemma {:induction false} RoutingVerdict(lens: Lens, records: seq<Record>, cited: seq<string>)
    ensures var service, slices, pods, errors := LastFit(records, cited, DisconnectedService(lens)),
        LastFit(records, cited, EmptySlices(lens)), LastFit(records, cited, ReadyPods(lens)),
        LastFit(records, cited, FrontendErrors(lens));
      Verified(lens, BrokenSelector, records, cited) ==
        if !Named(service) || !Named(slices) || !Named(pods) || !Named(errors) then None
        else Some(RootCause(NoEndpoints, PaymentsApi, BrokenSelector,
               [service.value.id, slices.value.id, pods.value.id, errors.value.id]))
  {
    RoutingPicks(lens, records, cited);
    var service := LastFit(records, cited, DisconnectedService(lens));
    var slices := LastFit(records, cited, EmptySlices(lens));
    var pods := LastFit(records, cited, ReadyPods(lens));
    var errors := LastFit(records, cited, FrontendErrors(lens));
    assert Picks(lens, BrokenSelector, records, cited) == [service, slices, pods, errors];
    FourIDs(service, slices, pods, errors);
  }

  lemma {:induction false} LatencyRolesAre(lens: Lens)
    ensures Alike(lens, BurnDeployment, BurningDeployment(lens))
    ensures Alike(lens, FrontendLatency, SlowService(lens, "frontend", 0.75))
    ensures Alike(lens, OrdersLatency, SlowService(lens, "orders-api", 0.9))
    ensures Alike(lens, SlowTrace, SlowTraces(lens))
  {
  }

  lemma {:induction false} LatencyPicks(lens: Lens, records: seq<Record>, cited: seq<string>)
    ensures Picks(lens, ExcessiveCPU, records, cited) == [
      LastFit(records, cited, BurningDeployment(lens)),
      LastFit(records, cited, SlowService(lens, "frontend", 0.75)),
      LastFit(records, cited, SlowService(lens, "orders-api", 0.9)),
      LastFit(records, cited, SlowTraces(lens))]
  {
    LatencyRolesAre(lens);
    LastIsFit(lens, BurnDeployment, records, cited, BurningDeployment(lens));
    LastIsFit(lens, FrontendLatency, records, cited, SlowService(lens, "frontend", 0.75));
    LastIsFit(lens, OrdersLatency, records, cited, SlowService(lens, "orders-api", 0.9));
    LastIsFit(lens, SlowTrace, records, cited, SlowTraces(lens));
  }

  lemma {:induction false} LatencyVerdict(lens: Lens, records: seq<Record>, cited: seq<string>)
    ensures var deployment, frontend, orders, trace := LastFit(records, cited, BurningDeployment(lens)),
        LastFit(records, cited, SlowService(lens, "frontend", 0.75)),
        LastFit(records, cited, SlowService(lens, "orders-api", 0.9)), LastFit(records, cited, SlowTraces(lens));
      Verified(lens, ExcessiveCPU, records, cited) ==
        if !Named(deployment) || !Named(frontend) || !Named(orders) || !Named(trace) then None
        else Some(RootCause(SlowOrders, OrdersApi, ExcessiveCPU,
               [deployment.value.id, frontend.value.id, orders.value.id, trace.value.id]))
  {
    LatencyPicks(lens, records, cited);
    var deployment := LastFit(records, cited, BurningDeployment(lens));
    var frontend := LastFit(records, cited, SlowService(lens, "frontend", 0.75));
    var orders := LastFit(records, cited, SlowService(lens, "orders-api", 0.9));
    var trace := LastFit(records, cited, SlowTraces(lens));
    assert Picks(lens, ExcessiveCPU, records, cited) == [deployment, frontend, orders, trace];
    FourIDs(deployment, frontend, orders, trace);
  }

  lemma {:induction false} PaymentRolesAre(lens: Lens)
    ensures Alike(lens, FailDeployment, FailingDeployment(lens))
    ensures Alike(lens, FailTrace, FailedTraces(lens))
    ensures Alike(lens, FailMetric, FrontendErrorRate(lens))
  {
  }

  lemma {:induction false} PaymentPicks(lens: Lens, records: seq<Record>, cited: seq<string>)
    ensures Picks(lens, PaymentFailure, records, cited) == [
      LastFit(records, cited, FailingDeployment(lens)),
      LastFit(records, cited, FailedTraces(lens)),
      LastFit(records, cited, FrontendErrorRate(lens))]
  {
    PaymentRolesAre(lens);
    LastIsFit(lens, FailDeployment, records, cited, FailingDeployment(lens));
    LastIsFit(lens, FailTrace, records, cited, FailedTraces(lens));
    LastIsFit(lens, FailMetric, records, cited, FrontendErrorRate(lens));
  }

  lemma {:induction false} PaymentVerdict(lens: Lens, records: seq<Record>, cited: seq<string>)
    ensures var deployment, trace, errors := LastFit(records, cited, FailingDeployment(lens)),
        LastFit(records, cited, FailedTraces(lens)), LastFit(records, cited, FrontendErrorRate(lens));
      Verified(lens, PaymentFailure, records, cited) ==
        if !Named(deployment) || !Named(trace) || !Named(errors) then None
        else Some(RootCause(FailedPayments, PaymentsApi, PaymentFailure,
               [deployment.value.id, trace.value.id, errors.value.id]))
  {
    PaymentPicks(lens, records, cited);
    var deployment := LastFit(records, cited, FailingDeployment(lens));
    var trace := LastFit(records, cited, FailedTraces(lens));
    var errors := LastFit(records, cited, FrontendErrorRate(lens));
    assert Picks(lens, PaymentFailure, records, cited) == [deployment, trace, errors];
    ThreeIDs(deployment, trace, errors);
  }

  // --- the cause that remediation acts on, and the order of the search

  // An OOM is proved exactly by a cited record of payments-api pods that shows an OOM kill together
  // with a cited record of its Deployment that shows a limit.
  lemma {:induction false} OOMProvedIff(lens: Lens, records: seq<Record>, cited: seq<string>)
    requires NamedIDs(records)
    ensures Verified(lens, MemoryLimitOOM, records, cited).Some? <==>
      && (exists pod ::
            && pod in records && pod.id in cited && pod.tool == GetPods && pod.source == FromPods
            && pod.resourceRef == Demo("payments-api") && lens.podsShowOOM(pod.payload))
      && (exists deployment ::
            && deployment in records && deployment.id in cited && deployment.tool == GetDeployment
            && deployment.source == FromDeployment && deployment.resourceRef == Demo("payments-api")
            && lens.isMemoryLimit(lens.memoryLimitOf(deployment.payload)))
  {
    OOMVerdict(lens, records, cited);
    FoundIff(records, cited, KilledPods(lens));
    FoundIff(records, cited, LimitedDeployment(lens));
  }

  lemma {:induction false} FoundIff(records: seq<Record>, cited: seq<string>, fits: Record -> bool)
    requires NamedIDs(records)
    ensures Named(LastFit(records, cited, fits)) <==> exists r :: r in records && r.id in cited && fits(r)
  {
    LastFitIs(records, cited, fits);
    if Named(LastFit(records, cited, fits)) {
      var i: nat :| Fitting(records, cited, fits, i) && records[i] == LastFit(records, cited, fits).value;
    }
    forall r | r in records && r.id in cited && fits(r) ensures Named(LastFit(records, cited, fits)) {
      var i: nat :| i < |records| && records[i] == r;
      assert Fitting(records, cited, fits, i);
    }
  }

  // The verifiers are asked in this order, and the first answer counts.
  lemma {:induction false} FirstProvedCause(lens: Lens, records: seq<Record>, cited: seq<string>, i: nat)
    ensures var order :=
        [MemoryLimitOOM, UnpullableImage, InvalidOrderMode, BrokenSelector, ExcessiveCPU, PaymentFailure];
      && (i < 6 && Verified(lens, order[i], records, cited).Some?
            && (forall j :: 0 <= j < i ==> Verified(lens, order[j], records, cited).None?) ==>
            SupportedCause(lens, records, cited) == Verified(lens, order[i], records, cited))
      && ((forall j :: 0 <= j < 6 ==> Verified(lens, order[j], records, cited).None?) ==>
            SupportedCause(lens, records, cited).None?)
  {
    var answers := Answers(lens, records, cited);
    if i < 6 && answers[i].Some? && forall j :: 0 <= j < i ==> answers[j].None? { Citations.FirstIsFound(answers, i); }
    if SupportedCause(lens, records, cited).Some? { var k := Citations.FirstSomeFinds(answers); }
  }
}

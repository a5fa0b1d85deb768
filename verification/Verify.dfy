/**
  Root-cause verification: what a cited set of records proves.  Each cause is a list of roles; a
  role is filled by the last cited record that plays it.
*/
module Verify {
  import opened Wrappers
  import opened Payloads
  import opened Records

  datatype ImagePullPod = ImagePullPod(name: string, image: string, reason: string)

  datatype DeploymentImage = DeploymentImage(image: string, pullPolicy: string)

  // The payload readers, taken as they come.  Four of them are written out in Payloads: a lens is
  // Concrete when it uses those.
  datatype Lens = Lens(
    podsShowOOM: Json -> bool,
    memoryLimitOf: Json -> string,
    serviceDisconnected: Json -> bool,
    slicesAreEmpty: Json -> bool,
    podWaitingForImage: Json -> Option<ImagePullPod>,
    ordersDeploymentImage: Json -> Option<DeploymentImage>,
    failedPull: (Json, string, string) -> bool,
    ordersConfigIsUnsupported: Json -> bool,
    referencesOrdersConfig: Json -> bool,
    crashLoopPod: Json -> string,
    logsShowInvalidMode: Json -> bool,
    podIsReady: Json -> bool,
    burnsCPU: Json -> bool,
    paymentModeFails: Json -> bool,
    isLatency: Json -> bool,
    isErrorRate: Json -> bool,
    rangeAtLeast: (Json, real) -> bool,
    rangePositive: Json -> bool,
    slowCheckout: Json -> bool,
    failedPayment: Json -> bool,
    isMemoryLimit: string -> bool,
    imageReference: string -> bool)

  ghost predicate Concrete(lens: Lens) {
    forall j: Json ::
      && lens.podsShowOOM(j) == PodsShowOOM(j)
      && lens.memoryLimitOf(j) == DeploymentMemoryLimit(j)
      && lens.serviceDisconnected(j) == (PaymentsServiceSelector(j) == "payments-api-disconnected")
      && lens.slicesAreEmpty(j) == PaymentEndpointSlicesAreEmpty(j)
  }

  datatype Cause = MemoryLimitOOM | UnpullableImage | InvalidOrderMode | BrokenSelector | ExcessiveCPU | PaymentFailure

  // The sentence of a conclusion is fixed but for these inserts.
  datatype Finding =
    | OOMKilledAt(limit: string)
    | ImageNotPulled(image: string, reason: string)
    | ModeRejected(pod: string)
    | NoEndpoints
    | SlowOrders
    | FailedPayments

  datatype Component = PaymentsApi | OrdersApi

  datatype RootCause = RootCause(conclusion: Finding, component: Component, cause: Cause, evidenceIDs: seq<string>)

  datatype Role =
    | OOMPod | OOMDeployment
    | ImagePod | ImageDeployment | ImageEvents
    | OrdersConfig | ConfigDeployment | CrashPod | CrashLog(pod: string)
    | SelectorService | EmptyEndpoints | ReadyPod | ErrorMetric
    | BurnDeployment | FrontendLatency | OrdersLatency | SlowTrace
    | FailDeployment | FailTrace | FailMetric

  function ToolOf(role: Role): Tool {
    match role
    case OOMPod => GetPods
    case ImagePod => GetPods
    case CrashPod => GetPods
    case ReadyPod => GetPods
    case ImageEvents => GetEvents
    case OrdersConfig => GetOrdersConfig
    case CrashLog(_) => GetPodLogs
    case SelectorService => GetService
    case EmptyEndpoints => GetEndpointSlices
    case ErrorMetric => MetricRange
    case FrontendLatency => MetricRange
    case OrdersLatency => MetricRange
    case FailMetric => MetricRange
    case SlowTrace => GetTrace
    case FailTrace => GetTrace
    case _ => GetDeployment
  }

  function SourceOf(role: Role): Source {
    match ToolOf(role)
    case GetPods => FromPods
    case GetEvents => FromEvents
    case GetOrdersConfig => FromConfigMap
    case GetPodLogs => FromPodLogs
    case GetService => FromService
    case GetEndpointSlices => FromEndpointSlices
    case MetricRange => FromPrometheusRange
    case GetTrace => FromTempo
    case _ => FromDeployment
  }

  // What the record itself must show.
  predicate Shows(lens: Lens, role: Role, r: Record) {
    match role
    case OOMPod => r.resourceRef == PAYMENTS && lens.podsShowOOM(r.payload)
    case OOMDeployment => r.resourceRef == PAYMENTS && lens.isMemoryLimit(lens.memoryLimitOf(r.payload))
    case ImagePod => r.resourceRef == ORDERS && lens.podWaitingForImage(r.payload).Some?
    case ImageDeployment => r.resourceRef == ORDERS && lens.ordersDeploymentImage(r.payload).Some?
    case ImageEvents => r.resourceRef == ORDERS
    case OrdersConfig => r.resourceRef == ORDERS_CONFIG && lens.ordersConfigIsUnsupported(r.payload)
    case ConfigDeployment => r.resourceRef == ORDERS && lens.referencesOrdersConfig(r.payload)
    case CrashPod => r.resourceRef == ORDERS && lens.crashLoopPod(r.payload) != ""
    case CrashLog(pod) => r.resourceRef == Demo(pod) && lens.logsShowInvalidMode(r.payload)
    case SelectorService => r.resourceRef == PAYMENTS && lens.serviceDisconnected(r.payload)
    case EmptyEndpoints => r.resourceRef == PAYMENTS && lens.slicesAreEmpty(r.payload)
    case ReadyPod => r.resourceRef == PAYMENTS && lens.podIsReady(r.payload)
    case ErrorMetric => r.resourceRef == FRONTEND && lens.rangePositive(r.payload)
    case BurnDeployment => r.resourceRef == ORDERS && lens.burnsCPU(r.payload)
    case FrontendLatency =>
      lens.isLatency(r.parameters) && r.resourceRef == FRONTEND && lens.rangeAtLeast(r.payload, 0.75)
    case OrdersLatency =>
      lens.isLatency(r.parameters) && r.resourceRef == ORDERS && lens.rangeAtLeast(r.payload, 0.9)
    case SlowTrace => lens.slowCheckout(r.payload)
    case FailDeployment => r.resourceRef == PAYMENTS && lens.paymentModeFails(r.payload)
    case FailTrace => lens.failedPayment(r.payload)
    case FailMetric =>
      r.resourceRef == FRONTEND && lens.isErrorRate(r.parameters) && lens.rangePositive(r.payload)
  }

  predicate Plays(lens: Lens, role: Role, r: Record) {
    r.tool == ToolOf(role) && r.source == SourceOf(role) && Shows(lens, role, r)
  }

  function Last(lens: Lens, role: Role, records: seq<Record>, cited: seq<string>): Option<Record> {
    if records == [] then None
    else
      var r := records[|records| - 1];
      if r.id in cited && Plays(lens, role, r) then Some(r) else Last(lens, role, records[..|records| - 1], cited)
  }

  function First(lens: Lens, role: Role, records: seq<Record>, cited: seq<string>): Option<Record> {
    if records == [] then None
    else if records[0].id in cited && Plays(lens, role, records[0]) then Some(records[0])
    else First(lens, role, records[1..], cited)
  }

  function IdOf(r: Option<Record>): string { if r.None? then "" else r.value.id }

  // Roles in the order their records are cited by the conclusion.
  function Roles(cause: Cause): (roles: seq<Role>)
    ensures 2 <= |roles| <= 4
  {
    match cause
    case MemoryLimitOOM => [OOMPod, OOMDeployment]
    case UnpullableImage => [ImagePod, ImageDeployment, ImageEvents]
    case InvalidOrderMode => [OrdersConfig, ConfigDeployment, CrashPod]
    case BrokenSelector => [SelectorService, EmptyEndpoints, ReadyPod, ErrorMetric]
    case ExcessiveCPU => [BurnDeployment, FrontendLatency, OrdersLatency, SlowTrace]
    case PaymentFailure => [FailDeployment, FailTrace, FailMetric]
  }

  function LastOfEach(
    lens: Lens, roles: seq<Role>, records: seq<Record>, cited: seq<string>): (picks: seq<Option<Record>>)
    ensures |picks| == |roles|
    ensures forall i :: 0 <= i < |roles| ==> picks[i] == Last(lens, roles[i], records, cited)
  {
    if roles == [] then []
    else [Last(lens, roles[0], records, cited)] + LastOfEach(lens, roles[1..], records, cited)
  }

  // For the configuration cause the log must be of the crashing pod, and the first one counts.
  function Picks(lens: Lens, cause: Cause, records: seq<Record>, cited: seq<string>): seq<Option<Record>> {
    var picks := LastOfEach(lens, Roles(cause), records, cited);
    if !cause.InvalidOrderMode? then picks
    else
      var log := if picks[2].None? then None
        else First(lens, CrashLog(lens.crashLoopPod(picks[2].value.payload)), records, cited);
      picks + [log]
  }

  predicate AllNamed(picks: seq<Option<Record>>) {
    forall i :: 0 <= i < |picks| ==> picks[i].Some? && picks[i].value.id != ""
  }

  // For the image cause the three records must agree with each other.
  predicate Agree(lens: Lens, cause: Cause, picks: seq<Option<Record>>)
    requires |picks| >= |Roles(cause)| && forall i :: 0 <= i < |picks| ==> picks[i].Some?
  {
    cause.UnpullableImage? ==>
      var pod := lens.podWaitingForImage(picks[0].value.payload);
      var image := lens.ordersDeploymentImage(picks[1].value.payload);
      && pod.Some? && image.Some?
      && pod.value.image == image.value.image
      && image.value.pullPolicy == "Always"
      && lens.imageReference(image.value.image)
      && lens.failedPull(picks[2].value.payload, pod.value.name, image.value.image)
  }

  function ComponentOf(cause: Cause): Component {
    if cause.MemoryLimitOOM? || cause.BrokenSelector? || cause.PaymentFailure? then PaymentsApi else OrdersApi
  }

  function Conclusion(lens: Lens, cause: Cause, picks: seq<Option<Record>>): Finding
    requires |picks| >= |Roles(cause)| && (forall i :: 0 <= i < |picks| ==> picks[i].Some?) && Agree(lens, cause, picks)
  {
    match cause
    case MemoryLimitOOM => OOMKilledAt(lens.memoryLimitOf(picks[1].value.payload))
    case UnpullableImage =>
      ImageNotPulled(lens.ordersDeploymentImage(picks[1].value.payload).value.image,
        lens.podWaitingForImage(picks[0].value.payload).value.reason)
    case InvalidOrderMode => ModeRejected(lens.crashLoopPod(picks[2].value.payload))
    case BrokenSelector => NoEndpoints
    case ExcessiveCPU => SlowOrders
    case PaymentFailure => FailedPayments
  }

  function IDs(picks: seq<Option<Record>>): (ids: seq<string>)
    ensures |ids| == |picks| && forall i :: 0 <= i < |picks| ==> ids[i] == IdOf(picks[i])
  {
    if picks == [] then [] else [IdOf(picks[0])] + IDs(picks[1..])
  }

  // What the verifier of one cause answers.
  function Verified(lens: Lens, cause: Cause, records: seq<Record>, cited: seq<string>): Option<RootCause> {
    var picks := Picks(lens, cause, records, cited);
    if !AllNamed(picks) || !Agree(lens, cause, picks) then None
    else Some(RootCause(Conclusion(lens, cause, picks), ComponentOf(cause), cause, IDs(picks)))
  }

  const ORDER: seq<Cause> :=
    [MemoryLimitOOM, UnpullableImage, InvalidOrderMode, BrokenSelector, ExcessiveCPU, PaymentFailure]

  function FirstSome<T>(answers: seq<Option<T>>): Option<T> {
    if answers == [] then None else if answers[0].Some? then answers[0] else FirstSome(answers[1..])
  }

  // The six verifiers' answers, in the fixed order.
  function Answers(lens: Lens, records: seq<Record>, cited: seq<string>): (answers: seq<Option<RootCause>>)
    ensures |answers| == |ORDER|
      && forall i :: 0 <= i < |ORDER| ==> answers[i] == Verified(lens, ORDER[i], records, cited)
  {
    seq(|ORDER|, i requires 0 <= i < |ORDER| => Verified(lens, ORDER[i], records, cited))
  }

  function SupportedCause(lens: Lens, records: seq<Record>, cited: seq<string>): Option<RootCause> {
    FirstSome(Answers(lens, records, cited))
  }
}

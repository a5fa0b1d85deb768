/** Decoded JSON payloads and the four payload readers that remediation and routing rest on. */
module Payloads {
  import opened Wrappers

  datatype Json =
    | Null
    | Bool(b: bool)
    | Number(n: int)
    | Text(s: string)
    | List(items: seq<Json>)
    | Object(fields: map<string, Json>)

  // Reading a Go struct field: absent and null are the zero value; any other type is a decode error.
  function Field(j: Json, key: string): Json {
    if j.Object? && key in j.fields then j.fields[key] else Null
  }

  predicate ObjectOrNull(j: Json) { j.Object? || j.Null? }

  predicate ListOrNull(j: Json) { j.List? || j.Null? }

  predicate TextOrNull(j: Json) { j.Text? || j.Null? }

  function Items(j: Json): seq<Json> { if j.List? then j.items else [] }

  function TextOf(j: Json): string { if j.Text? then j.s else "" }

  // A nested struct path decodes when every step is an object or null.
  function At(j: Json, path: seq<string>): Json
    decreases |path|
  {
    if path == [] then j else At(Field(j, path[0]), path[1..])
  }

  predicate ObjectsAlong(j: Json, path: seq<string>)
    decreases |path|
  {
    ObjectOrNull(j) && (path == [] || ObjectsAlong(Field(j, path[0]), path[1..]))
  }

  predicate TextMap(j: Json) {
    j.Null? || (j.Object? && forall key :: key in j.fields ==> TextOrNull(j.fields[key]))
  }

  // --- pods with an OOM-killed payments-api container

  predicate StatusDecodes(status: Json) {
    && ObjectOrNull(status) && TextOrNull(Field(status, "name"))
    && ObjectsAlong(status, ["lastState", "terminated"])
      && TextOrNull(At(status, ["lastState", "terminated", "reason"]))
    && ObjectsAlong(status, ["state", "terminated"]) && TextOrNull(At(status, ["state", "terminated", "reason"]))
  }

  predicate PodDecodes(pod: Json) {
    && ObjectsAlong(pod, ["status"]) && ListOrNull(At(pod, ["status", "containerStatuses"]))
    && forall i :: 0 <= i < |Statuses(pod)| ==> StatusDecodes(Statuses(pod)[i])
  }

  function Statuses(pod: Json): seq<Json> { Items(At(pod, ["status", "containerStatuses"])) }

  predicate PodsDecode(pods: Json) {
    && ObjectOrNull(pods) && ListOrNull(Field(pods, "items"))
    && forall i :: 0 <= i < |Items(Field(pods, "items"))| ==> PodDecodes(Items(Field(pods, "items"))[i])
  }

  predicate StatusShowsOOM(status: Json) {
    && TextOf(Field(status, "name")) == "payments-api"
    && (TextOf(At(status, ["lastState", "terminated", "reason"])) == "OOMKilled"
        || TextOf(At(status, ["state", "terminated", "reason"])) == "OOMKilled")
  }

  predicate PodShowsOOM(pod: Json) {
    exists i :: 0 <= i < |Statuses(pod)| && StatusShowsOOM(Statuses(pod)[i])
  }

  predicate PodsShowOOM(pods: Json) {
    PodsDecode(pods)
      && exists i :: 0 <= i < |Items(Field(pods, "items"))| && PodShowsOOM(Items(Field(pods, "items"))[i])
  }

  // --- the Deployment's memory limit

  const CONTAINERS := ["spec", "template", "spec", "containers"]

  predicate ContainerDecodes(container: Json) {
    && ObjectOrNull(container) && TextOrNull(Field(container, "name"))
    && ObjectsAlong(container, ["resources"]) && TextMap(At(container, ["resources", "limits"]))
  }

  predicate DeploymentDecodes(deployment: Json) {
    && ObjectsAlong(deployment, ["spec", "template", "spec"]) && ListOrNull(At(deployment, CONTAINERS))
    && forall i :: 0 <= i < |Items(At(deployment, CONTAINERS))| ==>
      ContainerDecodes(Items(At(deployment, CONTAINERS))[i])
  }

  // The limit of the first container with the name, if there is one.
  function LimitIn(containers: seq<Json>): Option<string> {
    if containers == [] then None
    else if TextOf(Field(containers[0], "name")) == "payments-api" then
      Some(TextOf(At(containers[0], ["resources", "limits", "memory"])))
    else LimitIn(containers[1..])
  }

  function ContainerLimit(deployment: Json): Option<string> {
    if DeploymentDecodes(deployment) then LimitIn(Items(At(deployment, CONTAINERS))) else None
  }

  function DeploymentMemoryLimit(deployment: Json): string {
    if ContainerLimit(deployment).Some? then ContainerLimit(deployment).value else ""
  }

  // --- the Service selector and its endpoint slices

  predicate ServiceDecodes(service: Json) {
    ObjectsAlong(service, ["spec"]) && TextMap(At(service, ["spec", "selector"]))
  }

  function PaymentsServiceSelector(service: Json): string {
    if ServiceDecodes(service) then TextOf(At(service, ["spec", "selector", "app"])) else ""
  }

  predicate AllTexts(items: seq<Json>) {
    forall i :: 0 <= i < |items| ==> TextOrNull(items[i])
  }

  predicate EndpointDecodes(endpoint: Json) {
    ObjectOrNull(endpoint) && ListOrNull(Field(endpoint, "addresses")) && AllTexts(Items(Field(endpoint, "addresses")))
  }

  predicate SliceDecodes(slice: Json) {
    && ObjectsAlong(slice, ["metadata"]) && TextMap(At(slice, ["metadata", "labels"]))
    && ListOrNull(Field(slice, "endpoints"))
    && forall i :: 0 <= i < |Items(Field(slice, "endpoints"))| ==> EndpointDecodes(Items(Field(slice, "endpoints"))[i])
  }

  predicate SlicesDecode(slices: Json) {
    && ObjectOrNull(slices) && ListOrNull(Field(slices, "items"))
    && forall i :: 0 <= i < |Items(Field(slices, "items"))| ==> SliceDecodes(Items(Field(slices, "items"))[i])
  }

  predicate EmptySlice(slice: Json) {
    && TextOf(At(slice, ["metadata", "labels", "kubernetes.io/service-name"])) == "payments-api"
    && forall i ::
      0 <= i < |Items(Field(slice, "endpoints"))| ==>
        Items(Field(Items(Field(slice, "endpoints"))[i], "addresses")) == []
  }

  predicate PaymentEndpointSlicesAreEmpty(slices: Json) {
    && SlicesDecode(slices)
    && Items(Field(slices, "items")) != []
    && forall i :: 0 <= i < |Items(Field(slices, "items"))| ==> EmptySlice(Items(Field(slices, "items"))[i])
  }
}

/** One collected observation. */
module Records {
  import opened Payloads

  // The named tools and sources; any other text is Other.
  datatype Tool =
    | GetDeployment | GetOrdersConfig | GetService | GetEndpointSlices | GetPods | GetEvents | GetPodLogs
    | MetricRange | SearchLogs | SearchTraces | GetTrace
    | ArgoApplication | ArgoHistory | GitHubCommit | GitHubDiff
    | OtherTool(name: string)

  datatype Source =
    | FromDeployment | FromConfigMap | FromService | FromEndpointSlices | FromPods | FromEvents | FromPodLogs
    | FromPrometheusRange | FromTempo
    | OtherSource(name: string)

  // Demo(x) is the text "incidentpilot-demo/x", ConfigMap(x) is "incidentpilot-demo/configmap/x".
  datatype Ref = Demo(name: string) | ConfigMap(name: string) | OtherRef(text: string)

  const PAYMENTS := Demo("payments-api")
  const ORDERS := Demo("orders-api")
  const FRONTEND := Demo("frontend")
  const ORDERS_CONFIG := ConfigMap("orders-config")

  datatype Workload = Frontend | Orders | Payments | OtherWorkload(name: string)

  datatype Record = Record(
    id: string, incidentID: string, tool: Tool, source: Source, resourceRef: Ref, parameters: Json, payload: Json)

  predicate DistinctIDs(records: seq<Record>) {
    forall i, j :: 0 <= i < j < |records| ==> records[i].id != records[j].id
  }

  predicate NamedIDs(records: seq<Record>) {
    forall i :: 0 <= i < |records| ==> records[i].id != ""
  }
}

/** The payload readers give the same answers before and after scrubbing. */
module Readers {
  import opened Payloads
  import opened Cleaning

  lemma {:induction false} StatusKept(blocked: string -> bool, status: Json)
    requires !blocked("name") && !blocked("lastState") && !blocked("state") && !blocked("terminated")
      && !blocked("reason")
    ensures StatusDecodes(Scrubbed(blocked, status)) <==> StatusDecodes(status)
    ensures StatusShowsOOM(Scrubbed(blocked, status)) <==> StatusShowsOOM(status)
  {
    KindKept(blocked, status);
    FieldKept(blocked, status, "name");
    KindKept(blocked, Field(status, "name"));
    ReadKept(blocked, status, ["lastState", "terminated"]);
    ReadKept(blocked, status, ["lastState", "terminated", "reason"]);
    ReadKept(blocked, status, ["state", "terminated"]);
    ReadKept(blocked, status, ["state", "terminated", "reason"]);
  }

  ghost predicate PodKeys(blocked: string -> bool) {
    && !blocked("name") && !blocked("lastState") && !blocked("state") && !blocked("terminated") && !blocked("reason")
    && !blocked("status") && !blocked("containerStatuses") && !blocked("items")
  }

  lemma {:induction false} PodKept(blocked: string -> bool, pod: Json)
    requires PodKeys(blocked)
    ensures PodDecodes(Scrubbed(blocked, pod)) <==> PodDecodes(pod)
    ensures PodShowsOOM(Scrubbed(blocked, pod)) <==> PodShowsOOM(pod)
  {
    var s := Scrubbed(blocked, pod);
    ReadKept(blocked, pod, ["status"]);
    ReadKept(blocked, pod, ["status", "containerStatuses"]);
    KindKept(blocked, At(pod, ["status", "containerStatuses"]));
    assert |Statuses(s)| == |Statuses(pod)|;
    forall i | 0 <= i < |Statuses(pod)|
      ensures StatusDecodes(Statuses(s)[i]) <==> StatusDecodes(Statuses(pod)[i])
      ensures StatusShowsOOM(Statuses(s)[i]) <==> StatusShowsOOM(Statuses(pod)[i])
    {
      StatusKept(blocked, Statuses(pod)[i]);
    }
  }

  lemma PodItemsKept(blocked: string -> bool, items: seq<Json>, items': seq<Json>)
    requires PodKeys(blocked) && |items'| == |items|
      && forall i :: 0 <= i < |items| ==> items'[i] == Scrubbed(blocked, items[i])
    ensures forall i ::
      0 <= i < |items| ==>
        (PodDecodes(items'[i]) <==> PodDecodes(items[i])) && (PodShowsOOM(items'[i]) <==> PodShowsOOM(items[i]))
  {
    forall i | 0 <= i < |items|
      ensures PodDecodes(items'[i]) <==> PodDecodes(items[i])
      ensures PodShowsOOM(items'[i]) <==> PodShowsOOM(items[i])
    {
      PodKept(blocked, items[i]);
    }
  }

  lemma {:induction false} PodListKept(blocked: string -> bool, pods: Json)
    requires PodKeys(blocked)
    ensures var items, items' := Items(Field(pods, "items")), Items(Field(Scrubbed(blocked, pods), "items"));
      && |items'| == |items| && (forall i :: 0 <= i < |items| ==> items'[i] == Scrubbed(blocked, items[i]))
      && (ListOrNull(Field(Scrubbed(blocked, pods), "items")) <==> ListOrNull(Field(pods, "items")))
      && (ObjectOrNull(Scrubbed(blocked, pods)) <==> ObjectOrNull(pods))
  {
    KindKept(blocked, pods);
    FieldKept(blocked, pods, "items");
    KindKept(blocked, Field(pods, "items"));
  }

  // For pods the answer is the same whatever the object is.
  lemma {:induction false} PodsKept(blocked: string -> bool, pods: Json)
    requires PodKeys(blocked)
    ensures PodsShowOOM(Scrubbed(blocked, pods)) <==> PodsShowOOM(pods)
  {
    var items, items' := Items(Field(pods, "items")), Items(Field(Scrubbed(blocked, pods), "items"));
    PodListKept(blocked, pods);
    PodItemsKept(blocked, items, items');
    assert PodsDecode(Scrubbed(blocked, pods)) <==> PodsDecode(pods);
  }

  // A map of texts stays one, though a blocked entry of another type may be what kept it from being one.
  lemma {:induction false} TextMapKept(blocked: string -> bool, j: Json)
    requires TextMap(j)
    ensures TextMap(Scrubbed(blocked, j))
  {
    if j.Object? {
      forall key | key in j.fields && !blocked(key) ensures TextOrNull(Scrubbed(blocked, j.fields[key])) {
        KindKept(blocked, j.fields[key]);
      }
    }
  }

  lemma {:induction false} ContainerKept(blocked: string -> bool, container: Json)
    requires !blocked("name") && !blocked("resources") && !blocked("limits") && !blocked("memory")
    ensures ContainerDecodes(container) ==> ContainerDecodes(Scrubbed(blocked, container))
    ensures TextOf(Field(Scrubbed(blocked, container), "name")) == TextOf(Field(container, "name"))
    ensures TextOf(At(Scrubbed(blocked, container), ["resources", "limits", "memory"]))
      == TextOf(At(container, ["resources", "limits", "memory"]))
  {
    KindKept(blocked, container);
    FieldKept(blocked, container, "name");
    KindKept(blocked, Field(container, "name"));
    ReadKept(blocked, container, ["resources"]);
    ReadKept(blocked, container, ["resources", "limits"]);
    ReadKept(blocked, container, ["resources", "limits", "memory"]);
    if TextMap(At(container, ["resources", "limits"])) { TextMapKept(blocked, At(container, ["resources", "limits"])); }
  }

  ghost predicate DeploymentKeys(blocked: string -> bool) {
    && !blocked("name") && !blocked("resources") && !blocked("limits") && !blocked("memory")
    && !blocked("spec") && !blocked("template") && !blocked("containers")
  }

  lemma {:induction false} LimitKept(blocked: string -> bool, containers: seq<Json>, scrubbed: seq<Json>)
    requires DeploymentKeys(blocked)
    requires |scrubbed| == |containers|
      && forall i :: 0 <= i < |containers| ==> scrubbed[i] == Scrubbed(blocked, containers[i])
    ensures LimitIn(scrubbed) == LimitIn(containers)
  {
    if containers != [] {
      ContainerKept(blocked, containers[0]);
      LimitKept(blocked, containers[1..], scrubbed[1..]);
    }
  }

  lemma {:induction false} DeploymentKept(blocked: string -> bool, deployment: Json)
    requires DeploymentKeys(blocked) && DeploymentDecodes(deployment)
    ensures DeploymentMemoryLimit(Scrubbed(blocked, deployment)) == DeploymentMemoryLimit(deployment)
  {
    var s := Scrubbed(blocked, deployment);
    ReadKept(blocked, deployment, ["spec", "template", "spec"]);
    ReadKept(blocked, deployment, CONTAINERS);
    KindKept(blocked, At(deployment, CONTAINERS));
    var containers, containers' := Items(At(deployment, CONTAINERS)), Items(At(s, CONTAINERS));
    forall i | 0 <= i < |containers| ensures ContainerDecodes(containers'[i]) { ContainerKept(blocked, containers[i]); }
    LimitKept(blocked, containers, containers');
  }

  lemma {:induction false} ServiceKept(blocked: string -> bool, service: Json)
    requires !blocked("spec") && !blocked("selector") && !blocked("app") && ServiceDecodes(service)
    ensures PaymentsServiceSelector(Scrubbed(blocked, service)) == PaymentsServiceSelector(service)
  {
    ReadKept(blocked, service, ["spec"]);
    ReadKept(blocked, service, ["spec", "selector"]);
    ReadKept(blocked, service, ["spec", "selector", "app"]);
    TextMapKept(blocked, At(service, ["spec", "selector"]));
  }

  ghost predicate SliceKeys(blocked: string -> bool) {
    && !blocked("items") && !blocked("metadata") && !blocked("labels") && !blocked("kubernetes.io/service-name")
    && !blocked("endpoints") && !blocked("addresses")
  }

  lemma {:induction false} EndpointKept(blocked: string -> bool, endpoint: Json)
    requires !blocked("addresses")
    ensures EndpointDecodes(Scrubbed(blocked, endpoint)) <==> EndpointDecodes(endpoint)
    ensures |Items(Field(Scrubbed(blocked, endpoint), "addresses"))| == |Items(Field(endpoint, "addresses"))|
  {
    KindKept(blocked, endpoint);
    FieldKept(blocked, endpoint, "addresses");
    KindKept(blocked, Field(endpoint, "addresses"));
    var items, items' := Items(Field(endpoint, "addresses")), Items(Field(Scrubbed(blocked, endpoint), "addresses"));
    forall i | 0 <= i < |items| ensures TextOrNull(items'[i]) <==> TextOrNull(items[i]) { KindKept(blocked, items[i]); }
  }

  lemma {:induction false} SliceKept(blocked: string -> bool, slice: Json)
    requires SliceKeys(blocked)
    ensures SliceDecodes(slice) ==> SliceDecodes(Scrubbed(blocked, slice))
    ensures EmptySlice(Scrubbed(blocked, slice)) <==> EmptySlice(slice)
  {
    var s := Scrubbed(blocked, slice);
    ReadKept(blocked, slice, ["metadata"]);
    ReadKept(blocked, slice, ["metadata", "labels"]);
    ReadKept(blocked, slice, ["metadata", "labels", "kubernetes.io/service-name"]);
    if TextMap(At(slice, ["metadata", "labels"])) { TextMapKept(blocked, At(slice, ["metadata", "labels"])); }
    FieldKept(blocked, slice, "endpoints");
    KindKept(blocked, Field(slice, "endpoints"));
    var items, items' := Items(Field(slice, "endpoints")), Items(Field(s, "endpoints"));
    forall i | 0 <= i < |items|
      ensures EndpointDecodes(items'[i]) <==> EndpointDecodes(items[i])
      ensures |Items(Field(items'[i], "addresses"))| == |Items(Field(items[i], "addresses"))|
    {
      EndpointKept(blocked, items[i]);
    }
  }

  lemma {:induction false} SlicesKept(blocked: string -> bool, slices: Json)
    requires SliceKeys(blocked) && SlicesDecode(slices)
    ensures PaymentEndpointSlicesAreEmpty(Scrubbed(blocked, slices)) <==> PaymentEndpointSlicesAreEmpty(slices)
  {
    KindKept(blocked, slices);
    FieldKept(blocked, slices, "items");
    KindKept(blocked, Field(slices, "items"));
    var items, items' := Items(Field(slices, "items")), Items(Field(Scrubbed(blocked, slices), "items"));
    forall i | 0 <= i < |items|
      ensures SliceDecodes(items'[i]) && (EmptySlice(items'[i]) <==> EmptySlice(items[i]))
    {
      SliceKept(blocked, items[i]);
    }
  }

  // The length and the first letter tell the blocked keys from all the others below.
  predicate BlockedShape(n: nat, first: char) {
    || (first == 'a' && n == 11) || (first == 'm' && n == 13) || (first == 'e' && (n == 3 || n == 7))
    || (first == 's' && (n == 10 || n == 12)) || (first == 'i' && n == 16) || (first == 'v' && (n == 7 || n == 12))
    || (first == 'd' && n == 4) || (first == 't' && n == 5) || (first == 'p' && n == 8)
  }

  lemma NotBlocked(key: string)
    requires key != "" && !BlockedShape(|key|, key[0])
    ensures !Blocked(key)
  {
  }

  lemma PodKeysAreFree()
    ensures PodKeys(Blocked)
  {
    NotBlocked("name"); NotBlocked("lastState"); NotBlocked("state"); NotBlocked("terminated"); NotBlocked("reason");
    NotBlocked("status"); NotBlocked("containerStatuses"); NotBlocked("items");
  }

  lemma DeploymentKeysAreFree()
    ensures DeploymentKeys(Blocked)
  {
    NotBlocked("name"); NotBlocked("resources"); NotBlocked("limits"); NotBlocked("memory");
    NotBlocked("spec"); NotBlocked("template"); NotBlocked("containers");
  }

  lemma ServiceKeysAreFree()
    ensures !Blocked("spec") && !Blocked("selector") && !Blocked("app")
  {
    NotBlocked("spec"); NotBlocked("selector"); NotBlocked("app");
  }

  lemma SliceKeysAreFree()
    ensures SliceKeys(Blocked)
  {
    NotBlocked("items"); NotBlocked("metadata"); NotBlocked("labels"); NotBlocked("kubernetes.io/service-name");
    NotBlocked("endpoints"); NotBlocked("addresses");
  }

  // What the verifiers read survives scrubbing, wherever the object decodes at all.
  lemma {:induction false} ScrubbingKeepsTheAnswers(j: Json)
    ensures PodsShowOOM(Scrubbed(Blocked, j)) <==> PodsShowOOM(j)
    ensures DeploymentDecodes(j) ==> DeploymentMemoryLimit(Scrubbed(Blocked, j)) == DeploymentMemoryLimit(j)
    ensures ServiceDecodes(j) ==> PaymentsServiceSelector(Scrubbed(Blocked, j)) == PaymentsServiceSelector(j)
    ensures SlicesDecode(j) ==>
      (PaymentEndpointSlicesAreEmpty(Scrubbed(Blocked, j)) <==> PaymentEndpointSlicesAreEmpty(j))
  {
    assert PodsShowOOM(Scrubbed(Blocked, j)) <==> PodsShowOOM(j) by { PodKeysAreFree(); PodsKept(Blocked, j); }
    if DeploymentDecodes(j) { DeploymentKeysAreFree(); DeploymentKept(Blocked, j); }
    if ServiceDecodes(j) { ServiceKeysAreFree(); ServiceKept(Blocked, j); }
    if SlicesDecode(j) { SliceKeysAreFree(); SlicesKept(Blocked, j); }
  }
}

/** What the payload readers read: which types they ask for, and which paths they follow. */
module Reading {
  import opened Wrappers
  import opened Payloads
  import opened Cleaning

  // A declared type; null and absence fit every type.
  datatype Schema = AnyText | TextTable | Struct(fields: seq<(string, Schema)>) | Slice(item: Schema)

  predicate Conforms(s: Schema, j: Json)
    decreases s
  {
    match s
    case AnyText => TextOrNull(j)
    case TextTable => j.Null? || (j.Object? && forall key :: key in j.fields ==> TextOrNull(j.fields[key]))
    case Struct(fields) =>
      ObjectOrNull(j) && forall i :: 0 <= i < |fields| ==> Conforms(fields[i].1, Field(j, fields[i].0))
    case Slice(item) => ListOrNull(j) && forall i :: 0 <= i < |Items(j)| ==> Conforms(item, Items(j)[i])
  }

  function One(key: string, s: Schema): Schema { Struct([(key, s)]) }

  lemma {:induction false} OneIff(key: string, s: Schema, j: Json)
    ensures Conforms(One(key, s), j) <==> ObjectOrNull(j) && Conforms(s, Field(j, key))
  {
    var fields := [(key, s)];
    assert fields[0] == (key, s);
  }

  lemma {:induction false} SliceIff(s: Schema, j: Json)
    ensures Conforms(Slice(s), j) <==> ListOrNull(j) && forall i :: 0 <= i < |Items(j)| ==> Conforms(s, Items(j)[i])
  {
  }

  // --- pods

  const STATE := One("terminated", One("reason", AnyText))
  const STATUS := Struct([("name", AnyText), ("lastState", STATE), ("state", STATE)])
  const POD := One("status", One("containerStatuses", Slice(STATUS)))
  const PODS := One("items", Slice(POD))

  lemma {:induction false} StateIff(status: Json, key: string)
    ensures Conforms(STATE, Field(status, key)) && ObjectOrNull(status) <==>
      ObjectsAlong(status, [key, "terminated"]) && TextOrNull(At(status, [key, "terminated", "reason"]))
  {
    var state := Field(status, key);
    OneIff("terminated", One("reason", AnyText), state);
    OneIff("reason", AnyText, Field(state, "terminated"));
    assert [key, "terminated"][1..] == ["terminated"] && ["terminated"][1..] == [];
    assert [key, "terminated", "reason"][1..] == ["terminated", "reason"];
    assert ["terminated", "reason"][1..] == ["reason"] && ["reason"][1..] == [];
    assert ObjectsAlong(state, ["terminated"]) <==> ObjectOrNull(state) && ObjectsAlong(Field(state, "terminated"), []);
    assert At(state, ["terminated", "reason"]) == At(Field(state, "terminated"), ["reason"]);
    assert At(Field(state, "terminated"), ["reason"]) == At(Field(Field(state, "terminated"), "reason"), []);
  }

  lemma {:induction false} StatusIff(status: Json)
    ensures StatusDecodes(status) <==> Conforms(STATUS, status)
  {
    StateIff(status, "lastState");
    StateIff(status, "state");
    var fields := STATUS.fields;
    assert fields[0] == ("name", AnyText) && fields[1] == ("lastState", STATE) && fields[2] == ("state", STATE);
  }

  lemma {:induction false} AlongOne(j: Json, key: string)
    ensures ObjectsAlong(j, [key]) <==> ObjectOrNull(j) && ObjectOrNull(Field(j, key))
    ensures At(j, [key]) == Field(j, key)
  {
    assert [key][1..] == [];
  }

  lemma {:induction false} AlongMore(j: Json, key: string, path: seq<string>)
    ensures ObjectsAlong(j, [key] + path) <==> ObjectOrNull(j) && ObjectsAlong(Field(j, key), path)
    ensures At(j, [key] + path) == At(Field(j, key), path)
  {
    assert ([key] + path)[1..] == path;
  }

  lemma {:induction false} PodIff(pod: Json)
    ensures PodDecodes(pod) <==> Conforms(POD, pod)
  {
    var list := Field(Field(pod, "status"), "containerStatuses");
    AlongOne(pod, "status");
    AlongMore(pod, "status", ["containerStatuses"]);
    AlongOne(Field(pod, "status"), "containerStatuses");
    assert At(pod, ["status", "containerStatuses"]) == list;
    OneIff("status", One("containerStatuses", Slice(STATUS)), pod);
    OneIff("containerStatuses", Slice(STATUS), Field(pod, "status"));
    SliceIff(STATUS, list);
    forall i | 0 <= i < |Items(list)| ensures StatusDecodes(Items(list)[i]) <==> Conforms(STATUS, Items(list)[i]) {
      StatusIff(Items(list)[i]);
    }
    assert Statuses(pod) == Items(list);
  }

  // The pods that decode are those of the declared type.
  lemma {:induction false} PodsDecodeIff(pods: Json)
    ensures PodsDecode(pods) <==> Conforms(PODS, pods)
  {
    var items := Items(Field(pods, "items"));
    OneIff("items", Slice(POD), pods);
    SliceIff(POD, Field(pods, "items"));
    forall i | 0 <= i < |items| ensures PodDecodes(items[i]) <==> Conforms(POD, items[i]) { PodIff(items[i]); }
  }

  // --- paths

  lemma {:induction false} FollowKey(j: Json, key: string, path: seq<Step>)
    ensures Follow(j, [Key(key)] + path) == if j.Object? && key in j.fields then Follow(j.fields[key], path) else None
  {
    assert ([Key(key)] + path)[1..] == path;
  }

  lemma {:induction false} FollowIndex(j: Json, i: nat, path: seq<Step>)
    ensures Follow(j, [Index(i)] + path) == if i < |Items(j)| then Follow(Items(j)[i], path) else None
  {
    assert ([Index(i)] + path)[1..] == path;
  }

  // A text that is not empty is read along a path exactly when the path leads to it.
  lemma {:induction false} TextAlong(j: Json, keys: seq<string>, path: seq<Step>, text: string)
    requires text != "" && |path| == |keys| && forall i :: 0 <= i < |keys| ==> path[i] == Key(keys[i])
    ensures TextOf(At(j, keys)) == text <==> Follow(j, path) == Some(Text(text))
    decreases |keys|
  {
    if keys != [] {
      TextAlong(Field(j, keys[0]), keys[1..], path[1..], text);
      assert path == [Key(keys[0])] + path[1..];
      FollowKey(j, keys[0], path[1..]);
      if !(j.Object? && keys[0] in j.fields) { NothingInNull(keys[1..]); }
    }
  }

  lemma {:induction false} NothingInNull(keys: seq<string>)
    ensures At(Null, keys) == Null
    decreases |keys|
  {
    if keys != [] { NothingInNull(keys[1..]); }
  }

  // A missing field leads nowhere, like null.
  lemma {:induction false} FollowField(j: Json, key: string, path: seq<Step>)
    requires path != []
    ensures Follow(j, [Key(key)] + path) == Follow(Field(j, key), path)
  {
    FollowKey(j, key, path);
  }

  // The j-th container status of the i-th pod.
  function ToStatus(i: nat, j: nat, rest: seq<Step>): seq<Step> {
    [Key("items")] + ([Index(i)] + ([Key("status")] + ([Key("containerStatuses")] + ([Index(j)] + rest))))
  }

  lemma {:induction false} FollowToStatus(pods: Json, i: nat, j: nat, rest: seq<Step>)
    ensures var items := Items(Field(pods, "items"));
      Follow(pods, ToStatus(i, j, rest)) ==
        if i < |items| && j < |Statuses(items[i])| then Follow(Statuses(items[i])[j], rest) else None
  {
    var items := Items(Field(pods, "items"));
    var toIndex := [Index(j)] + rest;
    var toList := [Key("containerStatuses")] + toIndex;
    FollowField(pods, "items", [Index(i)] + ([Key("status")] + toList));
    FollowIndex(Field(pods, "items"), i, [Key("status")] + toList);
    if i < |items| {
      var pod := items[i];
      FollowField(pod, "status", toList);
      FollowField(Field(pod, "status"), "containerStatuses", toIndex);
      AlongMore(pod, "status", ["containerStatuses"]);
      AlongOne(Field(pod, "status"), "containerStatuses");
      FollowIndex(Field(Field(pod, "status"), "containerStatuses"), j, rest);
    }
  }

  // That status is of the payments container, and says that it was killed for its memory: now, or the
  // last time.
  ghost predicate KilledAt(pods: Json, i: nat, j: nat) {
    && Follow(pods, ToStatus(i, j, [Key("name")])) == Some(Text("payments-api"))
    && (Follow(pods, ToStatus(i, j, [Key("lastState"), Key("terminated"), Key("reason")])) == Some(Text("OOMKilled"))
        || Follow(pods, ToStatus(i, j, [Key("state"), Key("terminated"), Key("reason")])) == Some(Text("OOMKilled")))
  }

  lemma {:induction false} KilledIff(status: Json)
    ensures StatusShowsOOM(status) <==>
      && Follow(status, [Key("name")]) == Some(Text("payments-api"))
      && (Follow(status, [Key("lastState"), Key("terminated"), Key("reason")]) == Some(Text("OOMKilled"))
          || Follow(status, [Key("state"), Key("terminated"), Key("reason")]) == Some(Text("OOMKilled")))
  {
    AlongOne(status, "name");
    TextAlong(status, ["name"], [Key("name")], "payments-api");
    TextAlong(status, ["lastState", "terminated", "reason"], [Key("lastState"), Key("terminated"), Key("reason")],
      "OOMKilled");
    TextAlong(status, ["state", "terminated", "reason"], [Key("state"), Key("terminated"), Key("reason")],
      "OOMKilled");
  }

  lemma {:induction false} KilledAtIff(pods: Json, i: nat, j: nat)
    ensures var items := Items(Field(pods, "items"));
      KilledAt(pods, i, j) <==> i < |items| && j < |Statuses(items[i])| && StatusShowsOOM(Statuses(items[i])[j])
  {
    var items := Items(Field(pods, "items"));
    FollowToStatus(pods, i, j, [Key("name")]);
    FollowToStatus(pods, i, j, [Key("lastState"), Key("terminated"), Key("reason")]);
    FollowToStatus(pods, i, j, [Key("state"), Key("terminated"), Key("reason")]);
    if i < |items| && j < |Statuses(items[i])| { KilledIff(Statuses(items[i])[j]); }
  }

  // What the OOM evidence is: an object of the declared type with such a status somewhere.
  lemma {:induction false} PodsShowOOMIff(pods: Json)
    ensures PodsShowOOM(pods) <==> Conforms(PODS, pods) && exists i: nat, j: nat :: KilledAt(pods, i, j)
  {
    PodsDecodeIff(pods);
    var items := Items(Field(pods, "items"));
    forall i: nat, j: nat ensures KilledAt(pods, i, j) <==>
      i < |items| && j < |Statuses(items[i])| && StatusShowsOOM(Statuses(items[i])[j])
    {
      KilledAtIff(pods, i, j);
    }
    if PodsShowOOM(pods) {
      var i :| 0 <= i < |items| && PodShowsOOM(items[i]);
      var j :| 0 <= j < |Statuses(items[i])| && StatusShowsOOM(Statuses(items[i])[j]);
      assert KilledAt(pods, i, j);
    }
  }

  // --- the Deployment's limit

  const CONTAINER := Struct([("name", AnyText), ("resources", One("limits", TextTable))])
  const DEPLOYMENT := One("spec", One("template", One("spec", One("containers", Slice(CONTAINER)))))

  lemma {:induction false} ContainerIff(container: Json)
    ensures ContainerDecodes(container) <==> Conforms(CONTAINER, container)
  {
    var fields := CONTAINER.fields;
    assert fields[0] == ("name", AnyText) && fields[1] == ("resources", One("limits", TextTable));
    AlongOne(container, "resources");
    AlongMore(container, "resources", ["limits"]);
    AlongOne(Field(container, "resources"), "limits");
    assert At(container, ["resources", "limits"]) == Field(Field(container, "resources"), "limits");
    OneIff("limits", TextTable, Field(container, "resources"));
  }

  lemma {:induction false} AlongContainers(j: Json)
    ensures var spec := Field(j, "spec"); var template := Field(spec, "template"); var pod := Field(template, "spec");
      && At(j, CONTAINERS) == Field(pod, "containers")
      && (ObjectsAlong(j, ["spec", "template", "spec"]) <==>
            ObjectOrNull(j) && ObjectOrNull(spec) && ObjectOrNull(template) && ObjectOrNull(pod))
  {
    var spec := Field(j, "spec");
    var template := Field(spec, "template");
    AlongMore(j, "spec", ["template", "spec"]);
    assert ["spec"] + ["template", "spec"] == ["spec", "template", "spec"];
    AlongMore(spec, "template", ["spec"]);
    assert ["template"] + ["spec"] == ["template", "spec"];
    AlongOne(template, "spec");
    AlongMore(j, "spec", ["template", "spec", "containers"]);
    assert ["spec"] + ["template", "spec", "containers"] == CONTAINERS;
    AlongMore(spec, "template", ["spec", "containers"]);
    assert ["template"] + ["spec", "containers"] == ["template", "spec", "containers"];
    AlongMore(template, "spec", ["containers"]);
    assert ["spec"] + ["containers"] == ["spec", "containers"];
    AlongOne(Field(template, "spec"), "containers");
  }

  lemma {:induction false} DeploymentDecodesIff(j: Json)
    ensures DeploymentDecodes(j) <==> Conforms(DEPLOYMENT, j)
  {
    AlongContainers(j);
    var spec := Field(j, "spec");
    var template := Field(spec, "template");
    var list := Field(Field(template, "spec"), "containers");
    OneIff("spec", One("template", One("spec", One("containers", Slice(CONTAINER)))), j);
    OneIff("template", One("spec", One("containers", Slice(CONTAINER))), spec);
    OneIff("spec", One("containers", Slice(CONTAINER)), template);
    OneIff("containers", Slice(CONTAINER), Field(template, "spec"));
    SliceIff(CONTAINER, list);
    forall i | 0 <= i < |Items(list)|
      ensures ContainerDecodes(Items(list)[i]) <==> Conforms(CONTAINER, Items(list)[i])
    {
      ContainerIff(Items(list)[i]);
    }
  }

  function ToContainer(i: nat, rest: seq<Step>): seq<Step> {
    [Key("spec")] + ([Key("template")] + ([Key("spec")] + ([Key("containers")] + ([Index(i)] + rest))))
  }

  lemma {:induction false} FollowToContainer(j: Json, i: nat, rest: seq<Step>)
    ensures var containers := Items(At(j, CONTAINERS));
      Follow(j, ToContainer(i, rest)) == if i < |containers| then Follow(containers[i], rest) else None
  {
    AlongContainers(j);
    var spec := Field(j, "spec");
    var template := Field(spec, "template");
    var toIndex := [Index(i)] + rest;
    var toList := [Key("containers")] + toIndex;
    FollowField(j, "spec", [Key("template")] + ([Key("spec")] + toList));
    FollowField(spec, "template", [Key("spec")] + toList);
    FollowField(template, "spec", toList);
    FollowField(Field(template, "spec"), "containers", toIndex);
    FollowIndex(Field(Field(template, "spec"), "containers"), i, rest);
  }

  ghost predicate NamedAt(j: Json, i: nat) {
    Follow(j, ToContainer(i, [Key("name")])) == Some(Text("payments-api"))
  }

  // The i-th container is the first with the name.
  ghost predicate FirstNamed(j: Json, i: nat) { NamedAt(j, i) && forall k: nat :: k < i ==> !NamedAt(j, k) }

  lemma {:induction false} NamedAtIff(j: Json, i: nat)
    ensures var containers := Items(At(j, CONTAINERS));
      NamedAt(j, i) <==> i < |containers| && TextOf(Field(containers[i], "name")) == "payments-api"
  {
    var containers := Items(At(j, CONTAINERS));
    FollowToContainer(j, i, [Key("name")]);
    if i < |containers| {
      AlongOne(containers[i], "name");
      TextAlong(containers[i], ["name"], [Key("name")], "payments-api");
    }
  }

  lemma {:induction false} LimitInIs(containers: seq<Json>, i: nat)
    requires i < |containers| && TextOf(Field(containers[i], "name")) == "payments-api"
    requires forall k :: 0 <= k < i ==> TextOf(Field(containers[k], "name")) != "payments-api"
    ensures LimitIn(containers) == Some(TextOf(At(containers[i], ["resources", "limits", "memory"])))
  {
    if i > 0 {
      var rest := containers[1..];
      assert forall k :: 0 <= k < |rest| ==> rest[k] == containers[k + 1];
      LimitInIs(rest, i - 1);
    }
  }

  // The limit is what the first container with the name declares; an empty text stands for none.
  lemma {:induction false} LimitIs(j: Json, i: nat, limit: string)
    requires limit != "" && FirstNamed(j, i)
    ensures DeploymentMemoryLimit(j) == limit <==>
      && Conforms(DEPLOYMENT, j)
      && Follow(j, ToContainer(i, [Key("resources"), Key("limits"), Key("memory")])) == Some(Text(limit))
  {
    var containers := Items(At(j, CONTAINERS));
    DeploymentDecodesIff(j);
    NamedAtIff(j, i);
    forall k: nat | k < i ensures TextOf(Field(containers[k], "name")) != "payments-api" { NamedAtIff(j, k); }
    LimitInIs(containers, i);
    FollowToContainer(j, i, [Key("resources"), Key("limits"), Key("memory")]);
    TextAlong(containers[i], ["resources", "limits", "memory"], [Key("resources"), Key("limits"), Key("memory")],
      limit);
  }

  lemma {:induction false} NoneNamed(containers: seq<Json>)
    requires forall k :: 0 <= k < |containers| ==> TextOf(Field(containers[k], "name")) != "payments-api"
    ensures LimitIn(containers).None?
  {
    if containers != [] { NoneNamed(containers[1..]); }
  }

  // Without such a container there is no limit.
  lemma {:induction false} NoLimitWithoutContainer(j: Json)
    requires forall i: nat :: !NamedAt(j, i)
    ensures DeploymentMemoryLimit(j) == "" && ContainerLimit(j).None?
  {
    var containers := Items(At(j, CONTAINERS));
    forall k: nat | k < |containers| ensures TextOf(Field(containers[k], "name")) != "payments-api" {
      NamedAtIff(j, k);
    }
    NoneNamed(containers);
  }

  // --- the Service and its endpoint slices

  const SERVICE := One("spec", One("selector", TextTable))
  const ENDPOINT := One("addresses", Slice(AnyText))
  const ENDPOINT_SLICE := Struct([("metadata", One("labels", TextTable)), ("endpoints", Slice(ENDPOINT))])
  const ENDPOINT_SLICES := One("items", Slice(ENDPOINT_SLICE))

  // The selector's application label.
  lemma {:induction false} SelectorIs(service: Json, text: string)
    requires text != ""
    ensures PaymentsServiceSelector(service) == text <==>
      Conforms(SERVICE, service) && Follow(service, [Key("spec"), Key("selector"), Key("app")]) == Some(Text(text))
  {
    AlongOne(service, "spec");
    AlongMore(service, "spec", ["selector"]);
    AlongOne(Field(service, "spec"), "selector");
    assert At(service, ["spec", "selector"]) == Field(Field(service, "spec"), "selector");
    OneIff("spec", One("selector", TextTable), service);
    OneIff("selector", TextTable, Field(service, "spec"));
    TextAlong(service, ["spec", "selector", "app"], [Key("spec"), Key("selector"), Key("app")], text);
  }

  lemma {:induction false} EndpointIff(endpoint: Json)
    ensures EndpointDecodes(endpoint) <==> Conforms(ENDPOINT, endpoint)
  {
    OneIff("addresses", Slice(AnyText), endpoint);
    SliceIff(AnyText, Field(endpoint, "addresses"));
  }

  lemma {:induction false} EndpointsIff(list: Json)
    ensures Conforms(Slice(ENDPOINT), list) <==>
      ListOrNull(list) && forall i :: 0 <= i < |Items(list)| ==> EndpointDecodes(Items(list)[i])
  {
    SliceIff(ENDPOINT, list);
    forall i | 0 <= i < |Items(list)| ensures EndpointDecodes(Items(list)[i]) <==> Conforms(ENDPOINT, Items(list)[i]) {
      EndpointIff(Items(list)[i]);
    }
  }

  lemma {:induction false} EndpointSliceIff(slice: Json)
    ensures SliceDecodes(slice) <==> Conforms(ENDPOINT_SLICE, slice)
  {
    var fields := ENDPOINT_SLICE.fields;
    assert fields[0] == ("metadata", One("labels", TextTable)) && fields[1] == ("endpoints", Slice(ENDPOINT));
    AlongOne(slice, "metadata");
    AlongMore(slice, "metadata", ["labels"]);
    AlongOne(Field(slice, "metadata"), "labels");
    assert At(slice, ["metadata", "labels"]) == Field(Field(slice, "metadata"), "labels");
    OneIff("labels", TextTable, Field(slice, "metadata"));
    EndpointsIff(Field(slice, "endpoints"));
  }

  lemma {:induction false} SlicesDecodeIff(slices: Json)
    ensures SlicesDecode(slices) <==> Conforms(ENDPOINT_SLICES, slices)
  {
    var items := Items(Field(slices, "items"));
    OneIff("items", Slice(ENDPOINT_SLICE), slices);
    SliceIff(ENDPOINT_SLICE, Field(slices, "items"));
    forall i | 0 <= i < |items| ensures SliceDecodes(items[i]) <==> Conforms(ENDPOINT_SLICE, items[i]) {
      EndpointSliceIff(items[i]);
    }
  }

  function ToSlice(i: nat, rest: seq<Step>): seq<Step> { [Key("items")] + ([Index(i)] + rest) }

  function ToAddress(i: nat, e: nat, a: nat): seq<Step> {
    ToSlice(i, [Key("endpoints")] + ([Index(e)] + ([Key("addresses")] + ([Index(a)] + []))))
  }

  lemma {:induction false} FollowToSlice(slices: Json, i: nat, rest: seq<Step>)
    ensures var items := Items(Field(slices, "items"));
      Follow(slices, ToSlice(i, rest)) == if i < |items| then Follow(items[i], rest) else None
  {
    FollowField(slices, "items", [Index(i)] + rest);
    FollowIndex(Field(slices, "items"), i, rest);
  }

  lemma {:induction false} FollowToAddress(slice: Json, e: nat, a: nat)
    ensures var endpoints := Items(Field(slice, "endpoints"));
      Follow(slice, [Key("endpoints")] + ([Index(e)] + ([Key("addresses")] + ([Index(a)] + [])))).Some? <==>
        e < |endpoints| && a < |Items(Field(endpoints[e], "addresses"))|
  {
    var endpoints := Items(Field(slice, "endpoints"));
    var rest := [Key("addresses")] + ([Index(a)] + []);
    FollowField(slice, "endpoints", [Index(e)] + rest);
    FollowIndex(Field(slice, "endpoints"), e, rest);
    if e < |endpoints| {
      FollowField(endpoints[e], "addresses", [Index(a)] + []);
      FollowIndex(Field(endpoints[e], "addresses"), a, []);
    }
  }

  // The slice is of the payments service, and none of its endpoints has an address.
  ghost predicate EmptyAt(slices: Json, i: nat) {
    && Follow(slices, ToSlice(i, [Key("metadata"), Key("labels"), Key("kubernetes.io/service-name")]))
         == Some(Text("payments-api"))
    && forall e: nat, a: nat :: Follow(slices, ToAddress(i, e, a)).None?
  }

  lemma {:induction false} EmptySliceIff(slices: Json, i: nat)
    requires i < |Items(Field(slices, "items"))|
    ensures EmptyAt(slices, i) <==> EmptySlice(Items(Field(slices, "items"))[i])
  {
    var slice := Items(Field(slices, "items"))[i];
    var endpoints := Items(Field(slice, "endpoints"));
    FollowToSlice(slices, i, [Key("metadata"), Key("labels"), Key("kubernetes.io/service-name")]);
    TextAlong(slice, ["metadata", "labels", "kubernetes.io/service-name"],
      [Key("metadata"), Key("labels"), Key("kubernetes.io/service-name")], "payments-api");
    forall e: nat, a: nat
      ensures Follow(slices, ToAddress(i, e, a)).Some? <==>
        e < |endpoints| && a < |Items(Field(endpoints[e], "addresses"))|
    {
      FollowToSlice(slices, i, [Key("endpoints")] + ([Index(e)] + ([Key("addresses")] + ([Index(a)] + []))));
      FollowToAddress(slice, e, a);
    }
    if EmptyAt(slices, i) {
      forall e: nat | e < |endpoints| ensures Items(Field(endpoints[e], "addresses")) == [] {
        assert Follow(slices, ToAddress(i, e, 0)).None?;
      }
    }
  }

  // What empty endpoint slices are: at least one, and all of them the payments service's and empty.
  lemma {:induction false} SlicesAreEmptyIff(slices: Json)
    ensures PaymentEndpointSlicesAreEmpty(slices) <==>
      && Conforms(ENDPOINT_SLICES, slices) && Follow(slices, ToSlice(0, [])).Some?
      && forall i: nat :: Follow(slices, ToSlice(i, [])).Some? ==> EmptyAt(slices, i)
  {
    SlicesDecodeIff(slices);
    var items := Items(Field(slices, "items"));
    forall i: nat ensures Follow(slices, ToSlice(i, [])).Some? <==> i < |items| { FollowToSlice(slices, i, []); }
    forall i: nat | i < |items| ensures EmptyAt(slices, i) <==> EmptySlice(items[i]) { EmptySliceIff(slices, i); }
  }
}

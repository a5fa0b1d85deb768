/** Cleaning of decoded JSON: removal of blocked keys, and redaction of credentials. */
module Cleaning {
  import opened Wrappers
  import opened Payloads

  // The keys that the backend drops from every Kubernetes object.
  predicate Blocked(key: string) {
    || key == "annotations" || key == "managedFields" || key == "env" || key == "envFrom"
    || key == "secretKeyRef" || key == "imagePullSecrets" || key == "volumes" || key == "volumeMounts"
    || key == "data" || key == "stringData" || key == "token" || key == "password"
  }

  function Scrubbed(blocked: string -> bool, j: Json): Json
    decreases j
  {
    match j
    case Object(fields) => Object(map key | key in fields && !blocked(key) :: Scrubbed(blocked, fields[key]))
    case List(items) => List(seq(|items|, i requires 0 <= i < |items| => Scrubbed(blocked, items[i])))
    case _ => j
  }

  method Scrub(j: Json) returns (r: Json)
    ensures r == Scrubbed(Blocked, j)
    decreases j
  {
    match j
    case Object(fields) =>
      var out: map<string, Json> := map[];
      var left := fields.Keys;
      while left != {}
        invariant left <= fields.Keys
        invariant out == map key | key in fields && key !in left && !Blocked(key) :: Scrubbed(Blocked, fields[key])
        decreases left
      {
        var key :| key in left;
        left := left - {key};
        if Blocked(key) { continue; }
        var child := Scrub(fields[key]);
        out := out[key := child];
      }
      return Object(out);
    case List(items) =>
      var value := items;
      for i := 0 to |items|
        invariant |value| == |items|
        invariant forall k :: 0 <= k < i ==> value[k] == Scrubbed(Blocked, items[k])
        invariant forall k :: i <= k < |items| ==> value[k] == items[k]
      {
        var child := Scrub(value[i]);
        value := value[i := child];
      }
      return List(value);
    case _ => return j;
  }

  // No blocked key at any depth.
  predicate Clean(blocked: string -> bool, j: Json)
    decreases j
  {
    match j
    case Object(fields) => forall key :: key in fields ==> !blocked(key) && Clean(blocked, fields[key])
    case List(items) => forall i :: 0 <= i < |items| ==> Clean(blocked, items[i])
    case _ => true
  }

  lemma {:induction false} ScrubbedIsClean(blocked: string -> bool, j: Json)
    ensures Clean(blocked, Scrubbed(blocked, j))
    decreases j
  {
    match j
    case Object(fields) =>
      forall key | key in fields && !blocked(key) ensures Clean(blocked, Scrubbed(blocked, fields[key])) {
        ScrubbedIsClean(blocked, fields[key]);
      }
    case List(items) =>
      forall i | 0 <= i < |items| ensures Clean(blocked, Scrubbed(blocked, items[i])) {
        ScrubbedIsClean(blocked, items[i]);
      }
    case _ =>
  }

  lemma {:induction false} CleanIsFixed(blocked: string -> bool, j: Json)
    requires Clean(blocked, j)
    ensures Scrubbed(blocked, j) == j
    decreases j
  {
    match j
    case Object(fields) =>
      forall key | key in fields ensures Scrubbed(blocked, fields[key]) == fields[key] {
        CleanIsFixed(blocked, fields[key]);
      }
      assert Scrubbed(blocked, j).fields == fields;
    case List(items) =>
      forall i | 0 <= i < |items| ensures Scrubbed(blocked, items[i]) == items[i] { CleanIsFixed(blocked, items[i]); }
      assert Scrubbed(blocked, j).items == items;
    case _ =>
  }

  // Scrubbing changes exactly what is not clean, so scrubbing again changes nothing.
  lemma {:induction false} ScrubChangesExactlyTheUnclean(blocked: string -> bool, j: Json)
    ensures Scrubbed(blocked, j) == j <==> Clean(blocked, j)
    ensures Scrubbed(blocked, Scrubbed(blocked, j)) == Scrubbed(blocked, j)
  {
    ScrubbedIsClean(blocked, j);
    CleanIsFixed(blocked, Scrubbed(blocked, j));
    if Clean(blocked, j) { CleanIsFixed(blocked, j); }
  }

  datatype Step = Key(key: string) | Index(i: nat)

  function Follow(j: Json, path: seq<Step>): Option<Json>
    decreases |path|
  {
    if path == [] then Some(j)
    else match path[0]
      case Key(key) => if j.Object? && key in j.fields then Follow(j.fields[key], path[1..]) else None
      case Index(i) => if j.List? && i < |j.items| then Follow(j.items[i], path[1..]) else None
  }

  predicate Free(blocked: string -> bool, path: seq<Step>) {
    forall i :: 0 <= i < |path| ==> path[i].Index? || !blocked(path[i].key)
  }

  // A path leads somewhere after scrubbing exactly when it did before and uses no blocked key, and it
  // leads to the same, scrubbed.
  lemma {:induction false} PathsThroughScrub(blocked: string -> bool, j: Json, path: seq<Step>)
    ensures Follow(Scrubbed(blocked, j), path) ==
      if Free(blocked, path) && Follow(j, path).Some? then Some(Scrubbed(blocked, Follow(j, path).value)) else None
    decreases |path|
  {
    if path != [] {
      assert Free(blocked, path) <==> (path[0].Index? || !blocked(path[0].key)) && Free(blocked, path[1..]) by {
        assert forall i :: 0 < i < |path| ==> path[i] == path[1..][i - 1];
        assert forall i :: 0 <= i < |path| - 1 ==> path[1..][i] == path[i + 1];
      }
      match path[0]
      case Key(key) => if j.Object? && key in j.fields { PathsThroughScrub(blocked, j.fields[key], path[1..]); }
      case Index(i) => if j.List? && i < |j.items| { PathsThroughScrub(blocked, j.items[i], path[1..]); }
    }
  }

  const DROPPED: set<string> := {
    "annotations", "managedFields", "env", "envFrom", "secretKeyRef", "imagePullSecrets", "volumes", "volumeMounts",
    "data", "stringData", "token", "password"
  }

  // What the backend hands out of an object: everything behind paths that name none of these keys, and
  // nothing behind one that does.
  lemma {:induction false} DroppedPaths(j: Json, path: seq<Step>)
    ensures Follow(Scrubbed(Blocked, j), path).Some? <==>
      Follow(j, path).Some? && forall i :: 0 <= i < |path| && path[i].Key? ==> path[i].key !in DROPPED
  {
    PathsThroughScrub(Blocked, j, path);
  }

  // --- the readers of the payloads

  lemma {:induction false} KindKept(blocked: string -> bool, j: Json)
    ensures var s := Scrubbed(blocked, j);
      && (ObjectOrNull(s) <==> ObjectOrNull(j)) && (ListOrNull(s) <==> ListOrNull(j))
        && (TextOrNull(s) <==> TextOrNull(j))
      && TextOf(s) == TextOf(j)
      && |Items(s)| == |Items(j)| && forall i :: 0 <= i < |Items(j)| ==> Items(s)[i] == Scrubbed(blocked, Items(j)[i])
  {
  }

  lemma {:induction false} AtKept(blocked: string -> bool, j: Json, path: seq<string>)
    requires forall i :: 0 <= i < |path| ==> !blocked(path[i])
    ensures At(Scrubbed(blocked, j), path) == Scrubbed(blocked, At(j, path))
    ensures ObjectsAlong(Scrubbed(blocked, j), path) <==> ObjectsAlong(j, path)
    decreases |path|
  {
    KindKept(blocked, j);
    if path != [] {
      AtKept(blocked, Field(j, path[0]), path[1..]);
      assert Field(Scrubbed(blocked, j), path[0]) == Scrubbed(blocked, Field(j, path[0]));
    }
  }

  // A field or path that is not blocked, read as a text, an object or a list.
  lemma {:induction false} ReadKept(blocked: string -> bool, j: Json, path: seq<string>)
    requires forall i :: 0 <= i < |path| ==> !blocked(path[i])
    ensures var s := Scrubbed(blocked, j);
      && At(s, path) == Scrubbed(blocked, At(j, path)) && (ObjectsAlong(s, path) <==> ObjectsAlong(j, path))
      && TextOf(At(s, path)) == TextOf(At(j, path)) && (TextOrNull(At(s, path)) <==> TextOrNull(At(j, path)))
  {
    AtKept(blocked, j, path);
    KindKept(blocked, At(j, path));
  }

  lemma {:induction false} FieldKept(blocked: string -> bool, j: Json, key: string)
    requires !blocked(key)
    ensures Field(Scrubbed(blocked, j), key) == Scrubbed(blocked, Field(j, key))
  {
  }
}

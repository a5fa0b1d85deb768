/** Redaction of credentials in a payload; the rewriting of one text is an argument. */
module Redaction {
  import opened Wrappers
  import opened Payloads
  import opened Strings
  import opened Cleaning

  const MARK := "<redacted>"

  predicate Sensitive(key: string) {
    var k := Lower(key);
    k == "password" || k == "token" || k == "authorization" || k == "secret" || k == "secretkeyref" || k == "stringdata"
  }

  function Redacted(sensitive: string -> bool, rewrite: string -> string, j: Json): Json
    decreases j
  {
    match j
    case Object(fields) =>
      Object(map key | key in fields ::
        if sensitive(key) then Text(MARK) else Redacted(sensitive, rewrite, fields[key]))
    case List(items) => List(seq(|items|, i requires 0 <= i < |items| => Redacted(sensitive, rewrite, items[i])))
    case Text(s) => Text(rewrite(s))
    case _ => j
  }

  method RedactValue(rewrite: string -> string, j: Json) returns (r: Json)
    ensures r == Redacted(Sensitive, rewrite, j)
    decreases j
  {
    match j
    case Object(fields) =>
      var out: map<string, Json> := map[];
      var left := fields.Keys;
      while left != {}
        invariant left <= fields.Keys
        invariant out == map key | key in fields && key !in left ::
                           if Sensitive(key) then Text(MARK) else Redacted(Sensitive, rewrite, fields[key])
        decreases left
      {
        var key :| key in left;
        left := left - {key};
        if Sensitive(key) {
          out := out[key := Text(MARK)];
          continue;
        }
        var child := RedactValue(rewrite, fields[key]);
        out := out[key := child];
      }
      return Object(out);
    case List(items) =>
      var value := items;
      for i := 0 to |items|
        invariant |value| == |items|
        invariant forall k :: 0 <= k < i ==> value[k] == Redacted(Sensitive, rewrite, items[k])
        invariant forall k :: i <= k < |items| ==> value[k] == items[k]
      {
        var child := RedactValue(rewrite, value[i]);
        value := value[i := child];
      }
      return List(value);
    case Text(s) => return Text(rewrite(s));
    case _ => return j;
  }

  // Every sensitive field holds the mark, and no other text would still be rewritten.
  predicate Safe(sensitive: string -> bool, rewrite: string -> string, j: Json)
    decreases j
  {
    match j
    case Object(fields) =>
      forall key :: key in fields ==>
        if sensitive(key) then fields[key] == Text(MARK) else Safe(sensitive, rewrite, fields[key])
    case List(items) => forall i :: 0 <= i < |items| ==> Safe(sensitive, rewrite, items[i])
    case Text(s) => rewrite(s) == s
    case _ => true
  }

  lemma {:induction false} RedactedIsSafe(sensitive: string -> bool, rewrite: string -> string, j: Json)
    requires forall s :: rewrite(rewrite(s)) == rewrite(s)
    ensures Safe(sensitive, rewrite, Redacted(sensitive, rewrite, j))
    decreases j
  {
    match j
    case Object(fields) =>
      forall key | key in fields && !sensitive(key)
        ensures Safe(sensitive, rewrite, Redacted(sensitive, rewrite, fields[key]))
      {
        RedactedIsSafe(sensitive, rewrite, fields[key]);
      }
    case List(items) =>
      forall i | 0 <= i < |items| ensures Safe(sensitive, rewrite, Redacted(sensitive, rewrite, items[i])) {
        RedactedIsSafe(sensitive, rewrite, items[i]);
      }
    case _ =>
  }

  lemma {:induction false} SafeIffFixed(sensitive: string -> bool, rewrite: string -> string, j: Json)
    ensures Safe(sensitive, rewrite, j) <==> Redacted(sensitive, rewrite, j) == j
    decreases j
  {
    var r := Redacted(sensitive, rewrite, j);
    match j
    case Object(fields) =>
      forall key | key in fields && !sensitive(key)
        ensures Safe(sensitive, rewrite, fields[key]) <==> Redacted(sensitive, rewrite, fields[key]) == fields[key]
      {
        SafeIffFixed(sensitive, rewrite, fields[key]);
      }
      assert r == j <==> forall key :: key in fields ==> r.fields[key] == fields[key];
    case List(items) =>
      forall i | 0 <= i < |items|
        ensures Safe(sensitive, rewrite, items[i]) <==> Redacted(sensitive, rewrite, items[i]) == items[i]
      {
        SafeIffFixed(sensitive, rewrite, items[i]);
      }
      assert r == j <==> forall i :: 0 <= i < |items| ==> r.items[i] == items[i];
    case _ =>
  }

  // Redacting a redacted payload changes nothing, given a rewriting of which that is true.
  lemma {:induction false} RedactionIsIdempotent(sensitive: string -> bool, rewrite: string -> string, j: Json)
    requires forall s :: rewrite(rewrite(s)) == rewrite(s)
    ensures var r := Redacted(sensitive, rewrite, j);
      Safe(sensitive, rewrite, r) && Redacted(sensitive, rewrite, r) == r
  {
    RedactedIsSafe(sensitive, rewrite, j);
    SafeIffFixed(sensitive, rewrite, Redacted(sensitive, rewrite, j));
  }

  // The shape stays: every path that passes no sensitive key leads where it did, to the same value
  // redacted.
  lemma {:induction false} PathsThroughRedaction(
    sensitive: string -> bool, rewrite: string -> string, j: Json, path: seq<Step>)
    requires Free(sensitive, path)
    ensures Follow(Redacted(sensitive, rewrite, j), path) ==
      if Follow(j, path).None? then None else Some(Redacted(sensitive, rewrite, Follow(j, path).value))
    decreases |path|
  {
    if path != [] {
      match path[0]
      case Key(key) =>
        if j.Object? && key in j.fields { PathsThroughRedaction(sensitive, rewrite, j.fields[key], path[1..]); }
      case Index(i) => if j.List? && i < |j.items| { PathsThroughRedaction(sensitive, rewrite, j.items[i], path[1..]); }
    }
  }

  // What stood under a sensitive key is gone, whatever it was.
  lemma {:induction false} SensitiveFieldsAreMarked(
    sensitive: string -> bool, rewrite: string -> string, j: Json, path: seq<Step>, key: string)
    requires Free(sensitive, path) && sensitive(key) && Follow(j, path).Some?
    requires var parent := Follow(j, path).value; parent.Object? && key in parent.fields
    ensures Follow(Redacted(sensitive, rewrite, j), path + [Key(key)]) == Some(Text(MARK))
  {
    PathsThroughRedaction(sensitive, rewrite, j, path);
    FollowAppend(Redacted(sensitive, rewrite, j), path, Key(key));
  }

  // Credentials are found by these names in any case of the letters: behind one of them stands the
  // mark, and behind paths without them everything stays but for the rewriting of its texts.
  lemma {:induction false} CredentialsAreMarked(rewrite: string -> string, j: Json, path: seq<Step>, key: string)
    requires forall i :: 0 <= i < |path| && path[i].Key? ==> Lower(path[i].key) !in NAMES
    ensures Follow(Redacted(Sensitive, rewrite, j), path).Some? <==> Follow(j, path).Some?
    ensures Lower(key) in NAMES && Follow(j, path + [Key(key)]).Some? ==>
      Follow(Redacted(Sensitive, rewrite, j), path + [Key(key)]) == Some(Text("<redacted>"))
    ensures Follow(j, path).Some? && Follow(j, path).value.Text? ==>
      Follow(Redacted(Sensitive, rewrite, j), path) == Some(Text(rewrite(Follow(j, path).value.s)))
  {
    PathsThroughRedaction(Sensitive, rewrite, j, path);
    FollowAppend(j, path, Key(key));
    if Lower(key) in NAMES && Follow(j, path + [Key(key)]).Some? {
      SensitiveFieldsAreMarked(Sensitive, rewrite, j, path, key);
    }
  }

  const NAMES: set<string> := {"password", "token", "authorization", "secret", "secretkeyref", "stringdata"}

  lemma {:induction false} FollowAppend(j: Json, path: seq<Step>, last: Step)
    ensures Follow(j, path + [last]) == if Follow(j, path).None? then None else Follow(Follow(j, path).value, [last])
    decreases |path|
  {
    if path == [] {
      assert path + [last] == [last];
    } else {
      assert (path + [last])[1..] == path[1..] + [last];
      match path[0]
      case Key(key) => if j.Object? && key in j.fields { FollowAppend(j.fields[key], path[1..], last); }
      case Index(i) => if j.List? && i < |j.items| { FollowAppend(j.items[i], path[1..], last); }
    }
  }
}

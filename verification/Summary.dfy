/** The one-line summary that is stored with a record, as it is printed from the payload. */
module Summaries {
  import opened Payloads
  import opened Records

  // What the library makes of a value: the text of a number, and a deployment's age at the end of the
  // incident, in whole seconds and not below zero.
  datatype Printer = Printer(number: int -> string, ageSeconds: Json -> nat)

  const MAX_SUMMARY := 512

  // The longest whole-second duration the library can hold; any longer one is printed as its maximum.
  const MAX_AGE := 9223372036

  function Digit(d: nat): char
    requires d < 10
  {
    ("0123456789")[d]
  }

  // A count in decimal digits.
  function Decimal(n: nat): (text: string)
    ensures text != ""
  {
    if n < 10 then [Digit(n)] else Decimal(n / 10) + [Digit(n % 10)]
  }

  // Hours, minutes and seconds, without leading zero units.
  function Duration(seconds: nat): string {
    var h, m, s := seconds / 3600, seconds / 60 % 60, seconds % 60;
    (if h > 0 then Decimal(h) + "h" else "") + (if h > 0 || m > 0 then Decimal(m) + "m" else "") + Decimal(s) + "s"
  }

  function Age(seconds: nat): string {
    if seconds <= MAX_AGE then Duration(seconds) else "2562047h47m16.854775807s"
  }

  function Short(revision: string): string { if |revision| > 12 then revision[..12] else revision }

  // A value behind object keys; Null when a step is no object.
  function Nested(j: Json, path: seq<string>): Json
    decreases |path|
  {
    if path == [] then j else Nested(Field(j, path[0]), path[1..])
  }

  function NumberText(p: Printer, j: Json): string {
    match j
    case Null => "0"
    case Number(n) => p.number(n)
    case _ => "unknown"
  }

  // The elements of the inner arrays, over all elements of a list.
  function CountInner(items: seq<Json>, key: string): nat {
    if items == [] then 0 else CountInner(items[..|items| - 1], key) + |Items(Field(items[|items| - 1], key))|
  }

  function CountAddresses(slices: seq<Json>): nat {
    if slices == [] then 0
    else
      var last := slices[|slices| - 1];
      CountAddresses(slices[..|slices| - 1]) + CountInner(Items(Field(last, "endpoints")), "addresses")
  }

  function Keys(j: Json): nat { if j.Object? then |j.fields| else 0 }

  // The counts a summary prints.
  function Counts(tool: Tool, payload: Json): (nat, nat) {
    var items, result := Items(Field(payload, "items")), Items(Field(payload, "result"));
    match tool
    case GetService => (Keys(Nested(payload, ["spec", "selector"])), 0)
    case GetEndpointSlices => (|items|, CountAddresses(items))
    case GetPods => (|items|, 0)
    case GetEvents => (|items|, 0)
    case MetricRange => (|result|, CountInner(result, "values"))
    case SearchLogs => (|result|, CountInner(result, "values"))
    case SearchTraces => (|Items(Field(payload, "traces"))|, 0)
    case GetTrace => (|Items(Field(payload, "batches"))|, 0)
    case GitHubDiff => (|Items(Field(payload, "files"))|, 0)
    case _ => (0, 0)
  }

  function HistorySummary(p: Printer, payload: Json): string {
    var items := Items(Field(payload, "deployments"));
    if items == [] then "No Argo CD deployments found near the incident window"
    else
      "Latest nearby Argo CD deployment revision " + Short(TextOf(Field(items[0], "revision")))
      + " was " + Age(p.ageSeconds(items[0])) + " before the incident window ended"
  }

  function DeploymentSummary(p: Printer, payload: Json): string {
    "Deployment replicas: desired " + NumberText(p, Nested(payload, ["spec", "replicas"]))
    + ", available " + NumberText(p, Nested(payload, ["status", "availableReplicas"]))
  }

  function ApplicationSummary(payload: Json): string {
    "Argo CD application sync=" + TextOf(Field(payload, "sync_status"))
    + " health=" + TextOf(Field(payload, "health_status"))
    + " revision=" + Short(TextOf(Field(payload, "current_revision")))
  }

  function CommitSummary(payload: Json): string {
    "GitHub commit " + Short(TextOf(Field(payload, "sha"))) + " at " + TextOf(Field(payload, "committed_at"))
  }

  function Pair(first: string, a: nat, second: string, b: nat): string { first + Decimal(a) + second + Decimal(b) }

  function Single(first: string, a: nat, second: string): string { first + Decimal(a) + second }

  function Summary(p: Printer, tool: Tool, payload: Json): string {
    if !ObjectOrNull(payload) then "Structured result could not be summarized"
    else
      var (a, b) := Counts(tool, payload);
      match tool
      case GetDeployment => DeploymentSummary(p, payload)
      case GetOrdersConfig => "Allowlisted orders-config order_mode returned"
      case GetService => Single("Service selector has ", a, " labels")
      case GetEndpointSlices => Pair("EndpointSlices: ", a, ", addresses: ", b)
      case GetPods => Single("", a, " workload pods returned")
      case GetEvents => Single("", a, " workload events returned")
      case GetPodLogs => "20 bounded lines returned from observed CrashLoopBackOff pod"
      case MetricRange => Pair("Metric series: ", a, ", samples: ", b)
      case SearchLogs => Pair("Log streams: ", a, ", entries: ", b)
      case SearchTraces => Single("Traces found: ", a, "")
      case GetTrace => Single("Trace batches: ", a, "")
      case ArgoApplication => ApplicationSummary(payload)
      case ArgoHistory => HistorySummary(p, payload)
      case GitHubCommit => CommitSummary(payload)
      case GitHubDiff =>
        "GitHub commit " + Short(TextOf(Field(payload, "sha"))) + " changed " + Decimal(a) + " files"
      case OtherTool(_) => "Structured observation collected"
  }

  // --- lengths

  function Power(k: nat): nat { if k == 0 then 1 else 10 * Power(k - 1) }

  lemma {:induction false} DecimalIsShort(n: nat, k: nat)
    requires k > 0 && n < Power(k)
    ensures |Decimal(n)| <= k
  {
    if n >= 10 {
      assert Power(k) == 10 * Power(k - 1);
      assert Power(0) == 1 && k > 1;
      DecimalIsShort(n / 10, k - 1);
    }
  }

  lemma {:induction false} PowersOfTen()
    ensures Power(6) == 1_000_000 && Power(7) == 10_000_000 && Power(2) == 100
  {
    assert Power(1) == 10 * Power(0) && Power(2) == 10 * Power(1) && Power(3) == 10 * Power(2);
    assert Power(4) == 10 * Power(3) && Power(5) == 10 * Power(4) && Power(6) == 10 * Power(5)
      && Power(7) == 10 * Power(6);
  }

  lemma {:induction false} CountIsShort(n: nat)
    requires n <= 262144
    ensures |Decimal(n)| <= 6
  {
    PowersOfTen();
    DecimalIsShort(n, 6);
  }

  lemma {:induction false} AgeIsShort(seconds: nat)
    ensures |Age(seconds)| <= 24
  {
    if seconds <= MAX_AGE {
      PowersOfTen();
      DecimalIsShort(seconds / 3600, 7);
      DecimalIsShort(seconds / 60 % 60, 2);
      DecimalIsShort(seconds % 60, 2);
    }
  }

  // The tools whose summary copies texts or numbers of the payload as they are.
  predicate Copies(tool: Tool) { tool.GetDeployment? || tool.ArgoApplication? || tool.GitHubCommit? }

  function ShortLength(revision: string): nat { if |revision| > 12 then 12 else |revision| }

  // The length of such a summary, from the payload.
  function CopiedLength(p: Printer, tool: Tool, payload: Json): nat {
    match tool
    case GetDeployment =>
      41 + |NumberText(p, Nested(payload, ["spec", "replicas"]))|
      + |NumberText(p, Nested(payload, ["status", "availableReplicas"]))|
    case ArgoApplication =>
      43 + |TextOf(Field(payload, "sync_status"))| + |TextOf(Field(payload, "health_status"))|
      + ShortLength(TextOf(Field(payload, "current_revision")))
    case GitHubCommit =>
      18 + ShortLength(TextOf(Field(payload, "sha"))) + |TextOf(Field(payload, "committed_at"))|
    case _ => 0
  }

  // The payloads that make a summary too long to be stored.
  predicate TooLong(p: Printer, tool: Tool, payload: Json) {
    Copies(tool) && ObjectOrNull(payload) && CopiedLength(p, tool, payload) > MAX_SUMMARY
  }

  lemma {:induction false} CopiedLengthIs(p: Printer, tool: Tool, payload: Json)
    requires Copies(tool) && ObjectOrNull(payload)
    ensures |Summary(p, tool, payload)| == CopiedLength(p, tool, payload)
  {
    if tool.GetDeployment? {
      assert |"Deployment replicas: desired "| + |", available "| == 41;
    } else if tool.ArgoApplication? {
      assert |"Argo CD application sync="| + |" health="| + |" revision="| == 43;
    } else {
      assert |"GitHub commit "| + |" at "| == 18;
    }
  }

  // No count is above the greatest length of a payload.
  predicate Bounded(tool: Tool, payload: Json) {
    Counts(tool, payload).0 <= 262144 && Counts(tool, payload).1 <= 262144
  }

  lemma {:induction false} PairIsShort(first: string, a: nat, second: string, b: nat)
    requires |first| <= 100 && |second| <= 100 && a <= 262144 && b <= 262144
    ensures |Pair(first, a, second, b)| <= MAX_SUMMARY
  {
    CountIsShort(a);
    CountIsShort(b);
  }

  lemma {:induction false} SingleIsShort(first: string, a: nat, second: string)
    requires |first| <= 100 && |second| <= 100 && a <= 262144
    ensures |Single(first, a, second)| <= MAX_SUMMARY
  {
    CountIsShort(a);
  }

  lemma {:induction false} HistoryIsShort(p: Printer, payload: Json)
    ensures |HistorySummary(p, payload)| <= MAX_SUMMARY
  {
    var items := Items(Field(payload, "deployments"));
    if items != [] { AgeIsShort(p.ageSeconds(items[0])); }
  }

  lemma {:induction false} CountedIsShort(p: Printer, tool: Tool, payload: Json)
    requires Bounded(tool, payload) && ObjectOrNull(payload)
    requires tool.GetService? || tool.GetEndpointSlices? || tool.GetPods? || tool.GetEvents? || tool.MetricRange?
    ensures |Summary(p, tool, payload)| <= MAX_SUMMARY
  {
    var (a, b) := Counts(tool, payload);
    match tool
    case GetService => SingleIsShort("Service selector has ", a, " labels");
    case GetEndpointSlices => PairIsShort("EndpointSlices: ", a, ", addresses: ", b);
    case GetPods => SingleIsShort("", a, " workload pods returned");
    case GetEvents => SingleIsShort("", a, " workload events returned");
    case MetricRange => PairIsShort("Metric series: ", a, ", samples: ", b);
  }

  lemma {:induction false} FoundIsShort(p: Printer, tool: Tool, payload: Json)
    requires Bounded(tool, payload) && ObjectOrNull(payload)
    requires tool.SearchLogs? || tool.SearchTraces? || tool.GetTrace? || tool.GitHubDiff?
    ensures |Summary(p, tool, payload)| <= MAX_SUMMARY
  {
    var (a, b) := Counts(tool, payload);
    match tool
    case SearchLogs => PairIsShort("Log streams: ", a, ", entries: ", b);
    case SearchTraces => SingleIsShort("Traces found: ", a, "");
    case GetTrace => SingleIsShort("Trace batches: ", a, "");
    case GitHubDiff => CountIsShort(a);
  }

  // A summary is too long to be stored exactly for the payloads described: of the other tools no
  // payload makes one.
  lemma {:induction false} SummaryIsTooLongIff(p: Printer, tool: Tool, payload: Json)
    requires Bounded(tool, payload)
    ensures |Summary(p, tool, payload)| > MAX_SUMMARY <==> TooLong(p, tool, payload)
  {
    if !ObjectOrNull(payload) {
      assert |"Structured result could not be summarized"| <= MAX_SUMMARY;
    } else if Copies(tool) {
      CopiedLengthIs(p, tool, payload);
    } else if tool.ArgoHistory? {
      HistoryIsShort(p, payload);
    } else if tool.SearchLogs? || tool.SearchTraces? || tool.GetTrace? || tool.GitHubDiff? {
      FoundIsShort(p, tool, payload);
    } else if tool.GetOrdersConfig? || tool.GetPodLogs? || tool.OtherTool? {
      FixedIsShort(p, tool, payload);
    } else {
      CountedIsShort(p, tool, payload);
    }
  }

  lemma {:induction false} FixedIsShort(p: Printer, tool: Tool, payload: Json)
    requires ObjectOrNull(payload) && (tool.GetOrdersConfig? || tool.GetPodLogs? || tool.OtherTool?)
    ensures |Summary(p, tool, payload)| <= MAX_SUMMARY
  {
  }

  // An application whose sync status is this text alone.
  function StatusOnly(status: string): Json { Object(map["sync_status" := Text(status)]) }

  lemma {:induction false} LongStatusIsTooLong(p: Printer, status: string)
    ensures TooLong(p, ArgoApplication, StatusOnly(status)) <==> |status| > 469
  {
    var payload := StatusOnly(status);
    assert Field(payload, "sync_status") == Text(status);
    assert Field(payload, "health_status") == Null && Field(payload, "current_revision") == Null;
  }

  // --- what the copying summaries say

  // The texts and numbers of the payload stand where the words announce them.
  lemma {:induction false} DeploymentSays(p: Printer, payload: Json, desired: int, available: int)
    requires payload.Object? && Nested(payload, ["spec", "replicas"]) == Number(desired)
    requires Nested(payload, ["status", "availableReplicas"]) == Number(available)
    ensures Summary(p, GetDeployment, payload)
      == "Deployment replicas: desired " + p.number(desired) + ", available " + p.number(available)
  {
  }

  lemma {:induction false} ApplicationSays(p: Printer, payload: Json, sync: string, health: string, revision: string)
    requires payload.Object? && Field(payload, "sync_status") == Text(sync) && |revision| == 12
    requires Field(payload, "health_status") == Text(health)
    requires Field(payload, "current_revision").Text? && revision <= Field(payload, "current_revision").s
    ensures Summary(p, ArgoApplication, payload)
      == "Argo CD application sync=" + sync + " health=" + health + " revision=" + revision
  {
    assert Short(TextOf(Field(payload, "current_revision"))) == revision;
  }

  lemma {:induction false} CommitSays(p: Printer, payload: Json, sha: string, at: string)
    requires payload.Object? && |sha| == 12 && Field(payload, "sha").Text? && sha <= Field(payload, "sha").s
    requires Field(payload, "committed_at") == Text(at)
    ensures Summary(p, GitHubCommit, payload) == "GitHub commit " + sha + " at " + at
  {
    assert Short(TextOf(Field(payload, "sha"))) == sha;
  }
}

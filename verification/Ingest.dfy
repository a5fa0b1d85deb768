/** Alert ingestion: decoding a webhook, the upsert as a merge, and delivery at least once. */
module Ingest {
  import opened Wrappers

  // Times are nanoseconds; the zero time is None.
  datatype Alert = Alert(
    fingerprint: string, status: string, labels: map<string, string>, startsAt: Option<int>, endsAt: Option<int>)

  datatype Webhook = Webhook(version: string, truncated: int, alerts: seq<Alert>)

  datatype Patterns = Patterns(fingerprint: string -> bool, name: string -> bool, dnsLabel: string -> bool)

  datatype Status = Detected | Resolved

  datatype Labels = Labels(alertName: string, namespace: string, service: string, severity: string)

  // The trace columns of one delivery; the empty text is no value.
  datatype Trace = Trace(id: string, parent: string, state: string)

  const NO_TRACE := Trace("", "", "")

  datatype Signal = Signal(
    fingerprint: string, labels: Labels, startedAt: int, resolvedAt: Option<int>, status: Status, trace: Trace)

  const MAX_ALERTS := 50

  // --- decoding

  function Label(labels: map<string, string>, key: string): string { if key in labels then labels[key] else "" }

  function LabelsOf(alert: Alert): Labels {
    Labels(Label(alert.labels, "alertname"), Label(alert.labels, "namespace"),
           Label(alert.labels, "service"), Label(alert.labels, "severity"))
  }

  predicate Identified(p: Patterns, alert: Alert) {
    var labels := LabelsOf(alert);
    && p.fingerprint(alert.fingerprint)
    && |labels.alertName| <= 128 && p.name(labels.alertName)
    && |labels.namespace| <= 63 && p.dnsLabel(labels.namespace)
    && |labels.service| <= 63 && p.dnsLabel(labels.service)
    && (labels.severity == "warning" || labels.severity == "critical")
    && alert.startsAt.Some?
  }

  // The text under a label; a missing one reads as the empty text.
  ghost predicate Carries(labels: map<string, string>, key: string, text: string) {
    if key in labels then labels[key] == text else text == ""
  }

  predicate Fits(labels: map<string, string>, key: string, most: nat, pattern: string -> bool) {
    if key in labels then |labels[key]| <= most && pattern(labels[key]) else pattern("")
  }

  // The four labels pass, and the times go with the status.
  ghost predicate Accepted(p: Patterns, alert: Alert) {
    && p.fingerprint(alert.fingerprint) && alert.startsAt.Some?
    && Fits(alert.labels, "alertname", 128, p.name) && Fits(alert.labels, "namespace", 63, p.dnsLabel)
    && Fits(alert.labels, "service", 63, p.dnsLabel)
    && (Carries(alert.labels, "severity", "warning") || Carries(alert.labels, "severity", "critical"))
    && (alert.status == "firing"
        || (alert.status == "resolved" && alert.endsAt.Some? && alert.startsAt.value <= alert.endsAt.value))
  }

  lemma {:induction false} AcceptedIff(p: Patterns, alert: Alert)
    ensures Accepted(p, alert) <==>
      && Identified(p, alert)
      && (alert.status == "firing"
          || (alert.status == "resolved" && alert.endsAt.Some? && alert.startsAt.value <= alert.endsAt.value))
  {
  }

  ghost predicate Reads(alert: Alert, s: Signal) {
    && s.fingerprint == alert.fingerprint
    && Carries(alert.labels, "alertname", s.labels.alertName)
    && Carries(alert.labels, "namespace", s.labels.namespace)
    && Carries(alert.labels, "service", s.labels.service)
    && Carries(alert.labels, "severity", s.labels.severity)
    && alert.startsAt == Some(s.startedAt)
    && (s.status == Resolved <==> alert.status == "resolved")
    && s.resolvedAt == (if s.status == Resolved then alert.endsAt else None)
  }

  predicate Validated(s: Signal) {
    && (s.status == Resolved <==> s.resolvedAt.Some?)
    && (s.resolvedAt.Some? ==> s.startedAt <= s.resolvedAt.value)
  }

  ghost predicate DecodesTo(p: Patterns, alert: Alert, s: Signal) {
    Accepted(p, alert) && Reads(alert, s) && Validated(s)
  }

  lemma {:induction false} DecodedIsAccepted(p: Patterns, alert: Alert, s: Signal)
    requires DecodesTo(p, alert, s)
    ensures Accepted(p, alert)
  {
  }

  method DecodeAlert(p: Patterns, alert: Alert) returns (r: Result<Signal>)
    ensures r.Ok? <==> Accepted(p, alert)
    ensures r.Ok? ==> DecodesTo(p, alert, r.value)
  {
    AcceptedIff(p, alert);
    if !Identified(p, alert) { return Err("invalid Alertmanager alert identity or labels"); }
    var signal := Signal(alert.fingerprint, LabelsOf(alert), alert.startsAt.value, None, Detected, NO_TRACE);
    if alert.status == "resolved" {
      if alert.endsAt.None? || alert.endsAt.value < alert.startsAt.value {
        return Err("resolved alert needs a valid end time");
      }
      signal := signal.(resolvedAt := alert.endsAt, status := Resolved);
    } else if alert.status != "firing" {
      return Err("invalid Alertmanager alert status");
    }
    return Ok(signal);
  }

  // All alerts or none: one bad alert rejects the whole webhook.
  method DecodeWebhook(p: Patterns, w: Webhook) returns (r: Result<seq<Signal>>)
    ensures r.Ok? <==>
      && w.version == "4" && w.truncated == 0 && 1 <= |w.alerts| <= 50
      && forall i :: 0 <= i < |w.alerts| ==> Accepted(p, w.alerts[i])
    ensures r.Ok? ==>
      && |r.value| == |w.alerts|
      && forall i :: 0 <= i < |r.value| ==> DecodesTo(p, w.alerts[i], r.value[i])
  {
    if w.version != "4" || w.truncated != 0 || |w.alerts| == 0 || |w.alerts| > MAX_ALERTS {
      return Err("unsupported Alertmanager payload version or alert count");
    }
    var signals: seq<Signal> := [];
    for i := 0 to |w.alerts|
      invariant |signals| == i
      invariant forall k :: 0 <= k < i ==> DecodesTo(p, w.alerts[k], signals[k])
    {
      var decoded := DecodeAlert(p, w.alerts[i]);
      if decoded.Err? { return Err(decoded.error); }
      signals := signals + [decoded.value];
    }
    forall i | 0 <= i < |w.alerts| ensures Accepted(p, w.alerts[i]) { DecodedIsAccepted(p, w.alerts[i], signals[i]); }
    return Ok(signals);
  }

  // --- the table

  datatype Key = Key(fingerprint: string, startedAt: int)

  datatype Traces = Traces(id: Option<string>, parent: Option<string>, state: Option<string>)

  const NO_TRACES := Traces(None, None, None)

  datatype Row = Row(labels: Labels, resolvedAt: Option<int>, status: Status, traces: Traces)

  type Table = map<Key, Row>

  // Stored times are in microseconds.
  function Micros(t: int): (r: int)
    ensures 1000 * r <= t < 1000 * (r + 1)
  {
    t / 1000
  }

  function KeyOf(s: Signal): Key { Key(s.fingerprint, Micros(s.startedAt)) }

  // Signals are about one row exactly when they have one fingerprint and started in one microsecond.
  lemma {:induction false} OneRowIff(s: Signal, s': Signal)
    ensures KeyOf(s) == KeyOf(s') <==>
      s.fingerprint == s'.fingerprint
        && exists m: int :: 1000 * m <= s.startedAt < 1000 * (m + 1) && 1000 * m <= s'.startedAt < 1000 * (m + 1)
  {
    var m := Micros(s.startedAt);
    if KeyOf(s) == KeyOf(s') {
      assert 1000 * m <= s.startedAt < 1000 * (m + 1) && 1000 * m <= s'.startedAt < 1000 * (m + 1);
    }
  }

  function RowOf(s: Signal): Row {
    Row(s.labels,
        if s.status == Resolved && s.resolvedAt.Some? then Some(Micros(s.resolvedAt.value)) else None,
        s.status,
        Traces(NullIf(s.trace.id), NullIf(s.trace.parent), NullIf(s.trace.state)))
  }

  function NullIf(text: string): Option<string> { if text == "" then None else Some(text) }

  function Coalesce<T>(a: Option<T>, b: Option<T>): Option<T> { if a.Some? then a else b }

  // ON CONFLICT (fingerprint, started_at) DO UPDATE.
  function Merged(row: Row, excluded: Row): Row {
    row.(status := if row.status == Resolved then Resolved else excluded.status,
         resolvedAt := Coalesce(row.resolvedAt, excluded.resolvedAt),
         traces := Traces(
           Coalesce(row.traces.id, excluded.traces.id),
           Coalesce(row.traces.parent, excluded.traces.parent),
           Coalesce(row.traces.state, excluded.traces.state)))
  }

  function Upserted(t: Table, s: Signal): Table {
    t[KeyOf(s) := if KeyOf(s) in t then Merged(t[KeyOf(s)], RowOf(s)) else RowOf(s)]
  }

  function Delivery(t: Table, signals: seq<Signal>): Table {
    if signals == [] then t else Upserted(Delivery(t, signals[..|signals| - 1]), signals[|signals| - 1])
  }

  lemma {:induction false} DeliveredAppend(t: Table, a: seq<Signal>, b: seq<Signal>)
    ensures Delivery(t, a + b) == Delivery(Delivery(t, a), b)
  {
    if b == [] {
      assert a + b == a;
    } else {
      var n := |b| - 1;
      assert (a + b)[..|a| + n] == a + b[..n];
      DeliveredAppend(t, a, b[..n]);
    }
  }

  // The first upsert to fail is the k-th, and that many have taken effect.
  ghost predicate BreaksAt(faults: nat -> Fault, k: nat, done: nat) {
    !faults(k).Delivered? && (forall j :: 0 <= j < k ==> faults(j).Delivered?)
      && done == if faults(k).Lost? then k + 1 else k
  }

  class IncidentStore {
    var rows: Table

    constructor ()
      ensures rows == map[]
    {
      rows := map[];
    }

    method Upsert(s: Signal, fault: Fault) returns (ok: bool)
      modifies this
      ensures rows == if fault.Refused? then old(rows) else Upserted(old(rows), s)
      ensures ok <==> fault.Delivered?
    {
      if !fault.Refused? {
        var key := KeyOf(s);
        if key in rows {
          var row := rows[key];
          if row.status != Resolved { row := row.(status := s.status); }
          if row.resolvedAt.None? { row := row.(resolvedAt := RowOf(s).resolvedAt); }
          if row.traces.id.None? { row := row.(traces := row.traces.(id := NullIf(s.trace.id))); }
          if row.traces.parent.None? { row := row.(traces := row.traces.(parent := NullIf(s.trace.parent))); }
          if row.traces.state.None? { row := row.(traces := row.traces.(state := NullIf(s.trace.state))); }
          rows := rows[key := row];
        } else {
          rows := rows[key := RowOf(s)];
        }
      }
      return fault.Delivered?;
    }

    // One delivery of a batch, which stops at the first failing upsert: some prefix takes effect, the
    // whole batch when the answer is yes.
    method Ingest(batch: seq<Signal>, trace: Trace, faults: nat -> Fault) returns (ok: bool, ghost done: nat)
      modifies this
      ensures done <= |batch| && rows == Delivery(old(rows), Stamped(batch, trace)[..done])
      ensures ok ==> done == |batch|
      ensures ok <==> forall k :: 0 <= k < |batch| ==> faults(k).Delivered?
      ensures !ok ==> exists k :: 0 <= k < |batch| && BreaksAt(faults, k, done)
    {
      done := 0;
      var stamped := Stamped(batch, trace);
      for i := 0 to |batch|
        invariant done == i && rows == Delivery(old(rows), stamped[..i])
        invariant forall k :: 0 <= k < i ==> faults(k).Delivered?
      {
        assert stamped[..i + 1][..i] == stamped[..i];
        var accepted := Upsert(batch[i].(trace := trace), faults(i));
        if !faults(i).Refused? { done := i + 1; }
        if !accepted {
          assert BreaksAt(faults, i, done);
          return false, done;
        }
      }
      return true, done;
    }
  }

  // The signals as one delivery sees them.
  function Stamped(batch: seq<Signal>, trace: Trace): (r: seq<Signal>)
    ensures |r| == |batch| && forall i :: 0 <= i < |r| ==> r[i] == batch[i].(trace := trace)
  {
    seq(|batch|, i requires 0 <= i < |batch| => batch[i].(trace := trace))
  }

  // --- delivery at least once

  // The rows without what belongs to one delivery only.
  function Core(t: Table): Table { map k <- t :: t[k].(traces := NO_TRACES) }

  function Bare(signals: seq<Signal>): seq<Signal> { Stamped(signals, NO_TRACE) }

  lemma {:induction false} CoreOfDelivered(t: Table, signals: seq<Signal>)
    ensures Core(Delivery(t, signals)) == Delivery(Core(t), Bare(signals))
  {
    if signals != [] {
      var n := |signals| - 1;
      CoreOfDelivered(t, signals[..n]);
      assert Bare(signals)[..n] == Bare(signals[..n]);
      var before := Delivery(t, signals[..n]);
      assert Core(Upserted(before, signals[n])) == Upserted(Core(before), Bare(signals)[n]);
    }
  }

  // The signal has nothing left to say to the table.
  ghost predicate Absorbs(t: Table, s: Signal) {
    KeyOf(s) in t && Upserted(t, s) == t
  }

  lemma AbsorbsItself(t: Table, s: Signal)
    requires s.trace == NO_TRACE
    ensures Absorbs(Upserted(t, s), s)
  {
  }

  lemma AbsorbsStill(t: Table, s: Signal, later: Signal)
    requires s.trace == NO_TRACE && later.trace == NO_TRACE && Validated(s) && Validated(later) && Absorbs(t, s)
    ensures Absorbs(Upserted(t, later), s)
  {
    var t' := Upserted(t, later);
    if KeyOf(later) == KeyOf(s) {
      assert Upserted(t, s)[KeyOf(s)] == t[KeyOf(s)];
      assert Upserted(t', s)[KeyOf(s)] == t'[KeyOf(s)];
    } else {
      assert t'[KeyOf(s)] == t[KeyOf(s)];
      assert Upserted(t, s)[KeyOf(s)] == t[KeyOf(s)];
    }
  }

  ghost predicate Plain(signals: seq<Signal>) {
    forall s :: s in signals ==> s.trace == NO_TRACE && Validated(s)
  }

  lemma {:induction false} DeliveredIsAbsorbed(t: Table, signals: seq<Signal>, s: Signal)
    requires Plain(signals) && s in signals
    ensures Absorbs(Delivery(t, signals), s)
  {
    var n := |signals| - 1;
    if signals[n] == s {
      AbsorbsItself(Delivery(t, signals[..n]), s);
    } else {
      assert s in signals[..n];
      DeliveredIsAbsorbed(t, signals[..n], s);
      AbsorbsStill(Delivery(t, signals[..n]), s, signals[n]);
    }
  }

  // Whatever was delivered before, in whatever order and however often it comes again, adds nothing.
  lemma {:induction false} RedeliveryAddsNothing(t: Table, first: seq<Signal>, again: seq<Signal>)
    requires Plain(first) && forall s :: s in again ==> s in first
    ensures Delivery(Delivery(t, first), again) == Delivery(t, first)
  {
    if again != [] {
      var n := |again| - 1;
      assert again[n] in again;
      RedeliveryAddsNothing(t, first, again[..n]);
      DeliveredIsAbsorbed(t, first, again[n]);
    }
  }

  // The log with every signal that already occurred removed.
  function FirstOccurrences(log: seq<Signal>): seq<Signal> {
    if log == [] then []
    else
      var n := |log| - 1;
      FirstOccurrences(log[..n]) + if log[n] in log[..n] then [] else [log[n]]
  }

  // Any log of deliveries is worth its first occurrences.
  lemma {:induction false} DuplicatesVanish(t: Table, log: seq<Signal>)
    requires Plain(log)
    ensures Delivery(t, log) == Delivery(t, FirstOccurrences(log))
  {
    if log != [] {
      var n := |log| - 1;
      DuplicatesVanish(t, log[..n]);
      if log[n] in log[..n] {
        DeliveredIsAbsorbed(t, log[..n], log[n]);
        assert FirstOccurrences(log) == FirstOccurrences(log[..n]);
      } else {
        DeliveredAppend(t, FirstOccurrences(log[..n]), [log[n]]);
      }
    }
  }

  // Deliveries of one batch, each of a prefix and with its own trace.
  datatype Attempt = Attempt(done: nat, trace: Trace)

  function Tried(t: Table, batch: seq<Signal>, attempts: seq<Attempt>): Table
    requires forall i :: 0 <= i < |attempts| ==> attempts[i].done <= |batch|
  {
    if attempts == [] then t
    else
      var n := |attempts| - 1;
      Delivery(Tried(t, batch, attempts[..n]), Stamped(batch, attempts[n].trace)[..attempts[n].done])
  }

  ghost predicate AllValidated(batch: seq<Signal>) { forall s :: s in batch ==> Validated(s) }

  lemma PlainBare(batch: seq<Signal>)
    requires AllValidated(batch)
    ensures Plain(Bare(batch))
  {
    forall s | s in Bare(batch) ensures s.trace == NO_TRACE && Validated(s) {
      var i :| 0 <= i < |batch| && Bare(batch)[i] == s;
      assert batch[i] in batch;
    }
  }

  lemma {:induction false} BareOfPart(batch: seq<Signal>, trace: Trace, done: nat)
    requires done <= |batch|
    ensures Bare(Stamped(batch, trace)[..done]) == Bare(batch)[..done]
  {
  }

  // A part of the batch before the whole of it adds nothing.
  lemma {:induction false} OneTry(t: Table, batch: seq<Signal>, done: nat)
    requires Plain(batch) && done <= |batch|
    ensures Delivery(Delivery(t, batch[..done]), batch) == Delivery(t, batch)
  {
    var head, rest := batch[..done], batch[done..];
    assert batch == head + rest;
    RedeliveryAddsNothing(t, head, head);
    DeliveredAppend(t, head, rest);
    DeliveredAppend(Delivery(t, head), head, rest);
  }

  lemma {:induction false} TriedThenDelivered(t: Table, batch: seq<Signal>, attempts: seq<Attempt>)
    requires AllValidated(batch) && forall i :: 0 <= i < |attempts| ==> attempts[i].done <= |batch|
    ensures Delivery(Core(Tried(t, batch, attempts)), Bare(batch)) == Delivery(Core(t), Bare(batch))
  {
    if attempts != [] {
      var n := |attempts| - 1;
      var before, done := Tried(t, batch, attempts[..n]), attempts[n].done;
      var part := Stamped(batch, attempts[n].trace)[..done];
      TriedThenDelivered(t, batch, attempts[..n]);
      CoreOfDelivered(before, part);
      BareOfPart(batch, attempts[n].trace, done);
      PlainBare(batch);
      OneTry(Core(before), Bare(batch), done);
    }
  }

  // However many deliveries of a batch broke off, and wherever, once it is delivered whole the rows
  // are those of one clean delivery.
  lemma {:induction false} AtLeastOnceConverges(t: Table, batch: seq<Signal>, attempts: seq<Attempt>, trace: Trace)
    requires AllValidated(batch) && forall i :: 0 <= i < |attempts| ==> attempts[i].done <= |batch|
    ensures Core(Delivery(Tried(t, batch, attempts), Stamped(batch, trace))) == Core(Delivery(t, batch))
  {
    CoreOfDelivered(Tried(t, batch, attempts), Stamped(batch, trace));
    CoreOfDelivered(t, batch);
    assert Bare(Stamped(batch, trace)) == Bare(batch);
    TriedThenDelivered(t, batch, attempts);
  }

  // --- every run

  ghost predicate RowOk(key: Key, row: Row) {
    && (row.status == Resolved <==> row.resolvedAt.Some?)
    && (row.resolvedAt.Some? ==> key.startedAt <= row.resolvedAt.value)
  }

  ghost predicate TableOk(t: Table) { forall k :: k in t ==> RowOk(k, t[k]) }

  // Of an old row nothing changes but that it may be resolved, once, and get the first value of each trace column.
  ghost predicate Evolves(row: Row, row': Row) {
    && row'.labels == row.labels
    && (row.status == Resolved ==> row'.status == Resolved && row'.resolvedAt == row.resolvedAt)
    && (row.traces.id.Some? ==> row'.traces.id == row.traces.id)
    && (row.traces.parent.Some? ==> row'.traces.parent == row.traces.parent)
    && (row.traces.state.Some? ==> row'.traces.state == row.traces.state)
  }

  lemma MicrosIsMonotone(a: int, b: int)
    requires a <= b
    ensures Micros(a) <= Micros(b)
  {
  }

  lemma {:induction false} RunsKeepRows(t: Table, signals: seq<Signal>)
    requires TableOk(t) && AllValidated(signals)
    ensures TableOk(Delivery(t, signals))
    ensures forall k :: k in t ==> k in Delivery(t, signals) && Evolves(t[k], Delivery(t, signals)[k])
    ensures forall k :: k in Delivery(t, signals) ==> k in t || exists s :: s in signals && k == KeyOf(s)
  {
    if signals != [] {
      var n := |signals| - 1;
      RunsKeepRows(t, signals[..n]);
      var s := signals[n];
      assert s in signals && Validated(s);
      if s.resolvedAt.Some? { MicrosIsMonotone(s.startedAt, s.resolvedAt.value); }
    }
  }

  // A row is resolved exactly when it was, or a resolved signal for it came.
  lemma {:induction false} ResolvedIff(t: Table, signals: seq<Signal>, k: Key)
    requires TableOk(t) && AllValidated(signals) && k in Delivery(t, signals)
    ensures Delivery(t, signals)[k].status == Resolved <==>
      (k in t && t[k].status == Resolved) || exists s :: s in signals && KeyOf(s) == k && s.status == Resolved
  {
    if signals != [] {
      var n := |signals| - 1;
      assert signals == signals[..n] + [signals[n]];
      if k in Delivery(t, signals[..n]) {
        ResolvedIff(t, signals[..n], k);
      } else {
        RunsKeepRows(t, signals[..n]);
        NoKeyNoSignal(t, signals[..n], k);
      }
    }
  }

  lemma {:induction false} NoKeyNoSignal(t: Table, signals: seq<Signal>, k: Key)
    requires k !in Delivery(t, signals)
    ensures k !in t && forall s :: s in signals ==> KeyOf(s) != k
  {
    if signals != [] {
      var n := |signals| - 1;
      assert signals == signals[..n] + [signals[n]];
      NoKeyNoSignal(t, signals[..n], k);
    }
  }

  predicate Harmonious(s: Signal, s': Signal) {
    || KeyOf(s) != KeyOf(s')
    || (s.labels == s'.labels
        && (s.status == Detected || s'.status == Detected || RowOf(s).resolvedAt == RowOf(s').resolvedAt))
  }

  // The order of two signals matters exactly when they are about one row and disagree on its labels
  // or on when it was resolved.
  lemma OrderIrrelevantIff(s: Signal, s': Signal)
    requires s.trace == NO_TRACE && s'.trace == NO_TRACE && Validated(s) && Validated(s')
    ensures (forall t :: Upserted(Upserted(t, s), s') == Upserted(Upserted(t, s'), s)) <==> Harmonious(s, s')
  {
    if Harmonious(s, s') {
      forall t ensures Upserted(Upserted(t, s), s') == Upserted(Upserted(t, s'), s) {
        assert KeyOf(s) == KeyOf(s') ==>
          Upserted(Upserted(t, s), s')[KeyOf(s)] == Upserted(Upserted(t, s'), s)[KeyOf(s)];
      }
    } else {
      var empty: Table := map[];
      assert Upserted(Upserted(empty, s), s')[KeyOf(s)] != Upserted(Upserted(empty, s'), s)[KeyOf(s)];
    }
  }

  // --- an independent account of the table

  // The first signal about row k, the first that resolves it, the first with a value for a column.
  datatype Wanted = AnySignal | Resolving | WithID | WithParent | WithState

  predicate Wants(want: Wanted, k: Key, s: Signal) {
    && KeyOf(s) == k
    && (want.Resolving? ==> s.status == Resolved)
    && (want.WithID? ==> s.trace.id != "")
    && (want.WithParent? ==> s.trace.parent != "")
    && (want.WithState? ==> s.trace.state != "")
  }

  function FirstOf(signals: seq<Signal>, k: Key, want: Wanted): Option<Signal> {
    if signals == [] then None
    else
      var n := |signals| - 1;
      if FirstOf(signals[..n], k, want).Some? then FirstOf(signals[..n], k, want)
      else if Wants(want, k, signals[n]) then Some(signals[n])
      else None
  }

  // What each column of a row should say.
  function Expected(signals: seq<Signal>, k: Key): Option<Row> {
    var first, end := FirstOf(signals, k, AnySignal), FirstOf(signals, k, Resolving);
    if first.None? then None
    else Some(Row(
      first.value.labels,
      if end.Some? && end.value.resolvedAt.Some? then Some(Micros(end.value.resolvedAt.value)) else None,
      if end.Some? then Resolved else Detected,
      ExpectedTraces(signals, k)))
  }

  function ExpectedTraces(signals: seq<Signal>, k: Key): Traces {
    var id, parent, state :=
      FirstOf(signals, k, WithID), FirstOf(signals, k, WithParent), FirstOf(signals, k, WithState);
    Traces(if id.Some? then Some(id.value.trace.id) else None,
           if parent.Some? then Some(parent.value.trace.parent) else None,
           if state.Some? then Some(state.value.trace.state) else None)
  }

  lemma {:induction false} FirstOfAny(signals: seq<Signal>, k: Key, want: Wanted)
    ensures var found := FirstOf(signals, k, want);
      found.Some? ==> Wants(want, k, found.value) && found.value in signals
    ensures FirstOf(signals, k, want).Some? ==> FirstOf(signals, k, AnySignal).Some?
  {
    if signals != [] { FirstOfAny(signals[..|signals| - 1], k, want); }
  }

  // Merging signal by signal gives exactly the rows that the first signals of each kind describe.
  lemma {:induction false} RowsAreThoseExpected(signals: seq<Signal>, k: Key)
    requires AllValidated(signals)
    ensures Expected(signals, k) == if k in Delivery(map[], signals) then Some(Delivery(map[], signals)[k]) else None
  {
    if signals != [] {
      var n := |signals| - 1;
      var s := signals[n];
      assert s in signals && Validated(s);
      RowsAreThoseExpected(signals[..n], k);
      FirstOfAny(signals[..n], k, Resolving);
      FirstOfAny(signals[..n], k, WithID);
      FirstOfAny(signals[..n], k, WithParent);
      FirstOfAny(signals[..n], k, WithState);
    }
  }
}

/** The telemetry window: computed once by the collector, checked again by the backend. */
module Windows {
  import opened Wrappers

  // Times and durations are nanoseconds; the zero time is None.
  const SECOND := 1_000_000_000
  const MINUTE := 60 * SECOND
  const HOUR := 60 * MINUTE
  const DAY := 24 * HOUR

  datatype Span = Span(start: int, end: int)

  function EndOf(resolved: Option<int>, now: int): int {
    if resolved.Some? && resolved.value < now then resolved.value else now
  }

  function Window(started: Option<int>, resolved: Option<int>, now: int): (r: Option<Span>)
    ensures r.Some? ==> 90 * SECOND <= r.value.end - r.value.start <= HOUR && r.value.end <= now
    ensures r.Some? ==> r.value.end == EndOf(resolved, now)
    ensures r.Some? <==>
      && started.Some? && now - DAY <= started.value <= EndOf(resolved, now) + 30 * SECOND
      && now - DAY <= EndOf(resolved, now)
  {
    var end := EndOf(resolved, now);
    if started.None? || started.value < now - DAY || started.value > end + 30 * SECOND || end < now - DAY then None
    else
      var early := started.value - 2 * MINUTE;
      var start := if early < end - HOUR then end - HOUR else early;
      if !(start < end) then None else Some(Span(start, end))
  }

  // The window in nanoseconds: it ends when the incident did, or now, and starts two minutes before the
  // incident or one hour before the end, whichever is later.
  lemma WindowIs(started: Option<int>, resolved: Option<int>, now: int, w: Span)
    ensures Window(started, resolved, now) == Some(w) <==>
      && started.Some? && w.end == (if resolved.Some? && resolved.value < now then resolved.value else now)
      && now - 86_400_000_000_000 <= started.value <= w.end + 30_000_000_000 && now - 86_400_000_000_000 <= w.end
      && w.start <= w.end
      && w.start >= started.value - 120_000_000_000 && w.start >= w.end - 3_600_000_000_000
      && (w.start == started.value - 120_000_000_000 || w.start == w.end - 3_600_000_000_000)
  {
  }

  // The backend's check, by the server's clock.
  predicate ValidWindow(start: Option<int>, end: Option<int>, server: int) {
    && start.Some? && end.Some? && start.value < end.value && end.value - start.value <= HOUR
    && server - DAY <= start.value && end.value <= server + 30 * SECOND
  }

  // Whatever window it is sent: it is neither empty nor longer than an hour, and begins within the
  // server's last day and ends at most half a minute ahead.
  lemma ValidWindowIff(start: int, end: int, server: int)
    ensures ValidWindow(Some(start), Some(end), server) <==>
      && 0 < end - start <= 3_600_000_000_000
      && server - start <= 86_400_000_000_000 && end - server <= 30_000_000_000
    ensures !ValidWindow(None, Some(end), server) && !ValidWindow(Some(start), None, server)
  {
  }

  // What survives the text form of a time: whole seconds.
  function Trunc(t: int): (r: int)
    ensures r <= t < r + 1_000_000_000 && r % 1_000_000_000 == 0
  {
    t - t % SECOND
  }

  lemma TruncIsMonotone(a: int, b: int)
    requires a <= b
    ensures Trunc(a) <= Trunc(b)
  {
  }

  lemma TruncShifts(t: int, seconds: int)
    ensures Trunc(t + seconds * SECOND) == Trunc(t) + seconds * SECOND
  {
  }

  // Between the two functions, truncation included, only the two clock conditions are left to fail.
  lemma BackendAcceptsIff(started: Option<int>, resolved: Option<int>, now: int, server: int)
    requires Window(started, resolved, now).Some?
    ensures var w := Window(started, resolved, now).value;
      ValidWindow(Some(Trunc(w.start)), Some(Trunc(w.end)), server) <==>
        server - DAY <= Trunc(w.start) && Trunc(w.end) <= server + 30 * SECOND
  {
    var w := Window(started, resolved, now).value;
    TruncIsMonotone(w.end, w.start + 3600 * SECOND);
    TruncShifts(w.start, 3600);
    TruncIsMonotone(w.start + 90 * SECOND, w.end);
    TruncShifts(w.start, 90);
  }

  // So a clock at most 30 seconds behind accepts every incident that started at least 2 minutes and
  // 1 second inside its own day.
  lemma BackendAcceptsRecentIncidents(started: Option<int>, resolved: Option<int>, now: int, server: int)
    requires Window(started, resolved, now).Some?
    requires EndOf(resolved, now) <= server + 30 * SECOND && server - DAY + 121 * SECOND <= started.value
    ensures var w := Window(started, resolved, now).value;
      ValidWindow(Some(Trunc(w.start)), Some(Trunc(w.end)), server)
  {
    BackendAcceptsIff(started, resolved, now, server);
  }

  // The two minutes are taken off after the 24-hour check: an incident that started just inside the
  // day and ended within the hour gets a window which the backend, with the very same clock, refuses.
  lemma OldestIncidentsAreRefused(now: int)
    ensures var started, resolved := Some(now - DAY + MINUTE), Some(now - DAY + 6 * MINUTE);
      Window(started, resolved, now).Some? &&
      var w := Window(started, resolved, now).value; !ValidWindow(Some(Trunc(w.start)), Some(Trunc(w.end)), now)
  {
  }

  // Exactly those, for every pair of clocks: the window is accepted when the server is not too far
  // behind its end, and either the start of the incident, two minutes early, or the hour before the
  // end still lies in the server's day.
  lemma BackendRefusesOnlyTheOldest(started: Option<int>, resolved: Option<int>, now: int, server: int)
    requires Window(started, resolved, now).Some?
    ensures var w := Window(started, resolved, now).value;
      ValidWindow(Some(Trunc(w.start)), Some(Trunc(w.end)), server) <==>
        && (server - DAY + 2 * MINUTE <= Trunc(started.value) || server - DAY + HOUR <= Trunc(EndOf(resolved, now)))
        && Trunc(EndOf(resolved, now)) <= server + 30 * SECOND
  {
    var w := Window(started, resolved, now).value;
    BackendAcceptsIff(started, resolved, now, server);
    TruncShifts(started.value, -120);
    TruncShifts(w.end, -3600);
    if started.value - 2 * MINUTE <= w.end - HOUR {
      TruncIsMonotone(started.value - 2 * MINUTE, w.end - HOUR);
    } else {
      TruncIsMonotone(w.end - HOUR, started.value - 2 * MINUTE);
    }
  }
}

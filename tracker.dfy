/** One tick of `odyssey_work_tracker`, as a function of the tracking flag
    (`self.printing`) before the tick, the freshly loaded status and the
    reactor's `eventtime`. It yields the new flag, the print_stats
    notifications the tick makes, and either the time the reactor is to run
    the tick again or the exception that escapes the tick. */
module Tracker {
  import opened PyValues
  import opened Effects
  import opened Status

  datatype TickOutcome = Reschedule(waketime: real) | Raised(error: PyError)

  datatype TickStep = TickStep(printing: bool, effects: seq<Effect>, outcome: TickOutcome)

  /** `status['Printing']['paused']`, by direct subscript: a missing key
      raises KeyError, a non-dict raises TypeError. */
  function PausedFlag(status: Json): Result<Json> {
    var job :- Subscript(status, "Printing");
    Subscript(job, "paused")
  }

  /** The status reports that the print is over. */
  predicate ShowsIdle(status: Json) {
    Contains(status, "Idle") == Ok(true)
  }

  /** The status reports a print with a truthy `paused` flag. */
  predicate ShowsPaused(status: Json) {
    Contains(status, "Printing") == Ok(true) && PausedFlag(status).Ok? && Truthy(PausedFlag(status).value)
  }

  /** The status reports a print that is running. */
  predicate ShowsActivePrint(status: Json) {
    Contains(status, "Printing") == Ok(true) && PausedFlag(status).Ok? && !Truthy(PausedFlag(status).value)
  }

  /** The tick raises: `in` is applied to a value that does not support
      it, or a reported print has no readable `paused` flag (and, while
      tracking, the print is not already reported over). */
  predicate TickRaises(printing: bool, status: Json) {
    && !(printing && ShowsIdle(status))
    && (|| Contains(status, "Printing").Raise?
        || (Contains(status, "Printing") == Ok(true) && PausedFlag(status).Raise?))
  }

  /** `odyssey_work_tracker` after `self.status = self.load_status()`. */
  function Track(printing: bool, status: Json, eventtime: real): (r: TickStep)
    // While tracking, every tick that returns asks to run again one second later.
    ensures printing && r.outcome.Reschedule? ==> r.outcome.waketime == eventtime + 1.0
    // Completion and pause are noted once, on the tick that sees them, and end tracking.
    ensures printing && ShowsIdle(status) ==> r == TickStep(false, [NoteComplete], Reschedule(eventtime + 1.0))
    ensures printing && !ShowsIdle(status) && ShowsPaused(status) ==>
      r == TickStep(false, [NotePause], Reschedule(eventtime + 1.0))
    ensures printing && r.printing ==> r.effects == []
    // Any other report that does not raise keeps tracking silently.
    ensures printing && !ShowsIdle(status) && !ShowsPaused(status) && !TickRaises(printing, status) ==>
      r == TickStep(true, [], Reschedule(eventtime + 1.0))
    ensures r.effects == [] || r.effects == [NoteComplete] || r.effects == [NotePause]
    // While not tracking, only a running print starts tracking and shortens the interval.
    ensures !printing ==> r.effects == []
    ensures !printing ==> (r.printing <==> ShowsActivePrint(status))
    ensures !printing && r.outcome.Reschedule? ==>
      r.outcome.waketime == eventtime + (if r.printing then 1.0 else 10.0)
    // An exception escapes exactly in the listed cases, and then nothing has changed.
    ensures r.outcome.Raised? <==> TickRaises(printing, status)
    ensures r.outcome.Raised? ==> r.printing == printing && r.effects == []
    ensures r.outcome.Raised? ==> r.outcome.error == TypeError || r.outcome.error == KeyError("paused")
  {
    if printing then
      match Contains(status, "Idle")
      case Raise(e) => TickStep(printing, [], Raised(e))
      case Ok(idle) =>
        if idle then TickStep(false, [NoteComplete], Reschedule(eventtime + 1.0))
        else
          match Contains(status, "Printing")
          case Raise(e) => TickStep(printing, [], Raised(e))
          case Ok(job) =>
            if !job then TickStep(printing, [], Reschedule(eventtime + 1.0))
            else
              match PausedFlag(status)
              case Raise(e) => TickStep(printing, [], Raised(e))
              case Ok(paused) =>
                if Truthy(paused) then TickStep(false, [NotePause], Reschedule(eventtime + 1.0))
                else TickStep(printing, [], Reschedule(eventtime + 1.0))
    else
      match Contains(status, "Printing")
      case Raise(e) => TickStep(printing, [], Raised(e))
      case Ok(job) =>
        if !job then TickStep(printing, [], Reschedule(eventtime + 10.0))
        else
          match PausedFlag(status)
          case Raise(e) => TickStep(printing, [], Raised(e))
          case Ok(paused) =>
            if !Truthy(paused) then TickStep(true, [], Reschedule(eventtime + 1.0))
            else TickStep(printing, [], Reschedule(eventtime + 10.0))
  }

  /** A status the server could not deliver (no connection, or a body that
      is not JSON) changes nothing: the tick keeps the flag, notifies no
      one, and polls again at the interval of the current mode. */
  lemma SentinelTickIsInert(printing: bool, fetched: Fetched, eventtime: real)
    requires !(fetched.Received? && fetched.body.Some?)
    ensures Track(printing, LoadStatus(fetched), eventtime) ==
      TickStep(printing, [], Reschedule(eventtime + (if printing then 1.0 else 10.0)))
  {
    var status := LoadStatus(fetched);
    assert Contains(status, "Idle") == Ok(false);
    assert Contains(status, "Printing") == Ok(false);
  }

  /** Any report that holds both an `Idle` key and a running `Printing`
      entry: a tracking tick takes the `Idle` branch and notes completion,
      and the next, untracked tick starts tracking again, so such a report
      loaded on every tick notes completion on every second tick. */
  lemma IdleWithRunningPrintAlternates(status: Json, eventtime: real)
    requires ShowsIdle(status) && ShowsActivePrint(status)
    ensures Track(true, status, eventtime) == TickStep(false, [NoteComplete], Reschedule(eventtime + 1.0))
    ensures Track(false, status, eventtime) == TickStep(true, [], Reschedule(eventtime + 1.0))
  {
  }
}

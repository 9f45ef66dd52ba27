/** The `Odyssey` object: the tracking flag `printing` and the last loaded
    `status`, which its tick and its commands update in place. The calls it
    makes into the server, print_stats and the reactor timer are recorded
    in the ghost trace `log`. Each method is proved to do what the
    corresponding function of Tracker, Gateway or Status specifies. */
module OdysseyObject {
  import opened PyValues
  import opened Effects
  import opened Status
  import opened Tracker
  import opened Gateway
  import opened FileNames

  class Odyssey {
    var printing: bool
    var status: Json
    ghost var log: seq<Effect>

    /** A fresh object tracks nothing and holds an empty status; its timer
        is registered but not armed. */
    constructor ()
      ensures !printing && status == EmptyObject && log == []
    {
      printing := false;
      status := EmptyObject;
      log := [];
    }

    /** `load_status`: one GET, with failures mapped to sentinels. */
    method LoadStatus(fetched: Fetched) returns (s: Json)
      modifies this`log
      ensures s == Status.LoadStatus(fetched)
      ensures log == old(log) + [HttpGet(StatusPath)]
    {
      log := log + [HttpGet(StatusPath)];
      match fetched {
        case NoConnection =>
          s := CommunicationError;
        case Received(code, body) =>
          match body {
            case Some(json) => s := json;
            case None => s := ErrorSentinel(code);
          }
      }
    }

    /** `odyssey_work_tracker`: loads the status, then moves the tracking
        flag as `Track` says and returns the next wake time. */
    method Tick(eventtime: real, fetched: Fetched) returns (outcome: TickOutcome)
      modifies this
      ensures status == Status.LoadStatus(fetched)
      ensures var step := Track(old(printing), status, eventtime);
        && printing == step.printing
        && outcome == step.outcome
        && log == old(log) + [HttpGet(StatusPath)] + step.effects
    {
      status := LoadStatus(fetched);
      if printing {
        var idle := Contains(status, "Idle");
        if idle.Raise? {
          return Raised(idle.error);
        }
        if idle.value {
          log := log + [NoteComplete];
          printing := false;
        } else {
          // `in` cannot raise here: the same status just accepted it for "Idle".
          var job := Contains(status, "Printing");
          if job == Ok(true) {
            var paused := PausedFlag(status);
            if paused.Raise? {
              return Raised(paused.error);
            }
            if Truthy(paused.value) {
              log := log + [NotePause];
              printing := false;
            }
          }
        }
        return Reschedule(eventtime + 1.0);
      } else {
        var job := Contains(status, "Printing");
        if job.Raise? {
          return Raised(job.error);
        }
        if job.value {
          var paused := PausedFlag(status);
          if paused.Raise? {
            return Raised(paused.error);
          }
          if !Truthy(paused.value) {
            printing := true;
            return Reschedule(eventtime + 1.0);
          }
        }
        return Reschedule(eventtime + 10.0);
      }
    }

    /** `_START` */
    method Start(location: string, filepath: string, reply: Posted) returns (outcome: Outcome)
      modifies this`log
      ensures printing == old(printing)
      ensures var step := StartStep(old(printing), location, filepath, reply);
        outcome == step.outcome && log == old(log) + step.effects
    {
      if printing {
        return Failed(Busy);
      }
      log := log + [HttpPost(StartPath, StartQuery(location, filepath))];
      match reply {
        case PostFailed(detail) =>
          return Failed(NotReached(Transport(detail)));
        case PostReply(code, reason) =>
          if code == HttpNotFound {
            return Failed(NotReached(FileNotFound));
          } else if code != HttpOk {
            return Failed(NotReached(ServerError(code, reason)));
          }
      }
      log := log + [SetCurrentFile(filepath)];
      log := log + [NoteStart];
      log := log + [WakeTimer(Now + 1.0)];
      outcome := Done;
    }

    /** `cmd_START`: the file comes from the PATH parameter. */
    method CmdStart(params: map<string, string>, reply: Posted) returns (outcome: Outcome)
      modifies this`log
      ensures printing == old(printing)
      ensures var step := StartCommandStep(old(printing), params, PathParam, reply);
        outcome == step.outcome && log == old(log) + step.effects
    {
      var location := if "LOCATION" in params then params["LOCATION"] else "Local";
      if PathParam !in params {
        return Failed(MissingParameter(PathParam));
      }
      var filepath := StripExtension(params[PathParam]);
      outcome := Start(location, filepath, reply);
    }

    /** `cmd_SDCARD_PRINT_FILE`: the file comes from the FILENAME parameter. */
    method CmdSdcardPrintFile(params: map<string, string>, reply: Posted) returns (outcome: Outcome)
      modifies this`log
      ensures printing == old(printing)
      ensures var step := StartCommandStep(old(printing), params, FilenameParam, reply);
        outcome == step.outcome && log == old(log) + step.effects
    {
      var location := if "LOCATION" in params then params["LOCATION"] else "Local";
      if FilenameParam !in params {
        return Failed(MissingParameter(FilenameParam));
      }
      var filepath := StripExtension(params[FilenameParam]);
      outcome := Start(location, filepath, reply);
    }

    /** `cmd_CANCEL` */
    method Cancel(reply: Posted) returns (outcome: Outcome)
      modifies this`log, this`printing
      ensures var step := CancelStep(old(printing), reply);
        outcome == step.outcome && printing == step.printing && log == old(log) + step.effects
    {
      log := log + [HttpPost(CancelPath, [])];
      match reply {
        case PostFailed(detail) =>
          return Failed(NotReached(Transport(detail)));
        case PostReply(code, reason) =>
          if code != HttpOk {
            return Failed(NotReached(ServerError(code, reason)));
          }
      }
      log := log + [NoteCancel];
      printing := false;
      outcome := Done;
    }

    /** `cmd_PAUSE` */
    method Pause(reply: Posted) returns (outcome: Outcome)
      modifies this`log
      ensures printing == old(printing)
      ensures var step := PauseStep(old(printing), reply);
        outcome == step.outcome && log == old(log) + step.effects
    {
      log := log + [HttpPost(PausePath, [])];
      match reply {
        case PostFailed(detail) =>
          return Failed(NotReached(Transport(detail)));
        case PostReply(code, reason) =>
          if code != HttpOk {
            return Failed(NotReached(ServerError(code, reason)));
          }
      }
      outcome := Done;
    }

    /** `cmd_RESUME` */
    method Resume(reply: Posted) returns (outcome: Outcome)
      modifies this`log
      ensures printing == old(printing)
      ensures var step := ResumeStep(old(printing), reply);
        outcome == step.outcome && log == old(log) + step.effects
    {
      log := log + [HttpPost(ResumePath, [])];
      match reply {
        case PostFailed(detail) =>
          return Failed(NotReached(Transport(detail)));
        case PostReply(code, reason) =>
          if code != HttpOk {
            return Failed(NotReached(ServerError(code, reason)));
          }
      }
      log := log + [NoteStart];
      log := log + [WakeTimer(Now)];
      outcome := Done;
    }

    /** `get_status`: reloads the status, then reports on it. */
    method GetStatus(fetched: Fetched) returns (report: Result<StatusReport>)
      modifies this`status, this`log
      ensures status == Status.LoadStatus(fetched)
      ensures report == Report(status)
      ensures log == old(log) + [HttpGet(StatusPath)]
    {
      status := LoadStatus(fetched);
      report := Report(status);
    }
  }

  /** A job started through the gateway and seen running refuses a second
      start; seen finished on three ticks, it is noted complete once, and
      a new job may then start. */
  method CompletionScenario(t: real)
  {
    var o := new Odyssey();
    var started := o.Start("Local", "cube", PostReply(HttpOk, "OK"));
    assert started == Done && !o.printing;
    var running := JObject(map["Printing" := JObject(map["paused" := JBool(false)])]);
    var idle := JObject(map["Idle" := EmptyObject]);
    var next := o.Tick(t, Received(HttpOk, Some(running)));
    assert o.printing && next == Reschedule(t + 1.0);
    var refused := o.Start("Local", "cube", PostReply(HttpOk, "OK"));
    assert refused == Failed(Busy);
    next := o.Tick(t + 1.0, Received(HttpOk, Some(idle)));
    assert !o.printing && next == Reschedule(t + 2.0);
    next := o.Tick(t + 2.0, Received(HttpOk, Some(idle)));
    next := o.Tick(t + 12.0, Received(HttpOk, Some(idle)));
    assert !o.printing && next == Reschedule(t + 22.0);
    assert o.log == [
      HttpPost(StartPath, StartQuery("Local", "cube")), SetCurrentFile("cube"), NoteStart, WakeTimer(Now + 1.0),
      HttpGet(StatusPath), HttpGet(StatusPath), NoteComplete, HttpGet(StatusPath), HttpGet(StatusPath)];
    var again := o.Start("Local", "cube", PostReply(HttpOk, "OK"));
    assert again == Done;
  }
}

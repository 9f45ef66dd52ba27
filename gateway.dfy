/** The G-code commands that drive the Odyssey server: ODYSSEY_START and
    SDCARD_PRINT_FILE (both through `_START`), ODYSSEY_CANCEL_PRINT,
    ODYSSEY_PAUSE and ODYSSEY_RESUME. Each is a function of the tracking
    flag and the server's reply; it yields the command's outcome, the new
    flag and the calls made to the server, print_stats and the timer. */
module Gateway {
  import opened PyValues
  import opened Decimal
  import opened FileNames
  import opened Effects

  /** What a POST produced: the request raised (with the exception's
      text), or the server answered with a status code and reason. */
  datatype Posted = PostFailed(detail: string) | PostReply(code: nat, reason: string)

  const HttpOk: nat := 200
  const HttpNotFound: nat := 404

  /** Why a request did not succeed. */
  datatype Cause = FileNotFound | ServerError(code: nat, reason: string) | Transport(detail: string)

  /** The error a command reports to the G-code issuer. */
  datatype CommandError =
    | MissingParameter(name: string)   // raised by the G-code layer's parameter lookup
    | Busy
    | NotReached(cause: Cause)         // re-wrapped by the `except Exception` handler

  datatype Outcome = Done | Failed(error: CommandError)

  datatype CommandStep = CommandStep(outcome: Outcome, printing: bool, effects: seq<Effect>)

  function CauseText(c: Cause): string {
    match c
    case FileNotFound => "Odyssey could not find the requested file"
    case ServerError(code, reason) => "Odyssey Error Encountered: " + NatToString(code) + ": " + reason
    case Transport(detail) => detail
  }

  const UnreachablePrefix := "Could not reach odyssey: "

  /** The text of the error a command raises; the missing-parameter text
      belongs to the G-code layer and is not modelled. */
  function Message(e: CommandError): (m: Option<string>)
    ensures e.Busy? ==> m == Some("Odyssey Busy")
    ensures e.NotReached? ==> m.Some? && UnreachablePrefix <= m.value && m.value[|UnreachablePrefix|..] == CauseText(e.cause)
    ensures e.MissingParameter? <==> m.None?
  {
    match e
    case MissingParameter(_) => None
    case Busy => Some("Odyssey Busy")
    case NotReached(c) => Some(UnreachablePrefix + CauseText(c))
  }

  /** A missing file is reported with a text that no server error shares. */
  lemma FileNotFoundIsDistinct(code: nat, reason: string)
    ensures Message(NotReached(FileNotFound)) != Message(NotReached(ServerError(code, reason)))
  {
    var m1 := Message(NotReached(FileNotFound)).value;
    var m2 := Message(NotReached(ServerError(code, reason))).value;
    assert m1[|UnreachablePrefix| + 8] == 'c';
    assert m2[|UnreachablePrefix| + 8] == 'E';
  }

  /** The cause a reply reports, or None for HTTP 200. Only the start
      command singles out 404. */
  function ReplyCause(reply: Posted, distinguishNotFound: bool): (c: Option<Cause>)
    ensures c.None? <==> reply.PostReply? && reply.code == HttpOk
    ensures reply.PostFailed? ==> c == Some(Transport(reply.detail))
    ensures reply.PostReply? && reply.code == HttpNotFound ==>
      c == Some(if distinguishNotFound then FileNotFound else ServerError(HttpNotFound, reply.reason))
    ensures reply.PostReply? && reply.code != HttpOk && reply.code != HttpNotFound ==>
      c == Some(ServerError(reply.code, reply.reason))
  {
    match reply
    case PostFailed(detail) => Some(Transport(detail))
    case PostReply(code, reason) =>
      if distinguishNotFound && code == HttpNotFound then Some(FileNotFound)
      else if code != HttpOk then Some(ServerError(code, reason))
      else None
  }

  /** The query string of `POST /print/start`. */
  function StartQuery(location: string, filepath: string): seq<(string, string)> {
    [("file_path", filepath), ("location", location)]
  }

  /** `_START`: refused while a print is tracked, before any request; on
      HTTP 200 it names the file to print_stats, notes the start and wakes
      the tracker. It never changes the tracking flag itself. */
  function StartStep(printing: bool, location: string, filepath: string, reply: Posted): (s: CommandStep)
    ensures s.printing == printing
    ensures printing ==> s.outcome == Failed(Busy) && s.effects == []
    ensures s.outcome.Done? <==> !printing && reply.PostReply? && reply.code == HttpOk
    ensures !printing ==> |s.effects| >= 1 && s.effects[0] == HttpPost(StartPath, StartQuery(location, filepath))
    ensures s.outcome.Done? ==>
      s.effects[1..] == [SetCurrentFile(filepath), NoteStart, WakeTimer(Now + 1.0)]
    ensures s.outcome.Failed? ==> NoStatsCalls(s.effects) && |s.effects| <= 1
    ensures !printing && reply.PostReply? && reply.code == HttpNotFound ==>
      s.outcome == Failed(NotReached(FileNotFound))
    ensures !printing && reply.PostReply? && reply.code != HttpOk && reply.code != HttpNotFound ==>
      s.outcome == Failed(NotReached(ServerError(reply.code, reply.reason)))
    ensures !printing && reply.PostFailed? ==> s.outcome == Failed(NotReached(Transport(reply.detail)))
  {
    if printing then CommandStep(Failed(Busy), printing, [])
    else
      var request := HttpPost(StartPath, StartQuery(location, filepath));
      match ReplyCause(reply, true)
      case Some(c) => CommandStep(Failed(NotReached(c)), printing, [request])
      case None => CommandStep(Done, printing, [request, SetCurrentFile(filepath), NoteStart, WakeTimer(Now + 1.0)])
  }

  /** `cmd_CANCEL`: no busy check; on HTTP 200 notes the cancellation and
      stops tracking at once, otherwise changes nothing. */
  function CancelStep(printing: bool, reply: Posted): (s: CommandStep)
    ensures s.outcome.Done? <==> reply.PostReply? && reply.code == HttpOk
    ensures s.outcome.Done? ==> !s.printing && s.effects == [HttpPost(CancelPath, []), NoteCancel]
    ensures s.outcome.Failed? ==> s.printing == printing && s.effects == [HttpPost(CancelPath, [])]
    ensures reply.PostReply? && reply.code != HttpOk ==>
      s.outcome == Failed(NotReached(ServerError(reply.code, reply.reason)))
    ensures reply.PostFailed? ==> s.outcome == Failed(NotReached(Transport(reply.detail)))
  {
    var request := HttpPost(CancelPath, []);
    match ReplyCause(reply, false)
    case Some(c) => CommandStep(Failed(NotReached(c)), printing, [request])
    case None => CommandStep(Done, false, [request, NoteCancel])
  }

  /** `cmd_PAUSE`: only the request; the tracker notices the pause on its
      next tick. */
  function PauseStep(printing: bool, reply: Posted): (s: CommandStep)
    ensures s.printing == printing
    ensures s.effects == [HttpPost(PausePath, [])]
    ensures s.outcome.Done? <==> reply.PostReply? && reply.code == HttpOk
    ensures reply.PostReply? && reply.code != HttpOk ==>
      s.outcome == Failed(NotReached(ServerError(reply.code, reply.reason)))
    ensures reply.PostFailed? ==> s.outcome == Failed(NotReached(Transport(reply.detail)))
  {
    match ReplyCause(reply, false)
    case Some(c) => CommandStep(Failed(NotReached(c)), printing, [HttpPost(PausePath, [])])
    case None => CommandStep(Done, printing, [HttpPost(PausePath, [])])
  }

  /** `cmd_RESUME`: on HTTP 200 notes a start and wakes the tracker at
      once; the tracking flag is left to the tracker. */
  function ResumeStep(printing: bool, reply: Posted): (s: CommandStep)
    ensures s.printing == printing
    ensures s.outcome.Done? <==> reply.PostReply? && reply.code == HttpOk
    ensures s.outcome.Done? ==> s.effects == [HttpPost(ResumePath, []), NoteStart, WakeTimer(Now)]
    ensures s.outcome.Failed? ==> s.effects == [HttpPost(ResumePath, [])]
    ensures reply.PostReply? && reply.code != HttpOk ==>
      s.outcome == Failed(NotReached(ServerError(reply.code, reply.reason)))
    ensures reply.PostFailed? ==> s.outcome == Failed(NotReached(Transport(reply.detail)))
  {
    var request := HttpPost(ResumePath, []);
    match ReplyCause(reply, false)
    case Some(c) => CommandStep(Failed(NotReached(c)), printing, [request])
    case None => CommandStep(Done, printing, [request, NoteStart, WakeTimer(Now)])
  }

  /** The arguments of a start command, read from its G-code parameters. */
  datatype StartArgs = StartArgs(location: string, filepath: string) | Missing(name: string)

  /** `LOCATION` defaults to "Local"; the file parameter (`PATH` for
      ODYSSEY_START, `FILENAME` for SDCARD_PRINT_FILE) is required and
      loses its extension. */
  function StartArguments(params: map<string, string>, fileParam: string): (a: StartArgs)
    ensures a.Missing? <==> fileParam !in params
    ensures a.Missing? ==> a.name == fileParam
    ensures a.StartArgs? ==> a.location == (if "LOCATION" in params then params["LOCATION"] else "Local")
    ensures a.StartArgs? ==> a.filepath == StripExtension(params[fileParam])
  {
    var location := if "LOCATION" in params then params["LOCATION"] else "Local";
    if fileParam !in params then Missing(fileParam)
    else StartArgs(location, StripExtension(params[fileParam]))
  }

  const PathParam := "PATH"
  const FilenameParam := "FILENAME"

  /** `cmd_START` / `cmd_SDCARD_PRINT_FILE`: a missing file parameter is
      reported before the busy check and before any request. */
  function StartCommandStep(printing: bool, params: map<string, string>, fileParam: string, reply: Posted): (s: CommandStep)
    ensures s.printing == printing
    ensures fileParam !in params ==> s == CommandStep(Failed(MissingParameter(fileParam)), printing, [])
    ensures fileParam in params ==>
      var a := StartArguments(params, fileParam);
      s == StartStep(printing, a.location, a.filepath, reply)
  {
    match StartArguments(params, fileParam)
    case Missing(name) => CommandStep(Failed(MissingParameter(name)), printing, [])
    case StartArgs(location, filepath) => StartStep(printing, location, filepath, reply)
  }
}

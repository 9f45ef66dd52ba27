/** Sessions: any sequence of tracker ticks and G-code commands applied to
    the tracking flag, in the order the reactor runs them. A tick whose
    exception escapes ends the session. The lemmas show that completion and
    pause notifications are edge-triggered: each needs a tick that saw a
    running print (or the tracking the session started with). */
module Session {
  import opened PyValues
  import opened Effects
  import opened Status
  import opened Tracker
  import opened Gateway

  datatype Op =
    | TickOp(eventtime: real, fetched: Fetched)
    | StartOp(params: map<string, string>, fileParam: string, reply: Posted)
    | CancelOp(reply: Posted)
    | PauseOp(reply: Posted)
    | ResumeOp(reply: Posted)

  datatype OpStep = OpStep(printing: bool, effects: seq<Effect>, halted: bool)

  /** One operation, with the GET that starts every tick. */
  function Apply(printing: bool, op: Op): OpStep {
    match op
    case TickOp(eventtime, fetched) =>
      var t := Track(printing, LoadStatus(fetched), eventtime);
      OpStep(t.printing, [HttpGet(StatusPath)] + t.effects, t.outcome.Raised?)
    case StartOp(params, fileParam, reply) =>
      var c := StartCommandStep(printing, params, fileParam, reply);
      OpStep(c.printing, c.effects, false)
    case CancelOp(reply) =>
      var c := CancelStep(printing, reply);
      OpStep(c.printing, c.effects, false)
    case PauseOp(reply) =>
      var c := PauseStep(printing, reply);
      OpStep(c.printing, c.effects, false)
    case ResumeOp(reply) =>
      var c := ResumeStep(printing, reply);
      OpStep(c.printing, c.effects, false)
  }

  datatype SessionEnd = SessionEnd(printing: bool, effects: seq<Effect>)

  /** The flag after a session and every call made during it. */
  function Run(printing: bool, ops: seq<Op>): SessionEnd
    decreases |ops|
  {
    if ops == [] then SessionEnd(printing, [])
    else
      var s := Apply(printing, ops[0]);
      if s.halted then SessionEnd(s.printing, s.effects)
      else
        var rest := Run(s.printing, ops[1..]);
        SessionEnd(rest.printing, s.effects + rest.effects)
  }

  /** Whether an operation is a tick that loads a report of a running print. */
  predicate SeesRunningPrint(op: Op) {
    op.TickOp? && ShowsActivePrint(LoadStatus(op.fetched))
  }

  /** How many ticks of a session see a running print. */
  function RunningReports(ops: seq<Op>): nat {
    if ops == [] then 0 else (if SeesRunningPrint(ops[0]) then 1 else 0) + RunningReports(ops[1..])
  }

  function Count(b: bool): nat {
    if b then 1 else 0
  }

  /** A tick notifies completion or pause only by ending tracking, and
      starts tracking only when it sees a running print. */
  lemma TickBound(printing: bool, status: Json, eventtime: real)
    ensures var t := Track(printing, status, eventtime);
      Notifications(t.effects) + Count(t.printing) <= Count(printing) + Count(ShowsActivePrint(status))
  {
    var t := Track(printing, status, eventtime);
    assert multiset([NoteComplete])[NotePause] == 0;
    assert multiset([NotePause])[NoteComplete] == 0;
  }

  /** A start command makes no completion or pause notification. */
  lemma StartNotifiesNothing(printing: bool, params: map<string, string>, fileParam: string, reply: Posted)
    ensures Notifications(StartCommandStep(printing, params, fileParam, reply).effects) == 0
  {
    var c := StartCommandStep(printing, params, fileParam, reply);
    if fileParam in params && !printing {
      var a := StartArguments(params, fileParam);
      var request := HttpPost(StartPath, StartQuery(a.location, a.filepath));
      if c.outcome.Done? {
        assert c.effects == [request, SetCurrentFile(a.filepath), NoteStart, WakeTimer(Now + 1.0)];
      } else {
        assert c.effects == [request];
      }
    }
  }

  /** No command notifies completion or pause, and none starts tracking. */
  lemma CommandBound(printing: bool, op: Op)
    requires !op.TickOp?
    ensures var s := Apply(printing, op);
      Notifications(s.effects) == 0 && (s.printing ==> printing)
  {
    match op
    case StartOp(params, fileParam, reply) =>
      StartNotifiesNothing(printing, params, fileParam, reply);
    case CancelOp(reply) =>
    case PauseOp(reply) =>
    case ResumeOp(reply) =>
  }

  /** One operation notifies completion or pause only by ending the
      tracking it started with, and starts tracking only on a tick that
      sees a running print. */
  lemma StepBound(printing: bool, op: Op)
    ensures var s := Apply(printing, op);
      Notifications(s.effects) + Count(s.printing) <= Count(printing) + Count(SeesRunningPrint(op))
  {
    if op.TickOp? {
      var t := Track(printing, LoadStatus(op.fetched), op.eventtime);
      TickBound(printing, LoadStatus(op.fetched), op.eventtime);
      assert multiset([HttpGet(StatusPath)] + t.effects) == multiset([HttpGet(StatusPath)]) + multiset(t.effects);
    } else {
      CommandBound(printing, op);
    }
  }

  /** Over a whole session, the completion and pause notifications, plus one
      if the session ends tracking, never outnumber the tracking it started
      with plus the ticks that saw a running print. */
  lemma {:induction false} NotificationBound(printing: bool, ops: seq<Op>)
    ensures var e := Run(printing, ops);
      Notifications(e.effects) + Count(e.printing) <= Count(printing) + RunningReports(ops)
    decreases |ops|
  {
    if ops != [] {
      var s := Apply(printing, ops[0]);
      StepBound(printing, ops[0]);
      if !s.halted {
        NotificationBound(s.printing, ops[1..]);
        var rest := Run(s.printing, ops[1..]);
        assert multiset(s.effects + rest.effects) == multiset(s.effects) + multiset(rest.effects);
      }
    }
  }

  /** Once tracking has ended, no further completion or pause is noted,
      whatever commands are issued, until a tick sees a running print. */
  lemma NoRepeatedNotifications(ops: seq<Op>)
    requires RunningReports(ops) == 0
    ensures Notifications(Run(false, ops).effects) == 0
    ensures !Run(false, ops).printing
  {
    NotificationBound(false, ops);
  }

  /** The ticks of a session that all load the same report. */
  predicate AllTicksLoad(ops: seq<Op>, fetched: Fetched) {
    forall i :: 0 <= i < |ops| ==> ops[i].TickOp? && ops[i].fetched == fetched
  }

  lemma {:induction false} AllTicksLoadTail(ops: seq<Op>, fetched: Fetched)
    requires AllTicksLoad(ops, fetched) && ops != []
    ensures AllTicksLoad(ops[1..], fetched)
  {
    forall i | 0 <= i < |ops| - 1
      ensures ops[1..][i].TickOp? && ops[1..][i].fetched == fetched
    {
      assert ops[1..][i] == ops[i + 1];
    }
  }

  lemma {:induction false} RunningReportsOfRepeatedTicks(ops: seq<Op>, fetched: Fetched)
    requires AllTicksLoad(ops, fetched)
    ensures RunningReports(ops) == if ShowsActivePrint(LoadStatus(fetched)) then |ops| else 0
    decreases |ops|
  {
    if ops != [] {
      AllTicksLoadTail(ops, fetched);
      RunningReportsOfRepeatedTicks(ops[1..], fetched);
    }
  }

  /** A print seen finishing is noted complete exactly once, however many
      ticks go on loading the same `Idle` report. */
  lemma CompletionNotedOnce(ops: seq<Op>, fetched: Fetched)
    requires ops != [] && AllTicksLoad(ops, fetched)
    requires ShowsIdle(LoadStatus(fetched)) && !ShowsActivePrint(LoadStatus(fetched))
    ensures multiset(Run(true, ops).effects)[NoteComplete] == 1
    ensures multiset(Run(true, ops).effects)[NotePause] == 0
    ensures !Run(true, ops).printing
  {
    var s := Apply(true, ops[0]);
    assert s.effects == [HttpGet(StatusPath), NoteComplete] && !s.printing && !s.halted;
    AllTicksLoadTail(ops, fetched);
    RunningReportsOfRepeatedTicks(ops[1..], fetched);
    NoRepeatedNotifications(ops[1..]);
    var rest := Run(false, ops[1..]);
    assert multiset(s.effects + rest.effects) == multiset(s.effects) + multiset(rest.effects);
  }

  /** Ticks that keep loading a running print leave tracking on and notify
      no one: the start of a print is not noted again and again. */
  lemma {:induction false} TrackingIsStable(ops: seq<Op>, fetched: Fetched)
    requires AllTicksLoad(ops, fetched)
    requires ShowsActivePrint(LoadStatus(fetched)) && !ShowsIdle(LoadStatus(fetched))
    ensures Run(true, ops).printing
    ensures NoStatsCalls(Run(true, ops).effects)
    decreases |ops|
  {
    if ops != [] {
      var s := Apply(true, ops[0]);
      assert s == OpStep(true, [HttpGet(StatusPath)], false);
      AllTicksLoadTail(ops, fetched);
      TrackingIsStable(ops[1..], fetched);
    }
  }

  /** A cancel the server accepts is noted and ends tracking at once, so
      later ticks that see no running print note no completion or pause. */
  lemma CancelSilencesTracker(printing: bool, reply: Posted, ops: seq<Op>)
    requires reply.PostReply? && reply.code == HttpOk
    requires RunningReports(ops) == 0
    ensures var e := Run(printing, [CancelOp(reply)] + ops);
      && multiset(e.effects)[NoteCancel] >= 1
      && Notifications(e.effects) == 0
      && !e.printing
  {
    var all := [CancelOp(reply)] + ops;
    assert all[0] == CancelOp(reply) && all[1..] == ops;
    var s := Apply(printing, all[0]);
    assert s == OpStep(false, [HttpPost(CancelPath, []), NoteCancel], false);
    NoRepeatedNotifications(ops);
    var rest := Run(false, ops);
    assert multiset(s.effects + rest.effects) == multiset(s.effects) + multiset(rest.effects);
  }
}

/** The calls the Odyssey module makes into collaborators it does not own:
    HTTP requests to the Odyssey server, notifications to Klipper's
    print_stats object, and re-arming of its own reactor timer. The model
    records them, in order, as a trace of effects. */
module Effects {

  datatype Effect =
    | HttpGet(path: string)
    | HttpPost(path: string, query: seq<(string, string)>)
    | SetCurrentFile(file: string)   // print_stats.set_current_file
    | NoteStart                      // print_stats.note_start
    | NotePause                      // print_stats.note_pause
    | NoteCancel                     // print_stats.note_cancel
    | NoteComplete                   // print_stats.note_complete
    | WakeTimer(waketime: real)      // reactor.update_timer(work_timer, waketime)

  const StatusPath := "/status"
  const StartPath := "/print/start"
  const CancelPath := "/print/cancel"
  const PausePath := "/print/pause"
  const ResumePath := "/print/resume"

  /** The reactor's `NOW` constant: a wake time that is already due. */
  const Now: real := 0.0

  predicate IsStatsCall(e: Effect) {
    e.SetCurrentFile? || e.NoteStart? || e.NotePause? || e.NoteCancel? || e.NoteComplete?
  }

  predicate NoStatsCalls(trace: seq<Effect>) {
    forall i :: 0 <= i < |trace| ==> !IsStatsCall(trace[i])
  }

  /** How many end-of-job notifications (completion or pause) a trace holds. */
  function Notifications(trace: seq<Effect>): nat {
    multiset(trace)[NoteComplete] + multiset(trace)[NotePause]
  }
}

# Odyssey job tracking, modelled in Dafny

This project models the Odyssey support module of a Klipper fork,
`klippy/extras/odyssey.py`. The module lets Klipper drive an external
resin-printing server, Odyssey, over HTTP. It has four parts:

- **Polling tracker.** `odyssey_work_tracker` runs on a reactor timer. Each
  tick loads the server's status (`GET /status`) and keeps a flag,
  `printing`, saying whether a print is being tracked. It notifies Klipper's
  `print_stats` once when it sees a tracked print complete (`Idle`) or pause.
  It starts tracking when it sees a running, unpaused print. It returns the
  next wake time: one second later while tracking or on the tick that starts
  tracking, ten seconds later otherwise.
- **Commands.** `ODYSSEY_START`, `SDCARD_PRINT_FILE`, `ODYSSEY_CANCEL_PRINT`,
  `ODYSSEY_PAUSE` and `ODYSSEY_RESUME` POST to the server. A start is refused
  ("Odyssey Busy") while a print is tracked. The `print_stats` bookkeeping
  and the tracking flag follow the HTTP outcome.
- **Status mapping.** `load_status` never raises. A failed request becomes
  `{'Communication Error': {}}`. A body that is not JSON becomes
  `{"Error <code>": {}}`.
- **Status accessors.** `get_status` and the lookups it uses answer Klipper's
  status queries.

## Structure

- `py_values.dfy` (module `PyValues`): JSON values and the Python semantics
  the module relies on. This covers `in` (dict key, list element or
  substring, otherwise TypeError), `v[key]` (KeyError or TypeError),
  `.get` (AttributeError on a non-dict), `or` and truthiness.
- `decimal.dfy` (`Decimal`): `str()` of a status code, with its inverse.
- `file_names.dfy` (`FileNames`): `rsplit('.', 1)[0]`.
- `effects.dfy` (`Effects`): the calls into collaborators. These are HTTP
  requests, `print_stats` notifications and `reactor.update_timer`. They are
  recorded in order as a trace of effects.
- `status.dfy` (`Status`): `load_status`, the accessors and `get_status`'s
  report, as functions of the loaded status.
- `tracker.dfy` (`Tracker`): one tick as the function `Track`.
- `gateway.dfy` (`Gateway`): each command as a function of the tracking
  flag and the server's reply.
- `odyssey.dfy` (`OdysseyObject`): the class `Odyssey`. Its fields
  `printing` and `status` are updated in place by imperative methods, and a
  ghost field `log` holds the trace. Each method is proved equal to the
  function that specifies it. A client scenario at the end shows a start, a
  refused second start, and one completion noted over three `Idle` ticks.
- `session.dfy` (`Session`): sequences of ticks and commands. The lemmas
  show that completion and pause are edge-triggered. Each such notification
  needs a tick that saw a running print, or the tracking the session began
  with.

Behaviour of the source worth noting, which the model keeps:

- `load_status` returns any parsed JSON body whatever the HTTP status code.
  Only a body that does not parse becomes the `Error <code>` sentinel.
- The accessors read `layer`, `paused`, `print_data` and `status` at the top
  level of the loaded dict. The server nests a job's data under `"Printing"`,
  so a typical report reads as layer `None`, layer count 1 and no file
  (`Status.NestedReportIsNotRead`).
- `file_path` returns the server's `path` entry. It does not join
  `location_category` and `name`.
- A tracking tick checks `Idle` before `Printing`, and an untracked tick
  checks only `Printing`. A report holding both an `Idle` key and a running
  `Printing` entry therefore alternates: completion is noted on every second
  tick (`Tracker.IdleWithRunningPrintAlternates`).
- `print_status` has no `return`, so `is_active` is never true.
- `layer_count` falls back to 1 only when `print_data` is missing or falsy,
  or lacks the `layer_count` entry. A reported count of 0 is kept, and it makes `progress` raise
  ZeroDivisionError.
- Start POSTs to `/print/start` with the query parameters `file_path` and
  `location`. They are not part of the path.
- A leading slash in the file name is kept; only the last `.`-suffix is
  removed.

## Model

| member | source | states |
|---|---|---|
| `Status.LoadStatus` | klippy/extras/odyssey.py:76-86 | A parsed body is returned unchanged whatever the code. A failed request gives the communication-error sentinel. An unparsable body gives `{"Error <code>": {}}`. Neither sentinel contains `Idle` or `Printing`. |
| `Status.ErrorSentinelInjective` | klippy/extras/odyssey.py:82-84 | Distinct status codes give distinct error sentinels. |
| `Decimal.NatToString` | klippy/extras/odyssey.py:83 | The rendering of a code is a non-empty string of decimal digits, one digit long exactly for values below 10, with no leading zero. |
| `Decimal.DigitsValueOfNatToString` | klippy/extras/odyssey.py:83 | Reading the rendered digits back gives the code (round trip). |
| `Decimal.NatToStringInjective` | klippy/extras/odyssey.py:83 | Distinct codes render as distinct strings. |
| `Status.PrintData` | klippy/extras/odyssey.py:128-129 | Raises AttributeError exactly when the status is not a dict. The result is the `print_data` entry when that entry is truthy, and `{}` otherwise. |
| `Status.LayerCount` | klippy/extras/odyssey.py:110-111 | The result is 1 when `print_data` is missing or falsy, or is a dict without `layer_count`. It is the `layer_count` entry when present. A truthy non-dict `print_data`, or a non-dict status, raises AttributeError. |
| `Status.Layer` | klippy/extras/odyssey.py:107-108 | The result is the top-level `layer` entry, or None when it is missing. Raises AttributeError exactly on a non-dict status. |
| `Status.FilePosition` | klippy/extras/odyssey.py:116-117 | The file position is the layer. |
| `Status.IsPaused` | klippy/extras/odyssey.py:122-123 | Raises AttributeError exactly on a non-dict status. The result is the top-level `paused` entry, or False when it is missing. |
| `Status.PrintStatus` | klippy/extras/odyssey.py:125-126 | The result is None for every dict status, because the function has no `return`. Raises AttributeError exactly on a non-dict status. |
| `Status.IsActive` | klippy/extras/odyssey.py:119-120 | Never true. Raises AttributeError exactly on a non-dict status. |
| `Status.FileData` | klippy/extras/odyssey.py:98-105 | A non-dict status, or a truthy `print_data` that is not a dict, raises AttributeError. The result is `{}` when `print_data` is missing or falsy or has no `file_data`, and the `file_data` entry otherwise. |
| `Status.FileDataField` | klippy/extras/odyssey.py:98-105 | Succeeds exactly when `FileData` gives a dict, and is then that dict's entry for the key, or None when the key is missing. Every failure is AttributeError. |
| `Status.LocationCategory` | klippy/extras/odyssey.py:98-99 | Succeeds exactly when `FileData` gives a dict, and is then its `location_category` entry, or None when it is missing. Otherwise raises AttributeError (a non-dict status, `print_data` or `file_data`). |
| `Status.FileName` | klippy/extras/odyssey.py:101-102 | Succeeds exactly when `FileData` gives a dict, and is then its `name` entry, or None when it is missing. Otherwise raises AttributeError (a non-dict status, `print_data` or `file_data`). |
| `Status.FilePath` | klippy/extras/odyssey.py:104-105 | Succeeds exactly when `FileData` gives a dict, and is then its `path` entry, or None when it is missing. Otherwise raises AttributeError (a non-dict status, `print_data` or `file_data`). |
| `Status.Progress` | klippy/extras/odyssey.py:113-114 | A non-dict status or a truthy non-dict `print_data` raises AttributeError. Otherwise the result is `(layer or 0) / layer_count` as a numerator and denominator. A non-numeric operand raises TypeError, and a count of 0 raises ZeroDivisionError. Every result has a non-zero divisor, and with no layer and no `print_data` it is 0/1. |
| `Status.Report` | klippy/extras/odyssey.py:88-96 | A non-dict status raises AttributeError. On a dict, the query raises exactly when `file_path` or `progress` raises, with the first of these errors. Every report has status None and is inactive, and its file path, file position and progress are the accessors' values. |
| `Status.NestedReportIsNotRead` | klippy/extras/odyssey.py:88-129 | For every job nested under `"Printing"`, the query yields no file, layer None, progress 0/1 and an inactive job. `location_category` and `file_name` are None, `is_paused` is False and `layer_count` is 1. |
| `FileNames.LastIndexOf` | klippy/extras/odyssey.py:134 | The result is -1 or an index holding the character, and no later index holds it. |
| `FileNames.StripExtension` | klippy/extras/odyssey.py:134 | A name without `.` is unchanged. Otherwise the result is the prefix before a `.` after which no `.` follows. |
| `FileNames.StripExtensionOfJoined` | klippy/extras/odyssey.py:140 | Stripping `base + "." + ext`, where `ext` has no `.`, gives back `base`. |
| `FileNames.StripExtensionExample` | klippy/extras/odyssey.py:134 | `"a.b.sl1"` becomes `"a.b"`, and `"cube"` stays `"cube"`. |
| `Tracker.Track` | klippy/extras/odyssey.py:212-231 | While tracking, a returning tick asks for `eventtime+1`. `Idle` gives exactly one NoteComplete and ends tracking. Otherwise a truthy `paused` gives exactly one NotePause and ends tracking. Any other report that does not raise keeps tracking and notifies nothing. While not tracking, no notification is made, tracking starts exactly on a running print, and the wake time is +1 then and +10 otherwise. The tick raises exactly in the `TickRaises` cases, with TypeError or `KeyError('paused')`, and then changes nothing. |
| `Tracker.SentinelTickIsInert` | klippy/extras/odyssey.py:215-231 | A communication-error or `Error <code>` status keeps the flag, notifies nothing, and polls at +1 while tracking and +10 otherwise. |
| `Tracker.IdleWithRunningPrintAlternates` | klippy/extras/odyssey.py:215-229 | Every report with both `Idle` and a running `Printing` entry ends tracking with a NoteComplete on a tracking tick, and starts tracking again on an untracked tick. |
| `Gateway.Message` | klippy/extras/odyssey.py:143-162 | Busy reads "Odyssey Busy". Every other reported error is "Could not reach odyssey: " followed by its cause. |
| `Gateway.FileNotFoundIsDistinct` | klippy/extras/odyssey.py:153-156 | The 404 message of a start differs from every generic server-error message. |
| `Gateway.ReplyCause` | klippy/extras/odyssey.py:150-162 | Only HTTP 200 succeeds. A transport failure keeps its text. 404 is singled out only where asked. Every other code gives a server error with that code and reason. |
| `Gateway.StartStep` | klippy/extras/odyssey.py:143-162 | Never changes the flag. When busy it fails with Busy and makes no request. Otherwise the first effect is the POST to `/print/start` with `file_path` and `location`. It succeeds exactly on 200, and then makes SetCurrentFile, NoteStart and a wake to `NOW+1`, in that order. On failure there is no stats call and no wake. 404 gives FileNotFound. Any other non-200 code gives a server error with that code and reason. A transport failure is reported with its text. |
| `Gateway.CancelStep` | klippy/extras/odyssey.py:166-177 | Succeeds exactly on 200, and then makes NoteCancel and clears the flag, with no busy check. On failure the flag is unchanged and only the POST is made. A non-200 code (404 included) is reported as a server error with that code and reason. A transport failure is reported with its text. |
| `Gateway.PauseStep` | klippy/extras/odyssey.py:181-188 | Makes only the POST and never changes the flag. Succeeds exactly on 200. A non-200 code is reported as a server error with that code and reason. A transport failure is reported with its text. |
| `Gateway.ResumeStep` | klippy/extras/odyssey.py:192-201 | Never changes the flag. On 200 it makes NoteStart and a wake to `NOW`. On failure it makes only the POST. A non-200 code is reported as a server error with that code and reason. A transport failure is reported with its text. |
| `Gateway.StartArguments` | klippy/extras/odyssey.py:138-140 | LOCATION defaults to "Local". A missing file parameter is reported by name. The file path is the stripped parameter. |
| `Gateway.StartCommandStep` | klippy/extras/odyssey.py:132-141 | A missing file parameter fails before the busy check and makes no calls. Otherwise the command is `_START` on the parsed arguments. |
| `OdysseyObject.Odyssey.constructor` | klippy/extras/odyssey.py:30-32 | Starts untracked, with the empty status and no calls made. |
| `OdysseyObject.Odyssey.LoadStatus` | klippy/extras/odyssey.py:76-86 | Makes one GET and returns `Status.LoadStatus`. |
| `OdysseyObject.Odyssey.Tick` | klippy/extras/odyssey.py:212-231 | Stores the loaded status. The flag, the returned outcome and the appended calls are those of `Track` on the old flag. |
| `OdysseyObject.Odyssey.Start` | klippy/extras/odyssey.py:143-162 | The outcome and appended calls are `StartStep`'s, and the flag is untouched. |
| `OdysseyObject.Odyssey.CmdStart` | klippy/extras/odyssey.py:138-141 | Behaves as `StartCommandStep` with the PATH parameter. |
| `OdysseyObject.Odyssey.CmdSdcardPrintFile` | klippy/extras/odyssey.py:132-135 | Behaves as `StartCommandStep` with the FILENAME parameter. |
| `OdysseyObject.Odyssey.Cancel` | klippy/extras/odyssey.py:166-177 | The outcome, new flag and appended calls are `CancelStep`'s. |
| `OdysseyObject.Odyssey.Pause` | klippy/extras/odyssey.py:181-188 | The outcome and appended calls are `PauseStep`'s, and the flag is untouched. |
| `OdysseyObject.Odyssey.Resume` | klippy/extras/odyssey.py:192-201 | The outcome and appended calls are `ResumeStep`'s, and the flag is untouched. |
| `OdysseyObject.Odyssey.GetStatus` | klippy/extras/odyssey.py:88-96 | Stores the loaded status, makes one GET, and returns `Report` of it. |
| `Session.TickBound` | klippy/extras/odyssey.py:215-231 | Per tick, notifications plus the new flag never exceed the old flag plus whether a running print was seen. |
| `Session.StartNotifiesNothing` | klippy/extras/odyssey.py:143-162 | A start command never notifies completion or pause. |
| `Session.CommandBound` | klippy/extras/odyssey.py:143-201 | No command notifies completion or pause, and none starts tracking. |
| `Session.StepBound` | klippy/extras/odyssey.py:143-231 | The per-tick bound holds for every operation. |
| `Session.NotificationBound` | klippy/extras/odyssey.py:212-231 | Over any session, notifications plus the final flag never exceed the initial flag plus the number of ticks that saw a running print. |
| `Session.NoRepeatedNotifications` | klippy/extras/odyssey.py:215-231 | From an untracked state, with no tick seeing a running print, no notification is ever made and tracking stays off, whatever commands are issued. |
| `Session.CompletionNotedOnce` | klippy/extras/odyssey.py:215-223 | Ticks that all load the same `Idle` report with no running `Printing` entry, starting from tracking, give exactly one NoteComplete and no NotePause, and end untracked. |
| `Session.CancelSilencesTracker` | klippy/extras/odyssey.py:166-177 | An accepted cancel is noted and ends tracking. In the ticks and commands that follow, none of which sees a running print, no completion or pause is noted. |
| `Session.TrackingIsStable` | klippy/extras/odyssey.py:215-223 | Ticks that keep loading a running print whose report has no `Idle` key leave tracking on and make no `print_stats` call. |

## Left out

- `src/rp2040/usbserial.c`: USB hardware-register I/O that depends on memory-mapped hardware.
- `klippy/extras/timed_output_pin.py`: pin-driver glue that uses attributes it never defines.
- Command registration, the `virtual_sdcard` object substitution, configuration reading (`url`, `path`) and the unused `must_pause` field: these are wiring with no behaviour to state.
- `handle_shutdown`'s best-effort `POST /shutdown`, `cmd_STATUS`'s JSON printout and `stats`: these are output or fire-and-forget calls.
- The HTTP transport itself: each request's result is an input (`Fetched`, `Posted`), and a raised `requests` exception is represented by its text.
- JSON floating-point numbers: numbers are integers (booleans count as 0 and 1), and `progress` is kept as a numerator and denominator instead of a float.
- `eventtime` is a real number, so float rounding of `eventtime+1` and `eventtime+10` is not modelled.
- Reactor timer mechanics: a wake is recorded only as the `WakeTimer` effect with its wake time (`NOW+1` for start, `NOW` for resume). Sessions allow ticks in any order, which includes every schedule the reactor could run.
- What the reactor does with an exception that escapes a tick: the tick's outcome is `Raised` and a session ends there.
- The text of the G-code layer's missing-parameter error: that layer is not part of this model, so `Message` gives no text for it.

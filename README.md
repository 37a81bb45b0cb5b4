# Snowboy wake-word detector, modelled in Dafny

`SnowboyWakeWordDetector` listens to the microphone on a background worker
thread. It feeds fixed-size frames to the Snowboy hotword engine and calls
every registered callback when the engine recognises one of its models. This
project models the controller around those two collaborators:

- **Configuration** (`Configuration`, `Rendering`). The constructor turns the
  `model_paths` argument into a list. It turns the `sensitivity` argument into
  one string per model: a scalar is repeated once per path, and a sequence is
  converted item by item. It sets `enabled` to "the engine library loaded and
  at least one model path". `Rendering` gives the decimal text of an integer,
  which both `str(int)` and the callback label use. It also gives the
  comma-joined sensitivity string passed to the engine on line 107, and a
  `Split` on commas under which that string gives the list back. How the
  engine library itself reads the string is outside this model.
- **Control surface** (`Lifecycle`, `Detector.WakeWordDetector`). `start`,
  `stop`, `pause`, `resume` and `is_running` are guarded updates of `running`,
  `paused`, the worker thread and the `detector`/`audio`/`stream` handles. The
  class `WakeWordDetector` holds these as fields, and `Snapshot()` collects
  them into a `Lifecycle.Control` value. Each method's `ensures` says the new
  snapshot is the matching `Lifecycle` function of the old one. Lemmas about
  those functions state the multi-call properties: `stop` twice, pause then
  resume, restart after stop.
- **Callback dispatch** (`Dispatch`, `WakeWordDetector.TriggerCallbacks`).
  Callbacks are ids kept in registration order. Firing index `i` tries each
  callback once, in order. Whether a callback raises is chosen
  nondeterministically and recorded as a `Failed` event. The contract
  `Attempts(trace) == … + Dispatched(callbacks, modelPaths, i)` therefore holds
  whichever callbacks fail.
- **Detection loop** (`Worker`, `WakeWordDetector.DetectionLoop`). The loop is
  driven by a schedule of ticks. A tick is either one pass of the loop body,
  carrying the engine's answer for the frame or the point where an exception
  was raised (the read, the engine run, or the reset after the callbacks), or
  a call to
  `pause`/`resume`/`stop`/`on_detected` made by another thread between two
  passes. `Worker.Run` is the specification of the loop. The method returns the
  fired indices and the number of frames read, and it is proved equal to
  `Run`.

The worker thread, the audio device and the engine are not modelled as code.
The handles are opaque `Handle` values that the worker's entry receives as a
`Setup` argument. The engine's answers arrive in the schedule. Logging is
dropped. Whether the engine library loaded is the constructor parameter
`engineAvailable`.

A sensitivity list whose length differs from the number of models might be
expected to be rejected at construction. The code does no such check (line
31), and the model follows the code:
`Configuration.ItemsConverted` gives one string per item, whatever the number
of paths.

## Model

| member | source | states |
|---|---|---|
| `Detector.WakeWordDetector.constructor` | src/audio_processing/snowboy_wake_word_detector.py:18-42 | paths are `model_paths or []`; the sensitivity list is the normalised one; `enabled` is engine-available and at least one path; nothing running, no handles, no callbacks |
| `Configuration.ScalarBroadcast` | src/audio_processing/snowboy_wake_word_detector.py:28-29 | a scalar sensitivity gives exactly one copy of its string form per model path |
| `Configuration.ItemsConverted` | src/audio_processing/snowboy_wake_word_detector.py:30-31 | a sequence gives one string per item, in the same order, and its length is not checked against the paths |
| `Configuration.EnabledIff` | src/audio_processing/snowboy_wake_word_detector.py:27-42 | `enabled` holds exactly when the engine is present and the path list is non-empty; an absent path list disables |
| `Rendering.Decimal` | src/audio_processing/snowboy_wake_word_detector.py:97 | the text of an index is a non-empty run of digits without a leading zero |
| `Rendering.DecimalRoundTrip` | src/audio_processing/snowboy_wake_word_detector.py:97 | reading the decimal text back gives the number |
| `Rendering.DecimalInjective` | src/audio_processing/snowboy_wake_word_detector.py:97 | distinct numbers have distinct decimal texts |
| `Rendering.IntDecimalHasNo` | src/audio_processing/snowboy_wake_word_detector.py:29 | `str` of an integer holds only digits and a minus sign |
| `Configuration.StrCommaFree` | src/audio_processing/snowboy_wake_word_detector.py:29 | no scalar sensitivity renders with a comma: integers and booleans never do, and a float's text is taken to hold none |
| `Rendering.SplitJoin` | src/audio_processing/snowboy_wake_word_detector.py:107 | splitting a comma-joined non-empty list whose items hold no comma gives the list back |
| `Configuration.EngineSensitivityRoundTrip` | src/audio_processing/snowboy_wake_word_detector.py:106-107 | splitting the comma-joined string of line 107 on commas gives back exactly the normalised sensitivity list, when it is non-empty and comma-free |
| `Configuration.ScalarSplitsPerModel` | src/audio_processing/snowboy_wake_word_detector.py:28-29 | for a scalar on at least one model, splitting the joined string gives one copy of the scalar's text per model |
| `Configuration.LabelInjective` | src/audio_processing/snowboy_wake_word_detector.py:97 | the callback label determines the fired index |
| `Configuration.LabelEndsWithIndex` | src/audio_processing/snowboy_wake_word_detector.py:97 | the label is the fixed prefix followed by the index's decimal text |
| `Detector.WakeWordDetector.Start` | src/audio_processing/snowboy_wake_word_detector.py:44-56 | the returned flag and new state are `Lifecycle.Start` of the old state; the invariant is kept |
| `Lifecycle.StartWhenDisabled` | src/audio_processing/snowboy_wake_word_detector.py:44-47 | when disabled, `start` returns false and changes nothing |
| `Lifecycle.StartWhenRunning` | src/audio_processing/snowboy_wake_word_detector.py:48-50 | when already running (paused or not), `start` returns true and changes nothing: no new worker, `paused` untouched |
| `Lifecycle.StartFromStopped` | src/audio_processing/snowboy_wake_word_detector.py:51-56 | otherwise `start` returns true, is running and not paused, creates exactly one new worker, and keeps the handles |
| `Lifecycle.RestartAfterStop` | src/audio_processing/snowboy_wake_word_detector.py:44-75 | `start` after `stop` runs again with a worker different from the previous one, and no stream or device yet |
| `Detector.WakeWordDetector.Stop` | src/audio_processing/snowboy_wake_word_detector.py:58-76 | the new state is `Lifecycle.Stop` of the old one, from any state whose worker was created by this detector, and the invariant holds after it |
| `Lifecycle.StopReleases` | src/audio_processing/snowboy_wake_word_detector.py:58-75 | after `stop`: not running, no stream, no device; `paused`, the worker and the engine handle untouched |
| `Lifecycle.StopIdempotent` | src/audio_processing/snowboy_wake_word_detector.py:58-75 | a second `stop` gives the same state, and `stop` before any `start` changes nothing |
| `Detector.WakeWordDetector.Pause` | src/audio_processing/snowboy_wake_word_detector.py:78-81 | the new state is `Lifecycle.Pause` of the old one |
| `Detector.WakeWordDetector.Resume` | src/audio_processing/snowboy_wake_word_detector.py:83-86 | the new state is `Lifecycle.Resume` of the old one |
| `Lifecycle.PauseOnlyWhileRunning` | src/audio_processing/snowboy_wake_word_detector.py:78-81 | `pause` changes the state exactly when running and not paused, and then only sets `paused` |
| `Lifecycle.ResumeOnlyWhilePaused` | src/audio_processing/snowboy_wake_word_detector.py:83-86 | `resume` changes the state exactly when running and paused, and then only clears `paused` |
| `Lifecycle.PauseThenResume` | src/audio_processing/snowboy_wake_word_detector.py:78-86 | pause followed by resume restores the exact state, handles included |
| `Lifecycle.PauseKeepsHandles` | src/audio_processing/snowboy_wake_word_detector.py:78-86 | neither `pause` nor `resume` touches the engine, device or stream |
| `Lifecycle.IsRunningExactly` | src/audio_processing/snowboy_wake_word_detector.py:88-89 | `is_running` is running and not paused: false after `pause`, equal to `running` after `resume` |
| `Lifecycle.TransitionsKeepInvariant` | src/audio_processing/snowboy_wake_word_detector.py:44-86 | every control call keeps "the current worker is one already created, running only when enabled, handles held only while running" |
| `Detector.WakeWordDetector.OnDetected` | src/audio_processing/snowboy_wake_word_detector.py:91-92 | the callback is appended at the end of the list |
| `Detector.WakeWordDetector.TriggerCallbacks` | src/audio_processing/snowboy_wake_word_detector.py:94-99 | the trace only grows, and whichever callbacks raise, the attempts made are exactly one per registered callback in registration order |
| `Dispatch.DispatchedInOrder` | src/audio_processing/snowboy_wake_word_detector.py:94-97 | for an index with a model path, callback k is called with that path and the index's label |
| `Dispatch.DispatchedOutOfRange` | src/audio_processing/snowboy_wake_word_detector.py:94-99 | for an index with no model path, every callback's attempt fails on the lookup and none is called |
| `Detector.WakeWordDetector.HandlePass` | src/audio_processing/snowboy_wake_word_detector.py:119-125 | the trace only grows, and an unpaused pass does exactly what `Worker.Pass` says: a failed read counts no frame; a failed engine run counts the frame and fires nothing; an answer `ans > 0` fires index `ans - 1`, making one attempt per callback, then resets the engine; a failed reset keeps the frame, the firing and the attempts but not the reset; any exception ends the loop |
| `Detector.WakeWordDetector.DetectionStep` | src/audio_processing/snowboy_wake_word_detector.py:116-125 | the trace only grows, and one tick changes the fields, the fired indices, the frame count and the attempts exactly as `Worker.Step` says |
| `Detector.WakeWordDetector.RunTicks` | src/audio_processing/snowboy_wake_word_detector.py:115-125 | the trace only grows, and the loop over a schedule leaves the fields, fired indices, frames and attempts that `Worker.Run` gives, keeping the invariant's numbering and enabled parts |
| `Detector.WakeWordDetector.DetectionLoop` | src/audio_processing/snowboy_wake_word_detector.py:101-129 | the intended exit (see Findings): the trace only grows; fired indices, frames read, callbacks, attempts and final state are those of `Worker.Run` then `Worker.Exit`, and the invariant holds at exit; as written see `Lifecycle.StopOnWorkerAsWritten` |
| `Worker.RunAppend` | src/audio_processing/snowboy_wake_word_detector.py:116 | running a schedule in two parts is running it whole |
| `Worker.RunHalted` | src/audio_processing/snowboy_wake_word_detector.py:116 | once the loop has ended (not running, or an exception), no later tick changes anything |
| `Worker.StopCallEndsLoop` | src/audio_processing/snowboy_wake_word_detector.py:58-59 | a `stop` from another thread ends the loop with the handles released, and later ticks are not taken |
| `Worker.PausedReadsNothing` | src/audio_processing/snowboy_wake_word_detector.py:117-119 | while paused, passes of the loop read no frame, fire nothing and change nothing |
| `Worker.OneFramePerPass` | src/audio_processing/snowboy_wake_word_detector.py:120-125 | unpaused, each pass reads one frame; each `ans > 0` fires index `ans - 1` and then resets the engine; other answers fire nothing |
| `Worker.FaultEndsLoop` | src/audio_processing/snowboy_wake_word_detector.py:119-126 | an exception in a pass ends the loop and later ticks are not taken; a failed read counts no frame, a failed engine run counts the frame and fires nothing, a failed reset keeps the frame, the fired index and the callback attempts |
| `Worker.RunBounds` | src/audio_processing/snowboy_wake_word_detector.py:116-125 | at most one frame per tick and one firing per frame; fired indices and callbacks are only appended to |
| `Worker.ExitReleases` | src/audio_processing/snowboy_wake_word_detector.py:128-129 | the intended exit (see Findings): a loop that has ended through a completing `stop` leaves no stream and no device, and the invariant holds; as written see `Lifecycle.StopOnWorkerAsWritten` |
| `Lifecycle.StopOnWorkerAsWritten` | src/audio_processing/snowboy_wake_word_detector.py:58-61 | `stop` called by the worker on itself raises at the join, having only cleared `running` |
| `Lifecycle.WorkerExitLeaksHandles` | src/audio_processing/snowboy_wake_word_detector.py:126-129 | as written, a worker that exits on its own stays stopped while still holding the stream and the device |
| `Worker.ReadFailureLeaksStream` | src/audio_processing/snowboy_wake_word_detector.py:105-129 | as written, from construction through `start`, worker entry and a first pass whose read raises: the loop ends with no frame read and nothing fired, and the worker's own `stop` raises while the stream and the device are still held |

## Findings

| source | as written | input that shows it | evidently intended | confidence | as-written member | corrected member |
|---|---|---|---|---|---|---|
| src/audio_processing/snowboy_wake_word_detector.py:128-129 | the worker's `finally` calls `stop()`, which joins `detection_thread`; that thread is the worker itself and still alive, so `join` raises "cannot join current thread" before the stream and the device are released | a read error or a failed device open while running, with no `stop()` from another thread | the worker's exit releases the stream and the device, so no handle is held while not running | not executed; high, since a Python thread can never join itself | `Lifecycle.StopOnWorkerAsWritten` | `Detector.WakeWordDetector.DetectionLoop` |

When another thread calls `stop()`, that caller releases the handles after its
own join, so the worker's failing `stop()` does no harm there.
`Lifecycle.WorkerExitLeaksHandles` and `Worker.ReadFailureLeaksStream`
exhibit the leak. `DetectionLoop` models the intended exit: it ends in `Stop`,
and `Worker.ExitReleases` shows that this restores the invariant.

## Left out

- Audio I/O: opening the PyAudio device and stream, `read` with overflow tolerance, `is_active`/`stop_stream`/`close`/`terminate`. Handles are opaque values; a failed release is logged and the handle is cleared all the same, which is what the model does.
- The Snowboy engine: constructing `HotwordDetector`, `RunDetection` and `Reset`. Answers and engine exceptions come from the schedule; a reset is an `EngineReset` trace event.
- How the engine library parses the joined sensitivity string (including any wrapping or repeating of a single value) is not modelled; the round-trip lemmas are about `Rendering.Split`, not about the engine.
- Threading and timing: the daemon thread, `join(timeout=1.0)`, `time.sleep(0.1)` and `stream_lock`. Calls from other threads are modelled only between two passes of the loop. Races inside a pass are not modelled. Neither is a `start` made while a previous worker outlives the join timeout, which could leave two workers running.
- Logging, and the optional import of the engine library. The import becomes the `engineAvailable` constructor parameter.
- Detector.WakeWordDetector.DetectionLoop: a setup failure is one `SetupFailed` case. The order in which the engine, the device and the stream are created before one of them fails is not modelled.
- Detector.WakeWordDetector.DetectionLoop: a schedule that ends while the loop is still running leaves the worker inside the loop. The source would go on reading frames.
- `sample_rate` and `buffer_size` are stored by the constructor and used only for device I/O.
- `start`'s unused `audio_codec_or_stream` parameter. A `sensitivity` of `None` or some other non-iterable makes the constructor raise a `TypeError`; that case is not modelled.
- Configuration.Str: a float's text is taken as given (`Float(repr)`), because Python's float formatting is not modelled; `Configuration.FloatText` states the one property of it used, that it holds no comma.
- Callbacks are ids. What a callback does besides raising or returning is not modelled.

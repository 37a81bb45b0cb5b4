/** The detection loop as a function of what happens while it runs: each
    tick is either one pass of the loop body on the worker thread, or a call
    of the control surface made by another thread between two passes. */
module Worker {
  import opened Wrappers
  import opened Lifecycle
  import opened Dispatch

  /** What one pass of the loop body gives: the engine's answer (positive:
      model `ans - 1` matched), or an exception from reading the frame, from
      running the engine on it, or from resetting the engine after model
      `index` fired and its callbacks were called. */
  datatype Outcome =
    | Answer(ans: int)
    | ReadFault
    | EngineFault
    | ResetFault(index: nat)

  datatype Tick =
    | Iteration(outcome: Outcome)
    | PauseCall
    | ResumeCall
    | StopCall
    | Subscribe(cb: CallbackId)

  /** The worker's entry: creating the engine, the device and the stream
      either succeeds or raises. */
  datatype Setup = Opened(detector: Handle, audio: Handle, stream: Handle) | SetupFailed

  /** Everything the loop changes or reports: the control fields, the
      callback list, the fired indices, the frames read, the attempts made on
      callbacks, and whether an exception ended the loop. */
  datatype WorkerState = WorkerState(
    control: Control,
    callbacks: seq<CallbackId>,
    fired: seq<nat>,
    frames: nat,
    attempts: seq<Event>,
    failed: bool)

  /** The loop keeps going while running and no exception was raised. */
  predicate Looping(w: WorkerState) {
    w.control.running && !w.failed
  }

  /** The state the loop starts from. */
  function Begin(c: Control, cbs: seq<CallbackId>, setup: Setup): WorkerState {
    match setup
    case Opened(d, a, s) => WorkerState(Enter(c, d, a, s), cbs, [], 0, [], false)
    case SetupFailed => WorkerState(c, cbs, [], 0, [], true)
  }

  /** The attempts and the engine reset made when the engine answers `ans`. */
  function Detection(cbs: seq<CallbackId>, paths: seq<string>, ans: int): seq<Event> {
    if ans > 0 then Dispatched(cbs, paths, ans - 1) + [EngineReset] else []
  }

  /** One pass of the loop body while not paused. Whatever an exception
      interrupts, the frame read and the callbacks called before it stay done. */
  function Pass(paths: seq<string>, w: WorkerState, o: Outcome): WorkerState {
    match o
    case ReadFault => w.(failed := true)
    case EngineFault => w.(frames := w.frames + 1, failed := true)
    case Answer(ans) =>
      w.(frames := w.frames + 1,
         fired := if ans > 0 then w.fired + [ans - 1] else w.fired,
         attempts := w.attempts + Detection(w.callbacks, paths, ans))
    case ResetFault(index) =>
      w.(frames := w.frames + 1,
         fired := w.fired + [index],
         attempts := w.attempts + Dispatched(w.callbacks, paths, index),
         failed := true)
  }

  /** One tick. Once the loop has ended, nothing more happens to it. */
  function Step(paths: seq<string>, w: WorkerState, t: Tick): WorkerState {
    if !Looping(w) then w
    else match t
      case PauseCall => w.(control := Pause(w.control))
      case ResumeCall => w.(control := Resume(w.control))
      case StopCall => w.(control := Stop(w.control))
      case Subscribe(cb) => w.(callbacks := w.callbacks + [cb])
      case Iteration(o) => if w.control.paused then w else Pass(paths, w, o)
  }

  /** The ticks in order. */
  function Run(paths: seq<string>, w: WorkerState, schedule: seq<Tick>): WorkerState
    decreases |schedule|
  {
    if schedule == [] then w
    else Step(paths, Run(paths, w, schedule[..|schedule| - 1]), schedule[|schedule| - 1])
  }

  /** The `finally` clause: a loop that ended calls `stop`; a loop that is
      still going has not reached it. */
  function Exit(w: WorkerState): Control {
    if Looping(w) then w.control else Stop(w.control)
  }

  /** The positive answers, each mapped to the model index it names. */
  function FiredIndices(answers: seq<int>): seq<nat>
    decreases |answers|
  {
    if answers == [] then []
    else
      var ans := answers[|answers| - 1];
      FiredIndices(answers[..|answers| - 1]) + (if ans > 0 then [ans - 1] else [])
  }

  /** The attempts made for a run of answers. */
  function Detections(cbs: seq<CallbackId>, paths: seq<string>, answers: seq<int>): seq<Event>
    decreases |answers|
  {
    if answers == [] then []
    else Detections(cbs, paths, answers[..|answers| - 1]) + Detection(cbs, paths, answers[|answers| - 1])
  }

  /** The passes of the loop for a run of answers, with no other calls between. */
  function Iterations(answers: seq<int>): (ticks: seq<Tick>)
  {
    seq(|answers|, k requires 0 <= k < |answers| => Iteration(Answer(answers[k])))
  }

  lemma {:induction false} RunAppend(paths: seq<string>, w: WorkerState, s: seq<Tick>, t: seq<Tick>)
    ensures Run(paths, w, s + t) == Run(paths, Run(paths, w, s), t)
    decreases |t|
  {
    if t == [] {
      assert s + t == s;
    } else {
      var t' := t[..|t| - 1];
      assert (s + t)[..|s + t| - 1] == s + t';
      assert (s + t)[|s + t| - 1] == t[|t| - 1];
      RunAppend(paths, w, s, t');
    }
  }

  /** After the loop has ended, no later tick changes anything. */
  lemma {:induction false} RunHalted(paths: seq<string>, w: WorkerState, s: seq<Tick>)
    requires !Looping(w)
    ensures Run(paths, w, s) == w
    decreases |s|
  {
    if s != [] {
      RunHalted(paths, w, s[..|s| - 1]);
    }
  }

  /** A stop call ends the loop: handles are released and later ticks are
      not taken. */
  lemma StopCallEndsLoop(paths: seq<string>, w: WorkerState, s: seq<Tick>)
    requires Looping(w)
    ensures Run(paths, w, [StopCall] + s) == w.(control := Stop(w.control))
  {
    assert [StopCall][..0] == [];
    RunAppend(paths, w, [StopCall], s);
    RunHalted(paths, w.(control := Stop(w.control)), s);
  }

  /** While paused, passes of the loop read no frame, fire nothing and change
      nothing. */
  lemma {:induction false} PausedReadsNothing(paths: seq<string>, w: WorkerState, s: seq<Tick>)
    requires w.control.paused
    requires forall k :: 0 <= k < |s| ==> s[k].Iteration?
    ensures Run(paths, w, s) == w
    decreases |s|
  {
    if s != [] {
      PausedReadsNothing(paths, w, s[..|s| - 1]);
    }
  }

  /** While running and not paused, every pass reads exactly one frame; an
      answer `ans > 0` fires index `ans - 1` and then resets the engine, and
      any other answer fires nothing. */
  lemma {:induction false} OneFramePerPass(paths: seq<string>, w: WorkerState, answers: seq<int>)
    requires Looping(w) && !w.control.paused
    ensures Run(paths, w, Iterations(answers)) ==
      w.(frames := w.frames + |answers|,
         fired := w.fired + FiredIndices(answers),
         attempts := w.attempts + Detections(w.callbacks, paths, answers))
    decreases |answers|
  {
    if answers != [] {
      var prefix := answers[..|answers| - 1];
      assert Iterations(answers)[..|answers| - 1] == Iterations(prefix);
      OneFramePerPass(paths, w, prefix);
    }
  }

  /** An exception in a pass ends the loop, and no later tick is taken. A
      failed read counts no frame; a failed engine run counts the frame and
      fires nothing; a failed reset comes after the frame was counted, the
      index recorded and every callback called, without the reset itself. */
  lemma FaultEndsLoop(paths: seq<string>, w: WorkerState, o: Outcome, s: seq<Tick>)
    requires Looping(w) && !w.control.paused && !o.Answer?
    ensures var r := Run(paths, w, [Iteration(o)] + s);
      r.failed && r.control == w.control && r.callbacks == w.callbacks &&
      r.frames == (if o.ReadFault? then w.frames else w.frames + 1) &&
      r.fired == (if o.ResetFault? then w.fired + [o.index] else w.fired) &&
      r.attempts == (if o.ResetFault? then w.attempts + Dispatched(w.callbacks, paths, o.index) else w.attempts)
  {
    assert [Iteration(o)][..0] == [];
    RunAppend(paths, w, [Iteration(o)], s);
    RunHalted(paths, Pass(paths, w, o), s);
  }

  /** A run reads at most one frame per tick and fires at most once per frame,
      and callbacks are only ever added at the end. */
  lemma {:induction false} RunBounds(paths: seq<string>, w: WorkerState, s: seq<Tick>)
    ensures var r := Run(paths, w, s);
      w.frames <= r.frames <= w.frames + |s| &&
      |r.fired| - |w.fired| <= r.frames - w.frames &&
      w.fired <= r.fired && w.callbacks <= r.callbacks
    decreases |s|
  {
    if s != [] {
      RunBounds(paths, w, s[..|s| - 1]);
    }
  }

  /** The intended exit: the loop ends through a `stop` that completes, so a
      finished worker holds no stream and no device, and the invariant of the
      control state holds again. As written, `stop` raises on the worker
      thread before releasing anything (Lifecycle.StopOnWorkerAsWritten). */
  lemma ExitReleases(enabled: bool, w: WorkerState)
    requires !Looping(w)
    requires Numbered(w.control) && (w.control.running ==> enabled)
    ensures !Exit(w).running && Exit(w).audio.None? && Exit(w).stream.None?
    ensures Invariant(enabled, Exit(w))
  {
  }

  /** As written, from construction: `start`, worker entry, a first pass whose
      read raises, then the worker's own call of `stop`, which raises before
      releasing anything; whatever follows is not taken. */
  lemma ReadFailureLeaksStream(paths: seq<string>, cbs: seq<CallbackId>, h: Handle, s: seq<Tick>)
    ensures var w := Run(paths, Begin(Start(true, Initial()).1, cbs, Opened(h, h, h)),
                         [Iteration(ReadFault)] + s);
      !Looping(w) && w.frames == 0 && w.fired == [] &&
      var (raised, d) := StopOnWorkerAsWritten(w.control);
      raised && !IsRunning(d) && d.stream == Some(h) && d.audio == Some(h) && !Invariant(true, d)
  {
    FaultEndsLoop(paths, Begin(Start(true, Initial()).1, cbs, Opened(h, h, h)), ReadFault, s);
  }
}

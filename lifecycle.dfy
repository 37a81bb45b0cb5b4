/** The detector's control state and the transitions its control surface
    makes on it: `start`, `stop`, `pause`, `resume` and the `is_running`
    query. The class in module Detector is specified by these functions. */
module Lifecycle {
  import opened Wrappers

  /** An opaque resource: the engine, the audio device or its stream. */
  datatype Handle = Handle(id: nat)

  /** A worker thread, numbered in the order the detector created them. */
  type ThreadId = nat

  /** Every field the control surface and the worker update. */
  datatype Control = Control(
    running: bool,
    paused: bool,
    thread: Option<ThreadId>,
    threadsStarted: nat,
    detector: Option<Handle>,
    audio: Option<Handle>,
    stream: Option<Handle>)

  /** The state right after construction: nothing started, nothing held. */
  function Initial(): Control {
    Control(false, false, None, 0, None, None, None)
  }

  /** The current worker is one of those created so far, so the next one
      created is new. */
  predicate Numbered(c: Control) {
    c.thread.Some? ==> c.thread.value < c.threadsStarted
  }

  /** Running only when enabled, and the audio handles held only while
      detection runs. */
  ghost predicate Invariant(enabled: bool, c: Control) {
    Numbered(c) &&
    (c.running ==> enabled) &&
    (c.running || (c.audio.None? && c.stream.None?))
  }

  /** `start`: refuses when disabled, does nothing when already running, and
      otherwise sets running, clears paused and creates one new worker.
      The first component is the returned flag. */
  function Start(enabled: bool, c: Control): (bool, Control) {
    if !enabled then (false, c)
    else if c.running then (true, c)
    else (true, c.(running := true, paused := false,
                   thread := Some(c.threadsStarted), threadsStarted := c.threadsStarted + 1))
  }

  /** `stop` called from a thread other than the worker: it clears running,
      waits for the worker, and releases the stream and the audio device. */
  function Stop(c: Control): Control {
    c.(running := false, audio := None, stream := None)
  }

  /** `pause`: takes effect only while running and not paused. */
  function Pause(c: Control): Control {
    if c.running && !c.paused then c.(paused := true) else c
  }

  /** `resume`: takes effect only while running and paused. */
  function Resume(c: Control): Control {
    if c.running && c.paused then c.(paused := false) else c
  }

  /** `is_running`. */
  predicate IsRunning(c: Control) {
    c.running && !c.paused
  }

  /** The worker's entry: the engine, the device and its stream are created. */
  function Enter(c: Control, detector: Handle, audio: Handle, stream: Handle): Control {
    c.(detector := Some(detector), audio := Some(audio), stream := Some(stream))
  }

  /** `stop` as written, when the worker thread itself calls it on its way out:
      `detection_thread` is then the calling thread and is alive, so joining it
      raises before anything is released. The first component says whether
      `stop` raised. */
  function StopOnWorkerAsWritten(c: Control): (bool, Control) {
    if c.thread.Some? then (true, c.(running := false)) else (false, Stop(c))
  }

  lemma StartWhenDisabled(c: Control)
    ensures Start(false, c) == (false, c)
  {
  }

  lemma StartWhenRunning(c: Control)
    requires c.running
    ensures Start(true, c) == (true, c)
  {
  }

  lemma StartFromStopped(c: Control)
    requires !c.running
    ensures var (ok, d) := Start(true, c);
      ok && IsRunning(d) && d.threadsStarted == c.threadsStarted + 1 &&
      d.thread == Some(c.threadsStarted) &&
      d.detector == c.detector && d.audio == c.audio && d.stream == c.stream
  {
  }

  /** `start` after `stop` runs again, with a worker it has not used before. */
  lemma RestartAfterStop(c: Control)
    requires Numbered(c)
    ensures var (ok, d) := Start(true, Stop(c));
      ok && IsRunning(d) && d.thread == Some(c.threadsStarted) && d.thread != c.thread &&
      Numbered(d) && d.audio.None? && d.stream.None?
  {
  }

  lemma StopReleases(c: Control)
    ensures !Stop(c).running && !IsRunning(Stop(c))
    ensures Stop(c).audio.None? && Stop(c).stream.None?
    ensures Stop(c).paused == c.paused && Stop(c).thread == c.thread && Stop(c).detector == c.detector
  {
  }

  lemma StopIdempotent(c: Control)
    ensures Stop(Stop(c)) == Stop(c)
    ensures Stop(Initial()) == Initial()
  {
  }

  lemma PauseOnlyWhileRunning(c: Control)
    ensures Pause(c) != c <==> c.running && !c.paused
    ensures Pause(c) != c ==> Pause(c) == c.(paused := true)
  {
  }

  lemma ResumeOnlyWhilePaused(c: Control)
    ensures Resume(c) != c <==> c.running && c.paused
    ensures Resume(c) != c ==> Resume(c) == c.(paused := false)
  {
  }

  /** Pausing and resuming keeps the same engine, device and stream. */
  lemma PauseThenResume(c: Control)
    requires c.running && !c.paused
    ensures Resume(Pause(c)) == c
  {
  }

  lemma PauseKeepsHandles(c: Control)
    ensures var d := Pause(c); d.detector == c.detector && d.audio == c.audio && d.stream == c.stream
    ensures var d := Resume(c); d.detector == c.detector && d.audio == c.audio && d.stream == c.stream
  {
  }

  lemma IsRunningExactly(c: Control)
    ensures IsRunning(c) <==> c.running && !c.paused
    ensures IsRunning(Pause(c)) == false
    ensures IsRunning(Resume(c)) == c.running
  {
  }

  lemma TransitionsKeepInvariant(enabled: bool, c: Control)
    requires Invariant(enabled, c)
    ensures Invariant(enabled, Start(enabled, c).1)
    ensures Invariant(enabled, Pause(c)) && Invariant(enabled, Resume(c))
    ensures Invariant(enabled, Stop(c))
  {
  }

  /** As written, a worker that exits on its own (after a read error or a
      failed device open) leaves running false while still holding the
      stream and the device. */
  lemma WorkerExitLeaksHandles(enabled: bool, c: Control)
    requires c.thread.Some? && c.stream.Some?
    ensures var (raised, d) := StopOnWorkerAsWritten(c);
      raised && !d.running && d.stream == c.stream && d.audio == c.audio &&
      !Invariant(enabled, d)
  {
  }
}

/** The wake-word detector object: its configuration, its control fields,
    the callback list, and the detection loop its worker thread runs. */
module Detector {
  import opened Wrappers
  import opened Configuration
  import opened Lifecycle
  import opened Dispatch
  import opened Worker

  class WakeWordDetector {
    const modelPaths: seq<string>
    const sensitivity: seq<string>
    const sampleRate: int
    const bufferSize: int
    /** Whether the engine library could be loaded. */
    const engineAvailable: bool
    const enabled: bool

    var callbacks: seq<CallbackId>
    var running: bool
    var paused: bool
    var detectionThread: Option<ThreadId>
    var threadsStarted: nat
    var detector: Option<Handle>
    var audio: Option<Handle>
    var stream: Option<Handle>
    /** What was done with callbacks and the engine, in order. */
    var trace: seq<Event>

    function Snapshot(): Control
      reads this
    {
      Control(running, paused, detectionThread, threadsStarted, detector, audio, stream)
    }

    ghost predicate Valid()
      reads this
    {
      Invariant(enabled, Snapshot())
    }

    predicate IsRunning()
      reads this
    {
      Lifecycle.IsRunning(Snapshot())
    }

    constructor (modelPathsArg: Option<seq<string>>, sensitivityArg: SensitivityArg,
                 sampleRate: int, bufferSize: int, engineAvailable: bool)
      ensures Valid()
      ensures modelPaths == ModelPaths(modelPathsArg)
      ensures sensitivity == Sensitivities(modelPaths, sensitivityArg)
      ensures this.sampleRate == sampleRate && this.bufferSize == bufferSize
      ensures this.engineAvailable == engineAvailable
      ensures enabled == Enabled(engineAvailable, modelPaths)
      ensures Snapshot() == Initial() && callbacks == [] && trace == []
    {
      var paths := ModelPaths(modelPathsArg);
      modelPaths := paths;
      sensitivity := Sensitivities(paths, sensitivityArg);
      this.sampleRate := sampleRate;
      this.bufferSize := bufferSize;
      this.engineAvailable := engineAvailable;
      callbacks := [];
      running := false;
      paused := false;
      detectionThread := None;
      threadsStarted := 0;
      audio := None;
      stream := None;
      detector := None;
      trace := [];
      enabled := Enabled(engineAvailable, paths);
    }

    method Start() returns (ok: bool)
      requires Valid()
      modifies this`running, this`paused, this`detectionThread, this`threadsStarted
      ensures Valid()
      ensures (ok, Snapshot()) == Lifecycle.Start(enabled, old(Snapshot()))
    {
      if !enabled {
        return false;
      }
      if running {
        return true;
      }
      running := true;
      paused := false;
      detectionThread := Some(threadsStarted);
      threadsStarted := threadsStarted + 1;
      return true;
    }

    /** `stop`: clears running and releases the stream and the device. Closing
        either one may fail; the failure is logged and the field is cleared
        all the same. The worker's own exit path also ends here (see
        DetectionLoop). */
    method Stop()
      requires Numbered(Snapshot())
      modifies this`running, this`audio, this`stream
      ensures Valid()
      ensures Snapshot() == Lifecycle.Stop(old(Snapshot()))
    {
      running := false;
      stream := None;
      audio := None;
    }

    method Pause()
      requires Valid()
      modifies this`paused
      ensures Valid()
      ensures Snapshot() == Lifecycle.Pause(old(Snapshot()))
    {
      if running && !paused {
        paused := true;
      }
    }

    method Resume()
      requires Valid()
      modifies this`paused
      ensures Valid()
      ensures Snapshot() == Lifecycle.Resume(old(Snapshot()))
    {
      if running && paused {
        paused := false;
      }
    }

    method OnDetected(cb: CallbackId)
      modifies this`callbacks
      ensures callbacks == old(callbacks) + [cb]
    {
      callbacks := callbacks + [cb];
    }

    /** Calls every registered callback for model `index`. Whether a callback
        raises is not up to the detector, so it is chosen arbitrarily here; a
        callback that raises is logged and the next one is still called. */
    method TriggerCallbacks(index: nat)
      modifies this`trace
      ensures old(trace) <= trace
      ensures Attempts(trace) == Attempts(old(trace)) + Dispatched(callbacks, modelPaths, index)
    {
      var k := 0;
      while k < |callbacks|
        invariant 0 <= k <= |callbacks|
        invariant old(trace) <= trace
        invariant Attempts(trace) == Attempts(old(trace)) + Dispatched(callbacks[..k], modelPaths, index)
      {
        var cb := callbacks[k];
        DispatchedExtend(callbacks, modelPaths, index, k);
        if index < |modelPaths| {
          trace := trace + [Invoked(cb, modelPaths[index], Label(index))];
          var raised: bool := *;
          if raised {
            trace := trace + [Failed(cb)];
          }
        } else {
          trace := trace + [Unresolved(cb)];
        }
        k := k + 1;
      }
      assert callbacks[..k] == callbacks;
    }

    /** One pass of the loop body while not paused: read a frame, run the
        engine on it, and on a positive answer `ans` fire index `ans - 1` and
        reset the engine. `o` says which of these raises, if any. */
    method HandlePass(ghost w: WorkerState, ghost base: seq<Event>, o: Outcome,
                      fired: seq<nat>, framesRead: nat)
      returns (failed': bool, fired': seq<nat>, framesRead': nat)
      requires !w.failed && callbacks == w.callbacks && fired == w.fired && framesRead == w.frames
      requires Attempts(trace) == base + w.attempts
      modifies this`trace
      ensures old(trace) <= trace
      ensures var w' := Pass(modelPaths, w, o);
        failed' == w'.failed && fired' == w'.fired && framesRead' == w'.frames &&
        Attempts(trace) == base + w'.attempts
    {
      failed', fired', framesRead' := false, fired, framesRead;
      if o.ReadFault? {
        failed' := true;
      } else {
        framesRead' := framesRead + 1;
        if o.EngineFault? {
          failed' := true;
        } else if o.ResetFault? || o.ans > 0 {
          var index: nat := if o.ResetFault? then o.index else o.ans - 1;
          TriggerCallbacks(index);
          fired' := fired + [index];
          if o.ResetFault? {
            failed' := true;
          } else {
            trace := trace + [EngineReset];
          }
        }
      }
    }

    /** One tick while the loop runs: a pass of the loop body, or a call made
        by another thread between two passes. `w` is the loop's state as the
        worker specification sees it, and `base` the attempts made before the
        loop began. */
    method DetectionStep(ghost w: WorkerState, ghost base: seq<Event>, t: Tick,
                         failed: bool, fired: seq<nat>, framesRead: nat)
      returns (failed': bool, fired': seq<nat>, framesRead': nat)
      requires Valid() && Looping(w)
      requires Snapshot() == w.control && callbacks == w.callbacks && failed == w.failed
      requires fired == w.fired && framesRead == w.frames && Attempts(trace) == base + w.attempts
      modifies this`running, this`paused, this`audio, this`stream, this`callbacks, this`trace
      ensures old(trace) <= trace
      ensures var w' := Step(modelPaths, w, t);
        Snapshot() == w'.control && callbacks == w'.callbacks && failed' == w'.failed &&
        fired' == w'.fired && framesRead' == w'.frames && Attempts(trace) == base + w'.attempts
    {
      failed', fired', framesRead' := failed, fired, framesRead;
      match t {
        case PauseCall =>
          assert Step(modelPaths, w, t) == w.(control := Lifecycle.Pause(w.control));
          Pause();
        case ResumeCall =>
          assert Step(modelPaths, w, t) == w.(control := Lifecycle.Resume(w.control));
          Resume();
        case StopCall =>
          assert Step(modelPaths, w, t) == w.(control := Lifecycle.Stop(w.control));
          Stop();
        case Subscribe(cb) =>
          assert Step(modelPaths, w, t) == w.(callbacks := w.callbacks + [cb]);
          OnDetected(cb);
        case Iteration(o) =>
          if paused {
            assert Step(modelPaths, w, t) == w;
          } else {
            assert Step(modelPaths, w, t) == Pass(modelPaths, w, o);
            failed', fired', framesRead' := HandlePass(w, base, o, fired, framesRead);
          }
      }
    }

    /** The `while self.running` loop over the ticks of `schedule`, from the
        loop state `w0`; it leaves the loop's state as `Run` gives it. */
    method RunTicks(ghost w0: WorkerState, ghost base: seq<Event>, schedule: seq<Tick>, failed0: bool)
      returns (failed: bool, fired: seq<nat>, framesRead: nat)
      requires Numbered(Snapshot()) && (running ==> enabled)
      requires Snapshot() == w0.control && callbacks == w0.callbacks && failed0 == w0.failed
      requires w0.fired == [] && w0.frames == 0 && Attempts(trace) == base + w0.attempts
      modifies this`running, this`paused, this`audio, this`stream, this`callbacks, this`trace
      ensures Numbered(Snapshot()) && (running ==> enabled)
      ensures old(trace) <= trace
      ensures var w := Run(modelPaths, w0, schedule);
        Snapshot() == w.control && callbacks == w.callbacks && failed == w.failed &&
        fired == w.fired && framesRead == w.frames && Attempts(trace) == base + w.attempts
    {
      failed, fired, framesRead := failed0, [], 0;
      ghost var w := w0;
      var i := 0;
      while i < |schedule| && running && !failed
        invariant 0 <= i <= |schedule|
        invariant Numbered(Snapshot()) && (running ==> enabled)
        invariant old(trace) <= trace
        invariant w == Run(modelPaths, w0, schedule[..i])
        invariant Snapshot() == w.control && callbacks == w.callbacks && failed == w.failed
        invariant fired == w.fired && framesRead == w.frames && Attempts(trace) == base + w.attempts
      {
        assert schedule[..i + 1][..i] == schedule[..i];
        failed, fired, framesRead := DetectionStep(w, base, schedule[i], failed, fired, framesRead);
        w := Step(modelPaths, w, schedule[i]);
        i := i + 1;
      }
      if i < |schedule| {
        assert schedule == schedule[..i] + schedule[i..];
        RunAppend(modelPaths, w0, schedule[..i], schedule[i..]);
        RunHalted(modelPaths, w, schedule[i..]);
      } else {
        assert schedule[..i] == schedule;
      }
    }

    /** The worker thread's body. `setup` is what creating the engine, the
        device and the stream gave; `schedule` is what happened while the
        loop ran. It returns the indices fired and the number of frames read. */
    method DetectionLoop(setup: Setup, schedule: seq<Tick>) returns (fired: seq<nat>, framesRead: nat)
      requires Valid()
      modifies this
      ensures Valid()
      ensures !engineAvailable ==>
        fired == [] && framesRead == 0 && Snapshot() == old(Snapshot()) &&
        callbacks == old(callbacks) && trace == old(trace)
      ensures old(trace) <= trace
      ensures engineAvailable ==>
        var w := Run(modelPaths, Begin(old(Snapshot()), old(callbacks), setup), schedule);
        fired == w.fired && framesRead == w.frames && callbacks == w.callbacks &&
        Attempts(trace) == Attempts(old(trace)) + w.attempts &&
        Snapshot() == Exit(w)
    {
      fired, framesRead := [], 0;
      if !engineAvailable {
        return;
      }
      var failed := false;
      match setup {
        case Opened(d, a, s) =>
          detector, audio, stream := Some(d), Some(a), Some(s);
        case SetupFailed =>
          failed := true;
      }
      failed, fired, framesRead :=
        RunTicks(Begin(old(Snapshot()), old(callbacks), setup), Attempts(old(trace)), schedule, failed);
      if failed || !running {
        // the `finally` clause; as written, `stop` raises here before it
        // releases anything (Lifecycle.StopOnWorkerAsWritten)
        Stop();
      }
    }
  }
}

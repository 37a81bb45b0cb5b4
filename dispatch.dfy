/** What firing the callbacks for one detection does, recorded as a trace of
    events. A callback is identified by the order it was registered in. */
module Dispatch {
  import opened Configuration

  type CallbackId = nat

  datatype Event =
    | Invoked(cb: CallbackId, path: string, tag: string)  // the callback was called with these arguments
    | Failed(cb: CallbackId)                                 // the call just made raised; it was logged
    | Unresolved(cb: CallbackId)                             // the index had no model path; logged, callback not called
    | EngineReset                                            // the engine's detection state was reset

  /** The attempt made for one callback when model `index` fired. */
  function Attempt(cb: CallbackId, paths: seq<string>, index: nat): Event {
    if index < |paths| then Invoked(cb, paths[index], Label(index)) else Unresolved(cb)
  }

  /** The attempts made when model `index` fires: one per registered callback,
      in registration order. */
  function Dispatched(cbs: seq<CallbackId>, paths: seq<string>, index: nat): seq<Event> {
    seq(|cbs|, k requires 0 <= k < |cbs| => Attempt(cbs[k], paths, index))
  }

  /** A trace without its failure records: what was attempted, whatever the
      callbacks did. */
  function Attempts(trace: seq<Event>): seq<Event> {
    if trace == [] then []
    else Attempts(trace[..|trace| - 1]) + (if trace[|trace| - 1].Failed? then [] else [trace[|trace| - 1]])
  }

  /** Every callback is called once, in registration order, with the model
      path and the label of the fired index. */
  lemma DispatchedInOrder(cbs: seq<CallbackId>, paths: seq<string>, index: nat)
    requires index < |paths|
    ensures |Dispatched(cbs, paths, index)| == |cbs|
    ensures forall k :: 0 <= k < |cbs| ==>
      Dispatched(cbs, paths, index)[k] == Invoked(cbs[k], paths[index], Label(index))
  {
  }

  /** An index with no model path calls no callback at all. */
  lemma DispatchedOutOfRange(cbs: seq<CallbackId>, paths: seq<string>, index: nat)
    requires index >= |paths|
    ensures forall k :: 0 <= k < |cbs| ==> Dispatched(cbs, paths, index)[k] == Unresolved(cbs[k])
  {
  }

  lemma DispatchedExtend(cbs: seq<CallbackId>, paths: seq<string>, index: nat, k: nat)
    requires k < |cbs|
    ensures Dispatched(cbs[..k + 1], paths, index) == Dispatched(cbs[..k], paths, index) + [Attempt(cbs[k], paths, index)]
  {
  }
}

/**
 The `OptimizationManager` interface as the event loop sees it: one of the two
 managers, with each interface method dispatched to the chosen one.
 */
module Managers {
  import opened Values
  import opened Store
  import opened Messages
  import opened Channels
  import LocalManager
  import DistributedManager
  import Ipc

  datatype Manager =
    | LocalMode(local: LocalManager.Local)
    | DistributedMode(dist: DistributedManager.Distributed)

  /** The trials `get_connection` can answer for: the local pool, or the
      trials that were given a private channel. Any other id raises `KeyError`. */
  function Connected(mgr: Manager): (r: set<TrialId>)
    ensures mgr.LocalMode? ==> r == mgr.local.pool
    ensures mgr.DistributedMode? ==> r == mgr.dist.privateChannels.Keys
  {
    match mgr
    case LocalMode(m) => m.pool
    case DistributedMode(m) => m.privateChannels.Keys
  }

  function CreateFutures(mgr: Manager, s: Study): (r: (Manager, Study))
    requires Valid(s)
    ensures Valid(r.1) && Extends(s, r.1)
    ensures r.0.LocalMode? == mgr.LocalMode?
  {
    match mgr
    case LocalMode(m) =>
      var (m', s') := LocalManager.CreateFutures(m, s);
      (LocalMode(m'), s')
    case DistributedMode(m) =>
      var (m', s', _) := DistributedManager.CreateFutures(m, s);
      (DistributedMode(m'), s')
  }

  /** One pass of `get_message`: the batch of messages it yields. Both managers
      yield the messages that arrived, or a single heartbeat when none did. */
  function Poll(mgr: Manager, incoming: seq<Incoming>): (r: (Manager, seq<Message>))
    ensures r.1 == Batch(incoming)
    ensures r.0.LocalMode? == mgr.LocalMode?
    ensures mgr.LocalMode? ==> r.0.local == LocalManager.Poll(mgr.local, incoming).0
    ensures mgr.DistributedMode? ==> Connected(r.0) == Connected(mgr) && r.0.dist.completed == mgr.dist.completed
  {
    match mgr
    case LocalMode(m) => (LocalMode(LocalManager.Poll(m, incoming).0), Batch(incoming))
    case DistributedMode(m) =>
      (DistributedMode(m.(messageQueue := Ipc.Initialize(m.messageQueue))), Batch(incoming))
  }

  function AfterMessage(mgr: Manager, s: Study): (r: (Manager, Study))
    requires Valid(s)
    ensures Valid(r.1) && Extends(s, r.1)
    ensures r.0.LocalMode? == mgr.LocalMode?
    ensures mgr.DistributedMode? ==> r == (mgr, s)
  {
    match mgr
    case LocalMode(m) =>
      var (m', s') := LocalManager.AfterMessage(m, s);
      (LocalMode(m'), s')
    case DistributedMode(m) => (DistributedMode(DistributedManager.AfterMessage(m)), s)
  }

  predicate ShouldEnd(mgr: Manager)
  {
    match mgr
    case LocalMode(m) => LocalManager.ShouldEnd(m)
    case DistributedMode(m) => DistributedManager.ShouldEnd(m)
  }

  function RegisterTrialExit(mgr: Manager, id: TrialId): (r: Manager)
    ensures mgr.LocalMode? ==> r == mgr
    ensures mgr.DistributedMode? ==> r == DistributedMode(DistributedManager.RegisterTrialExit(mgr.dist, id))
  {
    match mgr
    case LocalMode(m) => LocalMode(LocalManager.RegisterTrialExit(m, id))
    case DistributedMode(m) => DistributedMode(DistributedManager.RegisterTrialExit(m, id))
  }

  /** The exits a processed message registered, in order. */
  function RegisterExits(mgr: Manager, exits: seq<TrialId>): (r: Manager)
    ensures mgr.LocalMode? ==> r == mgr
    ensures mgr.DistributedMode? ==>
      r.DistributedMode? && r.dist == mgr.dist.(completed := mgr.dist.completed + |exits|)
    decreases |exits|
  {
    if |exits| == 0 then mgr else RegisterExits(RegisterTrialExit(mgr, exits[0]), exits[1..])
  }

  /** `stop_optimization(patience)`: the local manager kills its workers and
      never raises; the distributed one raises `TimeoutError` when a task is
      still RUNNING in `observed`, the task states once the patience ran out. */
  function StopOptimization(mgr: Manager, observed: seq<DistributedManager.TaskState>): (r: (Manager, Option<Exception>))
    ensures mgr.LocalMode? ==> r == (mgr, None)
    ensures r.0.LocalMode? == mgr.LocalMode?
    ensures r.1.Some? ==> r.1.value == TimeoutError
    ensures r.1.Some? <==> mgr.DistributedMode? && DistributedManager.TaskRunning in observed
    ensures Connected(r.0) == Connected(mgr) && ShouldEnd(r.0) == ShouldEnd(mgr)
  {
    match mgr
    case LocalMode(_) => (mgr, None)
    case DistributedMode(m) =>
      var (m', raised) := DistributedManager.StopOptimization(m, observed);
      (DistributedMode(m'), raised)
  }
}

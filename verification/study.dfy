/**
 `DistributedStudy`: a regular study paired with an optional cluster client.
 Its one operation of its own is `optimize`, which validates the arguments,
 picks a manager, runs the event loop and, on a keyboard interrupt, stops the
 workers and fails the unfinished trials before re-raising. Every other
 method passes straight through to the wrapped study.
 */
module DistributedStudies {
  import opened Values
  import opened Store
  import opened Managers
  import LocalManager
  import DistributedManager
  import EventLoop

  /** A cluster client; `localCluster` says whether its cluster is a
      `LocalCluster`. */
  datatype Client = Client(localCluster: bool)

  datatype DistributedStudy = DistributedStudy(study: Study, client: Option<Client>)

  /** `into_study`: the wrapped study. */
  function IntoStudy(ds: DistributedStudy): (s: Study)
    ensures s == ds.study
  {
    ds.study
  }

  /** `from_study`: wraps a study; unwrapping gives the same study back. */
  function FromStudy(s: Study, client: Option<Client>): (ds: DistributedStudy)
    ensures IntoStudy(ds) == s && ds.client == client
  {
    DistributedStudy(s, client)
  }

  /** The `catch` argument: a single exception class or an iterable of them. */
  datatype CatchArg = OneClass(name: string) | Classes(names: seq<string>)

  /** The catch tuple the event loop receives. */
  function NormalizeCatch(c: CatchArg): (r: seq<string>)
    ensures c.OneClass? ==> |r| == 1
    ensures c.Classes? ==> r == c.names
  {
    match c
    case OneClass(name) => [name]
    case Classes(names) => names
  }

  /** A single class catches exactly the exceptions that are instances of it;
      a tuple catches those that are an instance of any of its classes. */
  lemma CatchMeaning(c: CatchArg, e: Exception)
    ensures c.OneClass? ==> (IsInstanceOfAny(e, NormalizeCatch(c)) <==> IsInstance(e, c.name))
    ensures c.Classes? ==>
      (IsInstanceOfAny(e, NormalizeCatch(c)) <==> exists i :: 0 <= i < |c.names| && IsInstance(e, c.names[i]))
  {
    if c.OneClass? && IsInstance(e, c.name) {
      assert NormalizeCatch(c)[0] in e.classes;
    }
  }

  /** The heartbeat interval the distributed manager is built with. */
  const HeartbeatInterval: int := 60

  /** Distributed mode exactly when a client is given whose cluster is not a
      `LocalCluster`; local mode otherwise. */
  function SelectManager(client: Option<Client>, nTrials: int, nJobs: int, cpus: int): (r: Manager)
    requires cpus >= 1
    ensures r.DistributedMode? <==> client.Some? && !client.value.localCluster
    ensures r.LocalMode? ==> r.local == LocalManager.NewLocal(nTrials, nJobs, cpus)
    ensures r.DistributedMode? ==> r.dist == DistributedManager.NewDistributed(nTrials, HeartbeatInterval)
  {
    if client.Some? && !client.value.localCluster then
      DistributedMode(DistributedManager.NewDistributed(nTrials, HeartbeatInterval))
    else LocalMode(LocalManager.NewLocal(nTrials, nJobs, cpus))
  }

  /** What `optimize` leaves behind: the study, the exception it raised if any,
      how the event loop ended if it ran, whether the interrupt handler ran,
      and whether the storage session was removed. */
  datatype Optimization = Optimization(
    study: Study,
    raised: Option<Exception>,
    loopExit: Option<EventLoop.Exit>,
    interruptHandled: bool,
    sessionRemoved: bool)

  /** Whether the way the loop ended is a `KeyboardInterrupt` reaching
      `optimize`: one raised while waiting for messages, or one that escaped
      the processing of a message. */
  predicate Interrupts(x: EventLoop.Exit)
  {
    x.InterruptedWhileWaiting? || (x.Raised? && IsInstance(x.e, "KeyboardInterrupt"))
  }

  /** The exception a loop exit carries. */
  function ExitException(x: EventLoop.Exit): Option<Exception>
  {
    match x
    case Raised(e) => Some(e)
    case InterruptedWhileWaiting => Some(KeyboardInterrupt)
    case _ => None
  }

  /** What `optimize` does once the event loop has ended with `exit` in state
      `L`: the `KeyboardInterrupt` handler and the `finally` clause. */
  function Conclude(L: EventLoop.Loop, exit: EventLoop.Exit,
                    observedAfterInterrupt: seq<DistributedManager.TaskState>): (r: Optimization)
    ensures r.loopExit == Some(exit) && r.sessionRemoved
    ensures r.interruptHandled <==> Interrupts(exit)
    ensures !Interrupts(exit) ==> r.raised == ExitException(exit) && r.study == L.study
    ensures r.interruptHandled ==>
      && IsInstance(ExitException(exit).value, "KeyboardInterrupt")
      && (r.raised == ExitException(exit) || r.raised == Some(TimeoutError))
      && (r.raised != Some(TimeoutError) ==> UnfinishedIds(r.study) == {})
    ensures r.interruptHandled && L.manager.LocalMode? ==>
      r.raised == ExitException(exit) && UnfinishedIds(r.study) == {}
  {
    if Interrupts(exit) then
      var (_, stopRaised) := StopOptimization(L.manager, observedAfterInterrupt);
      if stopRaised.Some? then Optimization(L.study, stopRaised, Some(exit), true, true)
      else Optimization(FailUnfinished(L.study), ExitException(exit), Some(exit), true, true)
    else Optimization(L.study, ExitException(exit), Some(exit), false, true)
  }

  /** `DistributedStudy.optimize`. `nTrials == None` is `n_trials=None`;
      `onWindows` is `sys.platform == "win32"`; `cpus` the CPU count; the
      event loop's inputs are as in `EventLoop.Run`, and `observedAfterInterrupt`
      is what the interrupt handler's `stop_optimization` sees. */
  function Optimize(ds: DistributedStudy, nTrials: Option<int>, nJobs: int, c: CatchArg,
                    onWindows: bool, cpus: int, polls: seq<EventLoop.Poll>,
                    late: nat -> bool, observed: seq<DistributedManager.TaskState>,
                    observedAfterInterrupt: seq<DistributedManager.TaskState>, o: Messages.Oracles): (r: Optimization)
    requires cpus >= 1 && Valid(ds.study)
    // validation fails before anything is touched and outside the `try`
    ensures nTrials.None? ==> r == Optimization(ds.study, Some(ValueError), None, false, false)
    ensures nTrials.Some? && onWindows && SelectManager(ds.client, nTrials.value, nJobs, cpus).LocalMode? ==>
      r == Optimization(ds.study, Some(ValueError), None, false, false)
    // once the loop ran, the session is removed on every path
    ensures r.loopExit.Some? <==> r.sessionRemoved
    ensures r.loopExit.Some? ==> (r.interruptHandled <==> Interrupts(r.loopExit.value))
    // a run that was not interrupted raises what the loop raised, or nothing
    ensures r.loopExit.Some? && !Interrupts(r.loopExit.value) ==> r.raised == ExitException(r.loopExit.value)
    // an interrupt fails every unfinished trial and is raised again, unless
    // stopping the workers timed out
    ensures r.interruptHandled ==>
      && r.loopExit.Some? && Interrupts(r.loopExit.value)
      && IsInstance(ExitException(r.loopExit.value).value, "KeyboardInterrupt")
      && (r.raised == ExitException(r.loopExit.value) || r.raised == Some(TimeoutError))
      && (r.raised != Some(TimeoutError) ==> UnfinishedIds(r.study) == {})
    // only distributed workers can make the handler's stop time out
    ensures r.interruptHandled && !(ds.client.Some? && !ds.client.value.localCluster) ==>
      r.raised == ExitException(r.loopExit.value) && UnfinishedIds(r.study) == {}
  {
    if nTrials.None? then Optimization(ds.study, Some(ValueError), None, false, false)
    else
      var manager := SelectManager(ds.client, nTrials.value, nJobs, cpus);
      if manager.LocalMode? && onWindows then Optimization(ds.study, Some(ValueError), None, false, false)
      else
        var cfg := EventLoop.Config(NormalizeCatch(c), late, observed, o);
        var (L, exit) := EventLoop.Run(ds.study, manager, polls, cfg);
        EventLoop.RunKeepsMode(ds.study, manager, polls, cfg);
        Conclude(L, exit, observedAfterInterrupt)
  }
}

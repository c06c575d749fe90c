/**
 The event loop of the coordinating process: it creates the trial futures, then
 handles every message the manager yields, one at a time, in arrival order.
 Handling a message processes it against the study, lets the manager react,
 decides whether an exception ends the loop, checks the timeout, advances the
 progress count on closing messages and asks the manager whether to end.

 The wall clock, the catch tuple and the task states seen by
 `stop_optimization` are inputs (`Config`); what each pass of `get_message`
 delivers is a sequence of `Poll`s.
 */
module EventLoop {
  import opened Values
  import opened Store
  import opened Messages
  import opened Channels
  import opened Managers
  import DistributedManager

  /** What one pass of `get_message` sees: the connections that became
      readable, or a `KeyboardInterrupt` while it waited. */
  datatype Poll = Delivered(incoming: seq<Incoming>) | Interrupted

  /** The calls the loop makes on the manager and the study, in order. */
  datatype Event = CreatedFutures | AfterMessageCalled | StopCalled | FailedUnfinished

  /** How `run` ends: `should_end_optimization` said so; the timeout elapsed;
      an exception propagated; a `KeyboardInterrupt` arrived while waiting for
      messages; or the given polls ran out while the loop was still waiting. */
  datatype Exit = Ended | TimedOut | Raised(e: Exception) | InterruptedWhileWaiting | InputExhausted

  /** `catch`: the names of the exception classes to ignore. `late(k)`: whether
      the timeout has elapsed when the check after the `k`-th handled message
      runs (always false without a timeout). `observed`: the task states that
      `stop_optimization` finds once its patience ran out. */
  datatype Config = Config(catch: seq<string>, late: nat -> bool,
                           observed: seq<DistributedManager.TaskState>, oracles: Oracles)

  /** A study whose representation invariant holds. */
  type ValidStudy = s: Study | Valid(s) witness Study(map[], 0)

  /** The loop's state. `boxes` holds the replies waiting on each trial's
      connection; `handled` the messages taken from `get_message`; `progress`
      the progress bar's count; `checks` the answers of every
      `should_end_optimization` call; `log` the other calls. */

  datatype Loop = Loop(study: ValidStudy, manager: Manager, boxes: Mailboxes, handled: seq<Message>,
                       progress: nat, checks: seq<bool>, log: seq<Event>)

  /** The number of closing messages in `ms`. */
  function CountClosing(ms: seq<Message>): nat
  {
    if |ms| == 0 then 0
    else CountClosing(ms[..|ms| - 1]) + (if Closing(ms[|ms| - 1]) then 1 else 0)
  }

  /** Every message the polls deliver, in order, up to the first interrupt. */
  function Arrivals(polls: seq<Poll>): seq<Message>
  {
    if |polls| == 0 || polls[0].Interrupted? then []
    else Batch(polls[0].incoming) + Arrivals(polls[1..])
  }

  /** The exits that leave the loop from inside the handling of a message,
      before its progress update and end check. */
  predicate LeavesMidStep(x: Exit)
  {
    x.TimedOut? || x.Raised?
  }

  /** What any processed message can do: keep the study valid and reply
      with responses only. */
  ghost predicate Possible(eff: Effect)
  {
    Valid(eff.study) && forall reply :: reply in eff.replies ==> !reply.Heartbeat?
  }

  /** `message.process(study, manager)` against the loop's study, with the
      connections the manager can answer for. */
  function EffectOf(L: Loop, m: Message, cfg: Config): (eff: Effect)
    ensures Possible(eff)
  {
    ProcessIsLocal(m, L.study, Connected(L.manager), cfg.oracles);
    ProcessKeepsValid(m, L.study, Connected(L.manager), cfg.oracles);
    Process(m, L.study, Connected(L.manager), cfg.oracles)
  }

  /** What processing sets in motion: the new study, the exits registered
      with the manager and the replies put on the trials' connections. */
  function Apply(L: Loop, m: Message, eff: Effect): (r: Loop)
    requires Possible(eff)
    ensures r.handled == L.handled + [m] && r.log == L.log
    ensures r.progress == L.progress && r.checks == L.checks
    ensures r.study == eff.study
  {
    L.(study := eff.study, manager := RegisterExits(L.manager, eff.exits),
       boxes := Deliver(L.boxes, eff.replies), handled := L.handled + [m])
  }

  /** `stop_optimization`, recorded in the log. */
  function Stop(L: Loop, cfg: Config): (r: (Loop, Option<Exception>))
    ensures r.0 == L.(manager := r.0.manager, log := L.log + [StopCalled])
    ensures ShouldEnd(r.0.manager) == ShouldEnd(L.manager)
    ensures r.1 == StopOptimization(L.manager, cfg.observed).1
  {
    var (mgr, raised) := StopOptimization(L.manager, cfg.observed);
    (L.(manager := mgr, log := L.log + [StopCalled]), raised)
  }

  /** The body of the `try` with its handler, and the timeout check, given
      what processing the message did: the lines that run for every message
      before the progress update. `None` means the loop goes on to the
      progress update and the end check. */
  function HandleEffect(L: Loop, m: Message, eff: Effect, cfg: Config): (r: (Loop, Option<Exit>))
    requires Possible(eff)
    ensures r.0.handled == L.handled + [m]
    ensures r.0.progress == L.progress && r.0.checks == L.checks
    ensures r.1.None? || LeavesMidStep(r.1.value)
    ensures r.0.manager.LocalMode? == L.manager.LocalMode?
  {
    var processed := Apply(L, m, eff);
    var raised := eff.raised;
    if raised.Some? && !IsInstance(raised.value, "Exception") then
      (processed, Some(Raised(raised.value)))
    else if raised.Some? && !IsInstanceOfAny(raised.value, cfg.catch) then
      var (stopped, stopRaised) := Stop(processed, cfg);
      if stopRaised.Some? then (stopped, Some(Raised(stopRaised.value)))
      else
        FailUnfinishedKeepsValid(stopped.study);
        (stopped.(study := FailUnfinished(stopped.study), log := stopped.log + [FailedUnfinished]),
         Some(Raised(raised.value)))
    else
      var after := AfterHandled(processed, raised);
      if cfg.late(|after.handled|) then
        var (stopped, stopRaised) := Stop(after, cfg);
        (stopped, Some(if stopRaised.Some? then Raised(stopRaised.value) else TimedOut))
      else (after, None)
  }

  /** What follows a message that raised nothing or was caught:
      `after_message` runs exactly when nothing was raised. */
  function AfterHandled(processed: Loop, raised: Option<Exception>): (r: Loop)
    ensures r.handled == processed.handled
    ensures r.progress == processed.progress && r.checks == processed.checks
    ensures r.log == processed.log + (if raised.None? then [AfterMessageCalled] else [])
    ensures raised.Some? ==> r == processed
    ensures raised.None? ==> (r.manager, r.study) == AfterMessage(processed.manager, processed.study)
    ensures r.boxes == processed.boxes
    ensures r.manager.LocalMode? == processed.manager.LocalMode?
  {
    if raised.None? then
      var (mgr, s) := AfterMessage(processed.manager, processed.study);
      processed.(manager := mgr, study := s, log := processed.log + [AfterMessageCalled])
    else processed
  }

  function Handle(L: Loop, m: Message, cfg: Config): (r: (Loop, Option<Exit>))
    ensures r.0.handled == L.handled + [m]
    ensures r.0.progress == L.progress && r.0.checks == L.checks
    ensures r.1.None? || LeavesMidStep(r.1.value)
    ensures r.0.manager.LocalMode? == L.manager.LocalMode?
  {
    HandleEffect(L, m, EffectOf(L, m, cfg), cfg)
  }

  /** The log of `r` is that of `L` followed by `added`. */
  lemma LogGrowsBy(L: Loop, r: (Loop, Option<Exit>), added: seq<Event>)
    requires r.0.log == L.log + added
    requires CreatedFutures !in added
    requires FailedUnfinished in added ==>
      r.1.Some? && r.1.value.Raised? && added[|added| - 1] == FailedUnfinished
    requires r.1 == Some(TimedOut) ==>
      |added| > 0 && FailedUnfinished !in added && added[|added| - 1] == StopCalled
    ensures LogsSafely(L, r)
  {
    assert r.0.log[..|L.log|] == L.log;
    assert r.0.log[|L.log|..] == added;
  }

  /** An exception that is not an `Exception` (a `KeyboardInterrupt`) escapes
      the handler: no stop, no failing of trials, no timeout check. */
  lemma HandleLetsBaseExceptionsEscape(L: Loop, m: Message, eff: Effect, cfg: Config)
    requires Possible(eff)
    requires eff.raised.Some? && !IsInstance(eff.raised.value, "Exception")
    ensures var r := HandleEffect(L, m, eff, cfg);
      && r.1 == Some(Raised(eff.raised.value))
      && r.0.log == L.log && r.0.study == eff.study
      && LogsSafely(L, r)
  {
    LogGrowsBy(L, HandleEffect(L, m, eff, cfg), []);
  }

  /** An `Exception` outside `catch` stops the manager, fails every unfinished
      trial and is raised again. When the stop itself times out, its
      `TimeoutError` propagates instead and no trial is failed. */
  lemma HandleStopsOnUncaught(L: Loop, m: Message, eff: Effect, cfg: Config)
    requires Possible(eff)
    requires eff.raised.Some? && IsInstance(eff.raised.value, "Exception")
    requires !IsInstanceOfAny(eff.raised.value, cfg.catch)
    ensures var stopRaised := StopOptimization(Apply(L, m, eff).manager, cfg.observed).1;
      var r := HandleEffect(L, m, eff, cfg);
      && r.1 == Some(Raised(if stopRaised.Some? then TimeoutError else eff.raised.value))
      && r.0.log == L.log + [StopCalled] + (if stopRaised.Some? then [] else [FailedUnfinished])
      && r.0.study == (if stopRaised.Some? then eff.study else FailUnfinished(eff.study))
      && LogsSafely(L, r)
  {
    var stopRaised := StopOptimization(Apply(L, m, eff).manager, cfg.observed).1;
    LogGrowsBy(L, HandleEffect(L, m, eff, cfg), [StopCalled] + (if stopRaised.Some? then [] else [FailedUnfinished]));
  }

  /** When nothing was raised, or the exception is in `catch`, the loop carries
      on: `after_message` runs exactly when nothing was raised, and a timeout
      stops the manager without failing any trial. */
  lemma HandleCarriesOn(L: Loop, m: Message, eff: Effect, cfg: Config)
    requires Possible(eff)
    requires eff.raised.None? || (IsInstance(eff.raised.value, "Exception") && IsInstanceOfAny(eff.raised.value, cfg.catch))
    ensures var r := HandleEffect(L, m, eff, cfg);
      var late := cfg.late(|L.handled| + 1);
      && (r.1.Some? <==> late)
      && (r.1.Some? ==> r.1.value == TimedOut || r.1.value == Raised(TimeoutError))
      && r.0.log == L.log + (if eff.raised.None? then [AfterMessageCalled] else [])
                          + (if late then [StopCalled] else [])
      && (eff.raised.Some? ==> r.0.study == eff.study)
      && LogsSafely(L, r)
  {
    var r := HandleEffect(L, m, eff, cfg);
    var processed := Apply(L, m, eff);
    var after := AfterHandled(processed, eff.raised);
    assert |after.handled| == |L.handled| + 1;
    if cfg.late(|after.handled|) {
      var (stopped, stopRaised) := Stop(after, cfg);
      assert r == (stopped, Some(if stopRaised.Some? then Raised(stopRaised.value) else TimedOut));
    } else {
      assert r == (after, None);
    }
    LogGrowsBy(L, r, (if eff.raised.None? then [AfterMessageCalled] else [])
                     + (if cfg.late(|L.handled| + 1) then [StopCalled] else []));
  }

  /** What one message adds to the log: never a second `create_futures`;
      failing the unfinished trials only as the last act before raising; a
      timeout only after a stop and never with trials failed. */
  lemma HandleLog(L: Loop, m: Message, eff: Effect, cfg: Config)
    requires Possible(eff)
    ensures LogsSafely(L, HandleEffect(L, m, eff, cfg))
  {
    if eff.raised.Some? && !IsInstance(eff.raised.value, "Exception") {
      HandleLetsBaseExceptionsEscape(L, m, eff, cfg);
    } else if eff.raised.Some? && !IsInstanceOfAny(eff.raised.value, cfg.catch) {
      HandleStopsOnUncaught(L, m, eff, cfg);
    } else {
      HandleCarriesOn(L, m, eff, cfg);
    }
  }

  /** The progress update for a closing message, then the end check. */
  function Finish(L: Loop, m: Message): (r: (Loop, Option<Exit>))
    ensures r.0 == L.(progress := r.0.progress, checks := L.checks + [ShouldEnd(L.manager)])
    ensures r.0.progress == L.progress + (if Closing(m) then 1 else 0)
    ensures r.1.Some? <==> ShouldEnd(L.manager)
    ensures r.1.Some? ==> r.1.value == Ended
  {
    var advanced := if Closing(m) then L.progress + 1 else L.progress;
    var ended := ShouldEnd(L.manager);
    (L.(progress := advanced, checks := L.checks + [ended]), if ended then Some(Ended) else None)
  }

  /** The loop body for one message. */
  function Step(L: Loop, m: Message, cfg: Config): (r: (Loop, Option<Exit>))
    ensures r.0.handled == L.handled + [m]
    ensures r.0.manager.LocalMode? == L.manager.LocalMode?
  {
    var (handled, exit) := Handle(L, m, cfg);
    if exit.Some? then (handled, exit) else Finish(handled, m)
  }

  /** What one message may do to the progress count and the end checks: a
      step that leaves mid-step touches neither; any other step advances the
      progress on a closing message and records one end check, which is true
      exactly when the loop ends there. */
  ghost predicate CountsAndChecks(L: Loop, m: Message, r: (Loop, Option<Exit>))
  {
    Advances(L, m, r) && ChecksOnce(L, r)
  }

  /** Whether a step's exit cut it short of the progress update. */
  predicate CutShort(x: Option<Exit>)
  {
    x.Some? && LeavesMidStep(x.value)
  }

  /** The progress count moves by one exactly on a closing message that got
      past the timeout check. */
  ghost predicate Advances(L: Loop, m: Message, r: (Loop, Option<Exit>))
  {
    r.0.progress == L.progress + (if !CutShort(r.1) && Closing(m) then 1 else 0)
  }

  /** A step cut short records no end check; any other step records one, true
      exactly when it ended the loop. */
  ghost predicate ChecksOnce(L: Loop, r: (Loop, Option<Exit>))
  {
    && (CutShort(r.1) ==> r.0.checks == L.checks)
    && (!CutShort(r.1) ==>
          && |r.0.checks| == |L.checks| + 1 && r.0.checks[..|L.checks|] == L.checks
          && (r.1.Some? <==> r.0.checks[|L.checks|])
          && (r.1.Some? ==> r.1.value == Ended && ShouldEnd(r.0.manager)))
  }

  /** What one message may add to the log: no second `create_futures`;
      failing the unfinished trials only as the last act before raising; a
      timeout only right after a stop and never with trials failed. */
  ghost predicate LogsSafely(L: Loop, r: (Loop, Option<Exit>))
  {
    SafeLog(L.log, r.0.log, r.1.Some? && r.1.value.Raised?, r.1 == Some(TimedOut))
  }

  /** `after` extends `before` without a second `create_futures`; failing the
      unfinished trials happens only as the last act, and only when `raised`;
      when `timedOut`, the last act was a stop and no trial was failed. */
  ghost predicate SafeLog(before: seq<Event>, after: seq<Event>, raised: bool, timedOut: bool)
  {
    && |before| <= |after| && after[..|before|] == before
    && CreatedFutures !in after[|before|..]
    && (FailedUnfinished in after[|before|..] ==> raised && after[|after| - 1] == FailedUnfinished)
    && (timedOut ==> |after| > |before| && FailedUnfinished !in after[|before|..] && after[|after| - 1] == StopCalled)
  }

  /** A step that carried on followed by a safe rest is safe as a whole. */
  lemma SafeLogChain(l0: seq<Event>, l1: seq<Event>, l: seq<Event>, raised: bool, timedOut: bool)
    requires SafeLog(l0, l1, false, false) && SafeLog(l1, l, raised, timedOut)
    ensures SafeLog(l0, l, raised, timedOut)
  {
    Chain(l0, l1, l);
  }

  lemma StepProgress(L: Loop, m: Message, cfg: Config)
    ensures CountsAndChecks(L, m, Step(L, m, cfg))
  {
    var h := Handle(L, m, cfg);
    if h.1.Some? {
      assert Step(L, m, cfg) == h;
    } else {
      var r := Finish(h.0, m);
      assert Step(L, m, cfg) == r;
      assert r.0.checks[..|L.checks|] == L.checks;
    }
  }

  lemma StepLog(L: Loop, m: Message, cfg: Config)
    ensures LogsSafely(L, Step(L, m, cfg))
  {
    HandleLog(L, m, EffectOf(L, m, cfg), cfg);
  }

  /** What the loop does with one message. */
  type LoopBody = (Loop, Message) -> (Loop, Option<Exit>)

  /** A loop body that takes exactly the message it is given and keeps the
      progress, end-check and log disciplines. */
  ghost predicate WellFormed(step: LoopBody)
  {
    TakesItsMessage(step) && KeepsMode(step) && Progresses(step) && Checks(step) && Logs(step)
  }

  ghost predicate TakesItsMessage(step: LoopBody)
  {
    forall L: Loop, m: Message ::
      step(L, m).0.handled == L.handled + [m] && (step(L, m).1.Some? ==> BodyExit(step(L, m).1.value))
  }

  /** The ways a loop body can leave the loop. */
  predicate BodyExit(x: Exit)
  {
    x.Ended? || LeavesMidStep(x)
  }

  ghost predicate KeepsMode(step: LoopBody)
  {
    forall L: Loop, m: Message :: step(L, m).0.manager.LocalMode? == L.manager.LocalMode?
  }

  ghost predicate Progresses(step: LoopBody)
  {
    forall L: Loop, m: Message :: step(L, m).0.handled == L.handled + [m] && Advances(L, m, step(L, m))
  }

  ghost predicate Checks(step: LoopBody)
  {
    forall L: Loop, m: Message :: step(L, m).0.handled == L.handled + [m] && ChecksOnce(L, step(L, m))
  }

  ghost predicate Logs(step: LoopBody)
  {
    forall L: Loop, m: Message :: LogsSafely(L, step(L, m))
  }

  /** The loop body of `run`. */
  function Intended(cfg: Config): LoopBody
  {
    (L: Loop, m: Message) => Step(L, m, cfg)
  }

  lemma IntendedIsWellFormed(cfg: Config)
    ensures WellFormed(Intended(cfg))
  {
    forall L: Loop, m: Message
      ensures && Intended(cfg)(L, m).0.handled == L.handled + [m]
              && Intended(cfg)(L, m).0.manager.LocalMode? == L.manager.LocalMode?
              && CountsAndChecks(L, m, Intended(cfg)(L, m))
              && LogsSafely(L, Intended(cfg)(L, m))
    {
      StepProgress(L, m, cfg);
      StepLog(L, m, cfg);
    }
  }

  /** The `for message in get_message()` loop: hands the body the remaining
      messages of the current batch, then the batches of the later polls,
      until the body leaves or the polls run out. */
  function Drain(L: Loop, pending: seq<Message>, polls: seq<Poll>, step: LoopBody): (r: (Loop, Exit))
    decreases |polls|, |pending|
  {
    if |pending| > 0 then
      var (L', exit) := step(L, pending[0]);
      if exit.Some? then (L', exit.value) else Drain(L', pending[1..], polls, step)
    else if |polls| == 0 then (L, InputExhausted)
    else if polls[0].Interrupted? then (L, InterruptedWhileWaiting)
    else
      var (mgr, batch) := Managers.Poll(L.manager, polls[0].incoming);
      Drain(L.(manager := mgr), batch, polls[1..], step)
  }

  /** `create_futures`, then the message loop with the given body. */
  function RunWith(s: Study, mgr: Manager, polls: seq<Poll>, step: LoopBody): (r: (Loop, Exit))
    requires Valid(s)
  {
    var (mgr', s') := Managers.CreateFutures(mgr, s);
    Drain(Loop(s', mgr', map[], [], 0, [], [CreatedFutures]), [], polls, step)
  }

  /** `EventLoop.run`. */
  function Run(s: Study, mgr: Manager, polls: seq<Poll>, cfg: Config): (r: (Loop, Exit))
    requires Valid(s)
  {
    RunWith(s, mgr, polls, Intended(cfg))
  }

  // ---------------------------------------------------------------------------
  // Properties of the whole run

  /** The exits that leave the loop waiting for messages. */
  predicate Waiting(x: Exit)
  {
    x.InputExhausted? || x.InterruptedWhileWaiting?
  }

  /** `after` extends `before` by a prefix of `expected`, by all of it when
      `waiting`. */
  ghost predicate InOrder<T>(before: seq<T>, after: seq<T>, expected: seq<T>, waiting: bool)
  {
    && |before| <= |after| && after[..|before|] == before
    && after[|before|..] <= expected
    && (waiting ==> after[|before|..] == expected)
  }

  lemma InOrderCons<T>(h0: seq<T>, h1: seq<T>, h: seq<T>, m: T, rest: seq<T>, waiting: bool)
    requires h1 == h0 + [m] && InOrder(h1, h, rest, waiting)
    ensures InOrder(h0, h, [m] + rest, waiting)
  {
    Chain(h0, h1, h);
    assert h1[|h0|..] == [m];
    ConsPrefix(m, h[|h1|..], rest);
  }

  lemma InOrderLast<T>(h0: seq<T>, m: T, rest: seq<T>)
    ensures InOrder(h0, h0 + [m], [m] + rest, false)
  {
    assert (h0 + [m])[|h0|..] == [m];
  }

  /** Messages are handled one at a time in the order the polls delivered
      them: what was handled is a prefix of the arrivals, and all of them once
      the loop is waiting again. */
  lemma {:induction false} DrainInArrivalOrder(L: Loop, pending: seq<Message>, polls: seq<Poll>, step: LoopBody)
    requires TakesItsMessage(step)
    ensures var r := Drain(L, pending, polls, step);
      InOrder(L.handled, r.0.handled, pending + Arrivals(polls), Waiting(r.1))
    decreases |polls|, |pending|, 1
  {
    if |pending| > 0 {
      InOrderOnPending(L, pending, polls, step);
    } else if |polls| > 0 && polls[0].Delivered? {
      InOrderOnPoll(L, polls, step);
    } else {
      var r := Drain(L, pending, polls, step);
      assert r.0 == L && Waiting(r.1);
      assert pending + Arrivals(polls) == [];
      assert r.0.handled[|L.handled|..] == [];
    }
  }

  lemma {:induction false} InOrderOnPending(L: Loop, pending: seq<Message>, polls: seq<Poll>, step: LoopBody)
    requires TakesItsMessage(step) && |pending| > 0
    ensures var r := Drain(L, pending, polls, step);
      InOrder(L.handled, r.0.handled, pending + Arrivals(polls), Waiting(r.1))
    decreases |polls|, |pending|, 0
  {
    var r := Drain(L, pending, polls, step);
    var m := pending[0];
    var (L', exit) := step(L, m);
    assert L'.handled == L.handled + [m];
    var rest := pending[1..] + Arrivals(polls);
    assert pending + Arrivals(polls) == [m] + rest;
    if exit.None? {
      assert r == Drain(L', pending[1..], polls, step);
      DrainInArrivalOrder(L', pending[1..], polls, step);
      InOrderCons(L.handled, L'.handled, r.0.handled, m, rest, Waiting(r.1));
    } else {
      assert r == (L', exit.value);
      assert BodyExit(exit.value);
      InOrderLast(L.handled, m, rest);
    }
  }

  lemma {:induction false} InOrderOnPoll(L: Loop, polls: seq<Poll>, step: LoopBody)
    requires TakesItsMessage(step) && |polls| > 0 && polls[0].Delivered?
    ensures var r := Drain(L, [], polls, step);
      InOrder(L.handled, r.0.handled, Arrivals(polls), Waiting(r.1))
    decreases |polls|, 0, 0
  {
    var (mgr, batch) := Managers.Poll(L.manager, polls[0].incoming);
    assert Drain(L, [], polls, step) == Drain(L.(manager := mgr), batch, polls[1..], step);
    DrainInArrivalOrder(L.(manager := mgr), batch, polls[1..], step);
    assert Arrivals(polls) == batch + Arrivals(polls[1..]);
  }

  /** Two prefix steps make one, and the suffix splits at the middle. */
  lemma Chain<T>(a: seq<T>, b: seq<T>, c: seq<T>)
    requires |a| <= |b| && b[..|a|] == a && |b| <= |c| && c[..|b|] == b
    ensures |a| <= |c| && c[..|a|] == a
    ensures c[|a|..] == b[|a|..] + c[|b|..]
  {
    assert c[..|a|] == c[..|b|][..|a|];
  }

  lemma ConsPrefix<T>(x: T, u: seq<T>, v: seq<T>)
    requires u <= v
    ensures [x] + u <= [x] + v
  {
    assert ([x] + v)[..|u| + 1] == [x] + v[..|u|];
  }

  lemma CountClosingAppend(ms: seq<Message>, m: Message)
    ensures CountClosing(ms + [m]) == CountClosing(ms) + (if Closing(m) then 1 else 0)
  {
    assert (ms + [m])[..|ms|] == ms;
  }

  /** `progress` counts the closing messages in `handled`, leaving out the last
      one when the loop was cut short while handling it. */
  ghost predicate Counted(progress: nat, handled: seq<Message>, cutShort: bool)
  {
    if cutShort then |handled| > 0 && progress == CountClosing(handled[..|handled| - 1])
    else progress == CountClosing(handled)
  }

  /** The progress bar counts the closing messages handled, except the last
      one when the loop left while handling it. */
  lemma {:induction false} DrainCountsClosing(L: Loop, pending: seq<Message>, polls: seq<Poll>, step: LoopBody)
    requires Progresses(step)
    requires L.progress == CountClosing(L.handled)
    ensures var r := Drain(L, pending, polls, step);
      Counted(r.0.progress, r.0.handled, LeavesMidStep(r.1))
    decreases |polls|, |pending|, 1
  {
    if |pending| > 0 {
      CountsOnPending(L, pending, polls, step);
    } else if |polls| > 0 && polls[0].Delivered? {
      var (mgr, batch) := Managers.Poll(L.manager, polls[0].incoming);
      assert Drain(L, pending, polls, step) == Drain(L.(manager := mgr), batch, polls[1..], step);
      DrainCountsClosing(L.(manager := mgr), batch, polls[1..], step);
    }
  }

  lemma {:induction false} CountsOnPending(L: Loop, pending: seq<Message>, polls: seq<Poll>, step: LoopBody)
    requires Progresses(step) && |pending| > 0
    requires L.progress == CountClosing(L.handled)
    ensures var r := Drain(L, pending, polls, step);
      Counted(r.0.progress, r.0.handled, LeavesMidStep(r.1))
    decreases |polls|, |pending|, 0
  {
    var r := Drain(L, pending, polls, step);
    var m := pending[0];
    var next := step(L, m);
    var (L', exit) := next;
    assert L'.handled == L.handled + [m] && Advances(L, m, next);
    CountClosingAppend(L.handled, m);
    if exit.None? {
      assert r == Drain(L', pending[1..], polls, step);
      DrainCountsClosing(L', pending[1..], polls, step);
    } else {
      assert r == (L', exit.value);
      assert L'.handled[..|L'.handled| - 1] == L.handled;
    }
  }

  /** `checks` holds `count` answers, all false but possibly the last, which
      is true exactly when `ended`. */
  ghost predicate EndChecks(checks: seq<bool>, count: int, ended: bool)
  {
    && |checks| == count
    && (forall i :: 0 <= i < |checks| - 1 ==> !checks[i])
    && (ended <==> |checks| > 0 && checks[|checks| - 1])
  }

  ghost predicate AllFalse(checks: seq<bool>)
  {
    forall i :: 0 <= i < |checks| ==> !checks[i]
  }

  lemma AllFalseAppend(checks: seq<bool>)
    requires AllFalse(checks)
    ensures AllFalse(checks + [false])
  {
    forall i | 0 <= i < |checks| + 1
      ensures !(checks + [false])[i]
    {
      if i < |checks| {
        assert (checks + [false])[i] == checks[i];
      }
    }
  }

  lemma AllFalseEndChecks(checks: seq<bool>, last: bool)
    requires AllFalse(checks)
    ensures EndChecks(checks, |checks|, false)
    ensures EndChecks(checks + [last], |checks| + 1, last)
  {
    forall i | 0 <= i < |checks|
      ensures !(checks + [last])[i]
    {
      assert (checks + [last])[i] == checks[i];
    }
  }

  /** `should_end_optimization` is asked once for every message that got past
      the timeout check; it answered false every time but possibly the last,
      and the loop ended on its say-so exactly when the last answer was true. */
  lemma {:induction false} DrainChecksEnd(L: Loop, pending: seq<Message>, polls: seq<Poll>, step: LoopBody)
    requires Checks(step)
    requires AllFalse(L.checks)
    ensures var r := Drain(L, pending, polls, step);
      && |L.handled| <= |r.0.handled|
      && EndChecks(r.0.checks, |L.checks| + |r.0.handled| - |L.handled| - (if LeavesMidStep(r.1) then 1 else 0), r.1.Ended?)
      && (r.1.Ended? ==> ShouldEnd(r.0.manager))
    decreases |polls|, |pending|, 1
  {
    if |pending| > 0 {
      ChecksOnPending(L, pending, polls, step);
    } else if |polls| > 0 && polls[0].Delivered? {
      var (mgr, batch) := Managers.Poll(L.manager, polls[0].incoming);
      assert Drain(L, pending, polls, step) == Drain(L.(manager := mgr), batch, polls[1..], step);
      DrainChecksEnd(L.(manager := mgr), batch, polls[1..], step);
    } else {
      AllFalseEndChecks(L.checks, true);
    }
  }

  lemma {:induction false} ChecksOnPending(L: Loop, pending: seq<Message>, polls: seq<Poll>, step: LoopBody)
    requires Checks(step) && |pending| > 0
    requires AllFalse(L.checks)
    ensures var r := Drain(L, pending, polls, step);
      && |L.handled| <= |r.0.handled|
      && EndChecks(r.0.checks, |L.checks| + |r.0.handled| - |L.handled| - (if LeavesMidStep(r.1) then 1 else 0), r.1.Ended?)
      && (r.1.Ended? ==> ShouldEnd(r.0.manager))
    decreases |polls|, |pending|, 0
  {
    var r := Drain(L, pending, polls, step);
    AllFalseEndChecks(L.checks, true);
    var m := pending[0];
    var next := step(L, m);
    var (L', exit) := next;
    assert L'.handled == L.handled + [m] && ChecksOnce(L, next);
    if exit.None? {
      assert L'.checks == L.checks + [false];
      AllFalseAppend(L.checks);
      assert r == Drain(L', pending[1..], polls, step);
      DrainChecksEnd(L', pending[1..], polls, step);
    } else {
      assert r == (L', exit.value);
      if !LeavesMidStep(exit.value) {
        assert L'.checks == L.checks + [true];
      }
    }
  }

  /** The loop never creates futures again; it fails the unfinished trials
      only as its very last act before raising; and a timeout leaves it right
      after a stop, with no trial failed on the way. */
  lemma {:induction false} DrainLog(L: Loop, pending: seq<Message>, polls: seq<Poll>, step: LoopBody)
    requires Logs(step)
    ensures var r := Drain(L, pending, polls, step);
      SafeLog(L.log, r.0.log, r.1.Raised?, r.1.TimedOut?)
    decreases |polls|, |pending|, 1
  {
    if |pending| > 0 {
      LogOnPending(L, pending, polls, step);
    } else if |polls| > 0 && polls[0].Delivered? {
      var (mgr, batch) := Managers.Poll(L.manager, polls[0].incoming);
      assert Drain(L, pending, polls, step) == Drain(L.(manager := mgr), batch, polls[1..], step);
      DrainLog(L.(manager := mgr), batch, polls[1..], step);
    } else {
      assert Drain(L, pending, polls, step).0 == L;
      assert L.log[|L.log|..] == [];
    }
  }

  lemma {:induction false} LogOnPending(L: Loop, pending: seq<Message>, polls: seq<Poll>, step: LoopBody)
    requires Logs(step) && |pending| > 0
    ensures var r := Drain(L, pending, polls, step);
      SafeLog(L.log, r.0.log, r.1.Raised?, r.1.TimedOut?)
    decreases |polls|, |pending|, 0
  {
    var r := Drain(L, pending, polls, step);
    var m := pending[0];
    var next := step(L, m);
    var (L', exit) := next;
    assert LogsSafely(L, next);
    if exit.None? {
      assert r == Drain(L', pending[1..], polls, step);
      DrainLog(L', pending[1..], polls, step);
      SafeLogChain(L.log, L'.log, r.0.log, r.1.Raised?, r.1.TimedOut?);
    } else {
      assert r == (L', exit.value);
    }
  }

  /** Neither the body nor `get_message` switches the manager's mode. */
  lemma {:induction false} DrainKeepsMode(L: Loop, pending: seq<Message>, polls: seq<Poll>, step: LoopBody)
    requires KeepsMode(step)
    ensures Drain(L, pending, polls, step).0.manager.LocalMode? == L.manager.LocalMode?
    decreases |polls|, |pending|
  {
    if |pending| > 0 {
      var (L', exit) := step(L, pending[0]);
      if exit.None? {
        assert Drain(L, pending, polls, step) == Drain(L', pending[1..], polls, step);
        DrainKeepsMode(L', pending[1..], polls, step);
      }
    } else if |polls| > 0 && polls[0].Delivered? {
      var (mgr, batch) := Managers.Poll(L.manager, polls[0].incoming);
      assert Drain(L, pending, polls, step) == Drain(L.(manager := mgr), batch, polls[1..], step);
      DrainKeepsMode(L.(manager := mgr), batch, polls[1..], step);
    }
  }

  lemma RunKeepsMode(s: Study, mgr: Manager, polls: seq<Poll>, cfg: Config)
    requires Valid(s)
    ensures Run(s, mgr, polls, cfg).0.manager.LocalMode? == mgr.LocalMode?
  {
    var (mgr', s') := Managers.CreateFutures(mgr, s);
    IntendedIsWellFormed(cfg);
    DrainKeepsMode(Loop(s', mgr', map[], [], 0, [], [CreatedFutures]), [], polls, Intended(cfg));
  }

  /** The loop's state right after `create_futures`. */
  ghost predicate Fresh(L: Loop)
  {
    L.handled == [] && L.progress == 0 && L.checks == [] && L.log == [CreatedFutures]
  }

  /** `create_futures` is called first and only once, and the unfinished
      trials are failed only as the last act before raising. */
  ghost predicate RunLog(r: (Loop, Exit))
  {
    && |r.0.log| >= 1 && r.0.log[0] == CreatedFutures && CreatedFutures !in r.0.log[1..]
    && (FailedUnfinished in r.0.log ==> r.1.Raised? && r.0.log[|r.0.log| - 1] == FailedUnfinished)
  }

  /** The handled messages are a prefix of the arrivals, all of them when the
      loop was left waiting. */
  ghost predicate RunInOrder(polls: seq<Poll>, r: (Loop, Exit))
  {
    && r.0.handled <= Arrivals(polls)
    && (Waiting(r.1) ==> r.0.handled == Arrivals(polls))
  }

  /** The progress bar counts the closing messages handled (all but one cut
      short), and the loop ended on `should_end_optimization` exactly when its
      last answer was true. */
  ghost predicate RunCounts(r: (Loop, Exit))
  {
    && (!LeavesMidStep(r.1) ==> r.0.progress == CountClosing(r.0.handled))
    && (r.1.Ended? <==> |r.0.checks| > 0 && r.0.checks[|r.0.checks| - 1])
  }

  ghost predicate RunProperties(polls: seq<Poll>, r: (Loop, Exit))
  {
    RunLog(r) && RunInOrder(polls, r) && RunCounts(r)
  }

  lemma DrainFromStartLog(L: Loop, polls: seq<Poll>, step: LoopBody)
    requires Fresh(L) && Logs(step)
    ensures RunLog(Drain(L, [], polls, step))
  {
    DrainLog(L, [], polls, step);
    var r := Drain(L, [], polls, step);
    assert r.0.log == [CreatedFutures] + r.0.log[1..];
  }

  lemma DrainFromStartInOrder(L: Loop, polls: seq<Poll>, step: LoopBody)
    requires Fresh(L) && TakesItsMessage(step)
    ensures RunInOrder(polls, Drain(L, [], polls, step))
  {
    var r := Drain(L, [], polls, step);
    var pending: seq<Message> := [];
    DrainInArrivalOrder(L, pending, polls, step);
    assert pending + Arrivals(polls) == Arrivals(polls);
    assert r.0.handled[|L.handled|..] == r.0.handled;
  }

  lemma DrainFromStartCounts(L: Loop, polls: seq<Poll>, step: LoopBody)
    requires Fresh(L) && Progresses(step) && Checks(step)
    ensures RunCounts(Drain(L, [], polls, step))
  {
    DrainCountsClosing(L, [], polls, step);
    DrainChecksEnd(L, [], polls, step);
  }

  /** A run with any well-formed body has all three. */
  lemma RunWithFacts(s: Study, mgr: Manager, polls: seq<Poll>, step: LoopBody)
    requires Valid(s) && WellFormed(step)
    ensures RunProperties(polls, RunWith(s, mgr, polls, step))
  {
    var (mgr', s') := Managers.CreateFutures(mgr, s);
    var L := Loop(s', mgr', map[], [], 0, [], [CreatedFutures]);
    DrainFromStartLog(L, polls, step);
    DrainFromStartInOrder(L, polls, step);
    DrainFromStartCounts(L, polls, step);
  }

  /** `run` as a whole has all three. */
  lemma RunFacts(s: Study, mgr: Manager, polls: seq<Poll>, cfg: Config)
    requires Valid(s)
    ensures RunProperties(polls, Run(s, mgr, polls, cfg))
  {
    IntendedIsWellFormed(cfg);
    RunWithFacts(s, mgr, polls, Intended(cfg));
  }

  /** A trial that raised `ValueError` while nothing catches it: the loop
      stops, fails the unfinished trials and raises the `ValueError`. With the
      local manager the stop cannot time out. */
  lemma UncaughtTrialFailureRaises(L: Loop, id: TrialId, cfg: Config)
    requires L.manager.LocalMode?
    requires id in L.study.trials && L.study.trials[id].state.Running?
    requires cfg.catch == []
    ensures var r := Step(L, FailedTrial(id, ValueError), cfg);
      && r.1 == Some(Raised(ValueError))
      && UnfinishedIds(r.0.study) == {}
      && r.0.study.trials[id].state == Fail
  {
    var m := FailedTrial(id, ValueError);
    HandleStopsOnUncaught(L, m, EffectOf(L, m, cfg), cfg);
  }

  /** The same failure with `ValueError` in `catch`: the loop carries on past
      it (unless the timeout elapsed) and counts the trial as finished. */
  lemma CaughtTrialFailureContinues(L: Loop, id: TrialId, cfg: Config)
    requires id in L.study.trials && L.study.trials[id].state.Running?
    requires cfg.catch == ["ValueError"] && !cfg.late(|L.handled| + 1)
    ensures var r := Step(L, FailedTrial(id, ValueError), cfg);
      && (r.1.None? || r.1 == Some(Ended))
      && r.0.progress == L.progress + 1
      && r.0.study.trials[id].state == Fail
  {
    var m := FailedTrial(id, ValueError);
    assert IsInstanceOfAny(ValueError, cfg.catch) by {
      assert cfg.catch[0] in ValueError.classes;
    }
    var eff := EffectOf(L, m, cfg);
    assert eff == ProcessFailed(id, ValueError, L.study);
    assert eff.raised == Some(ValueError) && eff.study.trials[id].state == Fail;
    HandleCarriesOn(L, m, eff, cfg);
    var h := Handle(L, m, cfg);
    assert h.1.None? && h.0.study == eff.study;
    var r := Finish(h.0, m);
    assert Step(L, m, cfg) == r;
  }

  /** A heartbeat handled by the distributed loop before the timeout leaves
      the manager and the study alone and reaches the end check: the loop
      ends there exactly when `should_end_optimization` is true. This is how
      the heartbeat a lost task puts on the queue lets the loop see that the
      run is over. */
  lemma HeartbeatReachesEndCheck(L: Loop, cfg: Config)
    requires L.manager.DistributedMode? && !cfg.late(|L.handled| + 1)
    ensures var r := Step(L, Heartbeat, cfg);
      && r.0.manager == L.manager && r.0.study == L.study && r.0.progress == L.progress
      && r.0.checks == L.checks + [ShouldEnd(L.manager)]
      && (r.1 == Some(Ended) <==> ShouldEnd(L.manager))
      && (r.1.None? <==> !ShouldEnd(L.manager))
  {
    var eff := EffectOf(L, Heartbeat, cfg);
    HandleCarriesOn(L, Heartbeat, eff, cfg);
  }

  // ---------------------------------------------------------------------------
  // The progress check as written

  /** The loop body with `message.closing` read as the classes define it: for a
      failed message whose exception was caught the read raises
      `AttributeError`, which is outside the `try` and ends the loop. */
  function StepAsWritten(L: Loop, m: Message, cfg: Config): (r: (Loop, Option<Exit>))
    ensures !m.FailedTrial? ==> r == Step(L, m, cfg)
    ensures m.FailedTrial? && Handle(L, m, cfg).1.None? ==> r.1 == Some(Raised(AttributeError))
    ensures Handle(L, m, cfg).1.Some? ==> r == Step(L, m, cfg)
  {
    var (handled, exit) := Handle(L, m, cfg);
    if exit.Some? then (handled, exit)
    else
      match ClosingAsWritten(m)
      case None => (handled, Some(Raised(AttributeError)))
      case Some(_) => Finish(handled, m)
  }

  /** The loop body of `run` as written. */
  function AsWritten(cfg: Config): LoopBody
  {
    (L: Loop, m: Message) => StepAsWritten(L, m, cfg)
  }

  /** The body as written keeps the same disciplines as the intended one: its
      extra `AttributeError` leaves mid-step, before the progress update. */
  lemma StepAsWrittenFacts(L: Loop, m: Message, cfg: Config)
    ensures var r := StepAsWritten(L, m, cfg);
      && r.0.handled == L.handled + [m] && (r.1.Some? ==> BodyExit(r.1.value))
      && r.0.manager.LocalMode? == L.manager.LocalMode?
      && CountsAndChecks(L, m, r) && LogsSafely(L, r)
  {
    StepProgress(L, m, cfg);
    StepLog(L, m, cfg);
    HandleLog(L, m, EffectOf(L, m, cfg), cfg);
  }

  lemma AsWrittenIsWellFormed(cfg: Config)
    ensures WellFormed(AsWritten(cfg))
  {
    forall L: Loop, m: Message
      ensures && AsWritten(cfg)(L, m).0.handled == L.handled + [m]
              && (AsWritten(cfg)(L, m).1.Some? ==> BodyExit(AsWritten(cfg)(L, m).1.value))
              && AsWritten(cfg)(L, m).0.manager.LocalMode? == L.manager.LocalMode?
              && CountsAndChecks(L, m, AsWritten(cfg)(L, m))
              && LogsSafely(L, AsWritten(cfg)(L, m))
    {
      StepAsWrittenFacts(L, m, cfg);
    }
  }

  /** `EventLoop.run` as written. */
  function RunAsWritten(s: Study, mgr: Manager, polls: seq<Poll>, cfg: Config): (r: (Loop, Exit))
    requires Valid(s)
  {
    RunWith(s, mgr, polls, AsWritten(cfg))
  }

  /** The run as written has the same three properties. */
  lemma RunAsWrittenFacts(s: Study, mgr: Manager, polls: seq<Poll>, cfg: Config)
    requires Valid(s)
    ensures RunProperties(polls, RunAsWritten(s, mgr, polls, cfg))
  {
    AsWrittenIsWellFormed(cfg);
    RunWithFacts(s, mgr, polls, AsWritten(cfg));
  }

  /** With `catch=(ValueError,)` and a trial whose objective raised
      `ValueError`, the loop as written crashes with `AttributeError` right
      after catching, while the intended loop counts the trial and goes on. */
  lemma CaughtFailureCrashesAsWritten(L: Loop, id: TrialId, cfg: Config)
    requires id in L.study.trials && L.study.trials[id].state.Running?
    requires cfg.catch == ["ValueError"] && !cfg.late(|L.handled| + 1)
    ensures StepAsWritten(L, FailedTrial(id, ValueError), cfg).1 == Some(Raised(AttributeError))
    ensures Step(L, FailedTrial(id, ValueError), cfg).1 != Some(Raised(AttributeError))
  {
    var m := FailedTrial(id, ValueError);
    assert IsInstanceOfAny(ValueError, cfg.catch) by {
      assert cfg.catch[0] in ValueError.classes;
    }
    var eff := EffectOf(L, m, cfg);
    assert eff == ProcessFailed(id, ValueError, L.study);
    assert eff.raised == Some(ValueError) && eff.study.trials[id].state == Fail;
    HandleCarriesOn(L, m, eff, cfg);
    var h := Handle(L, m, cfg);
    assert h.1.None? && h.0.study == eff.study;
    var r := Finish(h.0, m);
    assert Step(L, m, cfg) == r;
  }
}

# optuna-distributed, modelled in Dafny

This project models the coordinating core of optuna-distributed. That library
runs the trials of an Optuna study in parallel: on local worker processes, or
as tasks on a Dask cluster. One coordinating process owns the study. Workers
never touch the study directly. Each worker holds a `DistributedTrial` proxy
that turns every call (`suggest_*`, `report`, `should_prune`, `set_*_attr`,
the property reads) into a message. The coordinator's `EventLoop` takes the
messages one at a time from the manager's `get_message`, lets each one
`process` itself against the study, and answers on the trial's private
channel when the worker is waiting.

The model is functional. Every object becomes an immutable datatype and every
method becomes a function from the old state to the new one.

| file | module | what it models |
|---|---|---|
| values.dfy | `Values` | `Option`; exceptions as a class name plus the set of classes it is an instance of (`isinstance` is membership) |
| store.dfy | `Store` | the part of Optuna's study and storage the core uses: trials, `enqueue_trial` and `ask`, look-ups, failing the unfinished trials |
| messages.dfy | `Messages` | every message class: its `closing` flag and its `process` |
| channels.dfy | `Channels` | a worker's connection, the private reply channels, and one poll's batch of messages |
| queue.dfy | `Ipc` | the `Queue` built on Dask's named queues: lazy opening, `get` with its retries and growing timeouts, `put` |
| trial.dfy | `Proxy` | `DistributedTrial`: each public call and the request it puts |
| local.dfy | `LocalManager` | `LocalOptimizationManager` and `_trial_runtime` |
| distributed.dfy | `DistributedManager` | `DistributedOptimizationManager`, `_StateSynchronizer` and `_distributable` |
| managers.dfy | `Managers` | the manager interface: dispatch to one of the two managers |
| eventloop.dfy | `EventLoop` | `EventLoop.run` and `_fail_unfinished_trials` |
| study.dfy | `DistributedStudies` | `DistributedStudy.optimize`, `into_study`, `from_study` |

## Inputs

Some things the code reads from its environment. They become inputs here:

- **The wall clock.** `late(k)` says whether the timeout has elapsed at the
  check after the `k`-th handled message.
- **Polls.** What each pass of `get_message` sees is a sequence of `Poll`s. A
  poll holds the connections that became readable, or a `KeyboardInterrupt`
  raised while the loop waited.
- **The patience wait.** The task states that `stop_optimization` observes
  once its patience has run out are an input.
- **Sampler, pruner, the distribution compatibility check and `study.tell`.**
  These are oracles in `Oracles`. Their algorithms belong to Optuna, not to
  this library.
- **Retry arrivals.** What each retry of `Queue.get` receives is an input.
- **The CPU count and the platform** are inputs.

## Calls that do not wait

Not every proxy call waits for an answer:

- `set_user_attr` and `set_system_attr` put their message and return at once
  (trial.py:222-223, 237-238).
- `should_prune` returns the coordinator's boolean to the objective, which
  decides what to do with it (trial.py:201-208).

## Model

| member | source | states |
|---|---|---|
| Store.AskMany | optuna_distributed/managers/distributed.py:129-133 | asking for `n` trials starts exactly `max(n, 0)` distinct trials, now RUNNING, handed out in increasing id order. Each was WAITING before or is new. No WAITING trial left behind is older than one taken, so enqueued trials go first, oldest first. Every id handed out since is among them, and no other trial changes. |
| Store.Ask | optuna_distributed/managers/distributed.py:132 | when some trial is WAITING, the oldest one (lowest id) is started: it becomes RUNNING and no trial is created. Otherwise a new RUNNING trial gets the next id, with the number of trials so far as its number. |
| Store.Enqueue | optuna_distributed/study.py:306-325 | enqueueing adds one WAITING trial under a fresh id, with the given user attributes and no start time. The set of waiting trials grows by exactly that trial, and no other trial changes. |
| Store.EnqueuedTrialAskedNext | optuna_distributed/study.py:306-325 | a trial enqueued while no other waits is the one the next `ask` starts, and that `ask` creates no new trial |
| Store.FailUnfinished | optuna_distributed/eventloop.py:88-93 | every RUNNING or WAITING trial becomes FAIL. Every other trial is unchanged. No trial is added or removed, and afterwards no unfinished trial remains. |
| Store.FailUnfinishedIdempotent | optuna_distributed/eventloop.py:88-93 | failing the unfinished trials a second time changes nothing |
| Messages.ClosingAsWritten | optuna_distributed/messages/failed.py:20-43 | reading `closing` fails exactly for a failed-trial message, the one class that defines no such attribute. For every other message it gives the closing flag: true for completed and pruned, false for all requests. |
| Messages.ProcessSuggest | optuna_distributed/messages/suggest.py:44-69 | an unknown trial raises `KeyError`. A name the trial already has is not sampled again and nothing is written, even for a finished trial. An incompatible distribution raises `ValueError`; otherwise the worker gets the recorded value. A new name on a finished trial is refused. On any other trial the parameter is recorded with its distribution and the sampler's value, and nothing else in the study changes. The worker gets exactly that value back. Any answer raises `KeyError` instead when the trial has no connection. |
| Messages.RepeatedSuggestKeepsFirst | optuna_distributed/messages/suggest.py:44-69 | suggesting a name a second time with a compatible distribution answers with the first value. It leaves the study as the first suggestion left it, keeping the first distribution. |
| Messages.ProcessCompleted | optuna_distributed/messages/completed.py:43-61 | the exit is registered on every path past the trial look-up (the `finally`). An already finished trial is left alone. A WAITING trial is refused. A RUNNING trial becomes COMPLETE with the value, or FAIL when `tell` rejects the value. No other trial changes. |
| Messages.ProcessPruned | optuna_distributed/messages/pruned.py:33-37 | a RUNNING trial becomes PRUNED and its exit is registered. If it has intermediate values, its value becomes the one at its largest step; otherwise its value is unchanged. Any other trial makes `tell` raise, leaving the study unchanged and no exit registered. |
| Messages.ProcessFailed | optuna_distributed/messages/failed.py:32-43 | processing always raises. For a RUNNING trial it first sets the trial to FAIL and registers the exit, then raises the worker's exception. Otherwise `tell` raises first and nothing changes. |
| Messages.ProcessSetAttribute | optuna_distributed/messages/setattr.py:41-47 | writes exactly one key of the user or the system attribute map of a trial that is not finished. An unknown trial raises `KeyError`; a finished one is refused. No reply, no exit, and no other trial changes. |
| Messages.ProcessPropertyRequest | optuna_distributed/messages/property.py:42-54 | the study never changes. A request keyed by one of the enum's members is answered with that property of the trial. A request keyed by anything else raises `KeyError`, and so does an unknown trial or a trial without a connection. |
| Messages.ProcessProperty | optuna_distributed/messages/property.py:42-54 | a request keyed by the member answers with exactly that property of the trial, for each of the six properties, without changing the study |
| Messages.PropertyTableComplete | optuna_distributed/messages/property.py:44-51 | the lookup table has an entry for a key exactly when the key is a member of `TrialProperty` |
| Messages.PropertyByNameRaises | optuna_distributed/trial.py:240-268 | a property request keyed by the name the proxy passes (`"params"`, ...) raises `KeyError` at the coordinator. The same request keyed by the member is answered. |
| Messages.ProcessShouldPrune | optuna_distributed/messages/shouldprune.py:30-33 | the worker is answered with the pruner's decision for its trial, and the study is unchanged |
| Messages.ProcessReport | optuna_distributed/messages/report.py:35-37 | an unknown trial raises `KeyError` and a negative step raises `ValueError`. A step already reported changes nothing and raises nothing. Otherwise a finished trial is refused, and any other trial gets the value at that step and nothing else changes. |
| Messages.ReportKeepsFirstValue | optuna_distributed/messages/report.py:35-37 | reporting twice at one step keeps the first value: the second report changes nothing |
| Messages.PrunedAfterReportTakesValue | optuna_distributed/messages/pruned.py:33-37 | a RUNNING trial that reported only `v` and is then pruned ends PRUNED with value `v` |
| Messages.ProcessIsLocal | optuna_distributed/messages/base.py:19-34 | any message changes at most its own trial's record. Responses and heartbeats do nothing. Only closing messages register an exit, and only for their own trial. At most one reply is sent, and it goes to the message's own trial. |
| Messages.QueriesLeaveStudyUnchanged | optuna_distributed/messages/shouldprune.py:30-33 | property requests, should-prune requests, responses and heartbeats never change the study |
| Messages.ProcessKeepsValid | optuna_distributed/messages/base.py:19-34 | processing any message keeps the study's id invariant |
| Messages.ShouldPruneWithoutReports | optuna_distributed/messages/shouldprune.py:30-33 | with a pruner that never prunes a trial without reports, a trial that reported nothing is told not to prune, and its state stays as it was |
| Channels.Batch | optuna_distributed/managers/local.py:66-88 | one pass of `get_message` yields the messages received in that poll, in order, or a single heartbeat when none arrived. It never yields nothing. |
| Channels.DeliverIsPerTrialFifo | optuna_distributed/managers/distributed.py:172-173 | each trial's private channel receives exactly the replies addressed to that trial, in the order they were sent, after what it already held |
| Ipc.NewQueue | optuna_distributed/ipc/queue.py:32-49 | a fixed timeout together with a retry limit is refused with `ValueError`. Any other configuration builds an unopened queue with the given names and settings. |
| Ipc.Initialize | optuna_distributed/ipc/queue.py:51-58 | after initialization the publisher is open, and the subscriber is open exactly when a receiving name was given. The first call opens each channel once; later calls change nothing. |
| Ipc.ChannelsOpenedOnce | optuna_distributed/ipc/queue.py:51-58 | however many times a fresh queue is used, each of its channels is opened exactly once |
| Ipc.Get | optuna_distributed/ipc/queue.py:60-74 | a publish-only queue raises `RuntimeError` without fetching. Otherwise attempt `i` waits for the fixed timeout, or for `2^i` seconds under a retry limit. The first message that arrives is returned. With a retry limit `m >= 1` the call raises `TimeoutError` after exactly `m` empty attempts. With `m <= 0` it never raises and keeps retrying. Without a limit it raises after one empty attempt with a timeout, and with no timeout it keeps blocking. |
| Ipc.GetExhaustsRetries | optuna_distributed/ipc/queue.py:68-74 | with a limit of `m` retries and no message, `get` waits 1, 2, 4, ... seconds, `m` times in all, then raises `TimeoutError` |
| Proxy.InvokeSendsOneRequest | optuna_distributed/trial.py:49-61 | with the corrected setters and property keys, every public call of the proxy puts exactly one request, carrying the proxy's own trial id, and it is never a closing message. On a pipe connection, a call that waits for an answer takes exactly one reply off the connection, or blocks when there is none. A fire-and-forget call reads nothing. |
| Proxy.AwaitReplyOnQueue | optuna_distributed/trial.py:57-61 | on a queue connection, a reply that arrives is read as on a pipe. A queue with a retry limit that sees no reply in all its attempts makes the call raise `TimeoutError`. A publish-only queue raises `RuntimeError`. |
| Proxy.SuggestRequests | optuna_distributed/trial.py:63-184 | each legacy suggestion call asks for the distribution that `suggest_float` or `suggest_int` would ask for with the matching step and log options. Categorical choices are passed through unchanged. |
| Proxy.SuggestRoundTrip | optuna_distributed/trial.py:57-61 | a suggestion put by a worker blocks the worker, is processed by the coordinator, and is answered on its private channel. The worker then returns exactly the value the coordinator has recorded for that parameter. The one exception is a name already recorded with an incompatible distribution: the coordinator raises `ValueError` and sends no answer. |
| Proxy.PropertyRoundTrip | optuna_distributed/trial.py:53-55 | a property read keyed by the member returns exactly that property of the trial's record and leaves the study unchanged |
| Proxy.SetAttrAsWritten | optuna_distributed/trial.py:210-238 | the attribute setters as written: either they raise in the worker and send nothing, or they send the one intended message |
| Proxy.SetAttrAsWrittenRaises | optuna_distributed/trial.py:222-237 | as written, both setters raise `TypeError`, because the key is passed positionally into the `kind` parameter and `kind` is passed again by keyword. The corrected setters put exactly one set-attribute message of the right kind. |
| LocalManager.ClampJobs | optuna_distributed/managers/local.py:44-53 | a worker count outside `1..cpus` becomes the CPU count; any count inside that range is kept |
| LocalManager.NewLocal | optuna_distributed/managers/local.py:44-53 | the first batch of workers is at most the job limit. The first batch plus the trials left over make up `n_trials`. Trials are left over only when the first batch fills the job limit. |
| LocalManager.CreateFuturesGrowsPool | optuna_distributed/managers/local.py:55-64 | starting workers keeps every pooled trial among those started, and every started trial in the study and no longer WAITING. It never starts a trial twice, and grows the pool by the number of workers started. |
| LocalManager.StartEstablishesInv | optuna_distributed/managers/local.py:44-64 | after construction and `create_futures` the manager invariant holds. The pool then holds `min(n_jobs, n_trials)` workers and never more than the CPU count. |
| LocalManager.PollKeepsInv | optuna_distributed/managers/local.py:78-84 | a poll drops the finished connections, keeps the invariant, and allows only as many new workers as both the job limit and the trials left permit |
| LocalManager.AfterMessageKeepsInv | optuna_distributed/managers/local.py:90-94 | topping up after a poll keeps the invariant. It refills the pool to the job limit, or to all the trials still to run when those are fewer. |
| LocalManager.LiveWhileNotEnded | optuna_distributed/managers/local.py:105-106 | while the run has not ended, at least one and at most `n_jobs` workers are alive (tests/test_managers.py:275-276) |
| LocalManager.EndedAfterAllTrials | optuna_distributed/managers/local.py:105-106 | when the local manager says the run is over, exactly `max(n_trials, 0)` trials were started and no worker remains |
| LocalManager.ClosingMessageFor | optuna_distributed/managers/local.py:113-130 | a returned value gives a completed message. A `TrialPruned` gives a pruned message. Any other `Exception` gives a failed message. Anything that is not an `Exception` sends nothing. |
| LocalManager.TrialRuntime | optuna_distributed/managers/local.py:113-130 | the worker always closes its connection. It sends exactly one closing message for its own trial, unless the objective raised something that is not an `Exception`, which escapes and sends nothing. |
| LocalManager.ClosingMessageFinishesTrial | optuna_distributed/managers/local.py:113-130 | once the coordinator processes the closing message a worker sent for a RUNNING trial, the trial's exit is registered. A raised objective leaves the trial finished. A returned value that `tell` accepts leaves it COMPLETE with that value; one `tell` rejects leaves it FAIL; if `tell` does not raise, the trial is finished either way. |
| DistributedManager.EmitStopAndWait | optuna_distributed/managers/distributed.py:74-80 | clears the "optimization enabled" flag and leaves the task states alone. It raises `TimeoutError` exactly when a task is still RUNNING once the patience has run out. |
| DistributedManager.Distributable | optuna_distributed/managers/distributed.py:186-218 | a task that is not WAITING does nothing. A WAITING task marks itself RUNNING then FINISHED, runs the objective once, sends at most one message, and always closes its connection. |
| DistributedManager.ResubmittedTaskRunsOnce | optuna_distributed/managers/distributed.py:186-218 | however many times the cluster resubmits a WAITING task, one run after another, the objective runs exactly once, the task ends FINISHED, and at most one message is sent |
| DistributedManager.NotWaitingNeverRuns | optuna_distributed/managers/distributed.py:186-218 | a task that is not WAITING never runs, however often it is resubmitted |
| DistributedManager.DistributableAgreesWithLocal | optuna_distributed/managers/distributed.py:186-218 | a task that is not interrupted sends the same message, and lets the same exception escape, as a local worker for the same outcome |
| DistributedManager.NewDistributed | optuna_distributed/managers/distributed.py:99-115 | a fresh manager has counted no exits and holds no private channels. Its synchronizer is enabled, and the synchronizer's stop flag has a name of its own, not the public channel's. No name drawn later equals either. The public queue receives on its own name, with the heartbeat interval as its timeout and no retry limit. |
| DistributedManager.AssignPrivateChannel | optuna_distributed/managers/distributed.py:124-127 | the trial gets a fresh channel name. Its queue publishes on the public channel, receives on the new name, and retries 5 times. No other channel changes. |
| DistributedManager.UnansweredCallFailsTrial | optuna_distributed/managers/distributed.py:124-127 | a proxy call whose reply never comes raises `TimeoutError` after the private queue's five attempts. When the objective lets it escape, the task sends a failed message for its trial. |
| DistributedManager.CreateFuturesTrials | optuna_distributed/managers/distributed.py:148-153 | one task per trial that `study.ask()` handed out, in that order. Each trial is RUNNING and was WAITING or is new, enqueued trials come first and oldest first, and no other trial changes. |
| DistributedManager.CreateFuturesChannels | optuna_distributed/managers/distributed.py:135-146 | every task's trial has a private channel, and its connection receives on a fresh name that is not the public channel. Its state index points at a WAITING state, and it watches the synchronizer's stop flag. |
| DistributedManager.CreateFuturesChannelsDistinct | optuna_distributed/managers/distributed.py:135-146 | no two tasks share a trial or a reply channel |
| DistributedManager.GetMessage | optuna_distributed/managers/distributed.py:155-167 | a message on the public queue is yielded as it is. When the heartbeat timeout passes with nothing, a heartbeat is yielded instead. |
| DistributedManager.EnsureSafeExit | optuna_distributed/managers/distributed.py:117-122 | a task that errored or was cancelled adds one to the exit count and puts a heartbeat on the public queue. The exit is registered under id -1, which the count ignores. A task in any other state changes nothing and puts nothing. |
| DistributedManager.SettleFutures | optuna_distributed/managers/distributed.py:117-122 | the done callbacks of a batch of futures add one exit per errored or cancelled task, and put one heartbeat each. Nothing else in the manager changes. |
| DistributedManager.LostTasksStillEnd | optuna_distributed/managers/distributed.py:117-122 | counting from zero, `k` closing messages and the callbacks end the run exactly when `k` plus the lost tasks make `n_trials`. So the run ends when every task that sent no closing message errored or was cancelled. |
| DistributedManager.StopOptimization | optuna_distributed/managers/distributed.py:175-177 | of the manager's own state, stopping only clears the flag. It raises exactly when the synchronizer's wait does. The cancelling of the futures is not modelled (see Left out). |
| DistributedManager.EndsAfterNTrialExits | optuna_distributed/managers/distributed.py:179-183 | starting from no exits, the distributed manager says the run is over exactly when `n_trials` exits have been registered |
| Managers.Poll | optuna_distributed/managers/base.py:49-53 | both managers yield the same batch for a poll. The distributed one keeps its channels and its exit count. |
| Managers.StopOptimization | optuna_distributed/managers/local.py:99-103 | the local manager's stop never raises. Only the distributed one can raise, with `TimeoutError`, exactly when a task is still running. In the model, stopping changes neither the connections nor the end condition; the cancelled futures' callbacks are not modelled (see Left out). |
| EventLoop.HandleLetsBaseExceptionsEscape | optuna_distributed/eventloop.py:63-72 | an exception that is not an `Exception` escapes the handler: no stop, no failing of trials, no timeout check |
| EventLoop.HandleStopsOnUncaught | optuna_distributed/eventloop.py:67-72 | an `Exception` outside `catch` stops the manager, fails every unfinished trial and is raised again. When the stop times out, its `TimeoutError` propagates instead and no trial is failed. |
| EventLoop.HandleCarriesOn | optuna_distributed/eventloop.py:63-78 | with nothing raised or the exception caught, the loop carries on. `after_message` runs exactly when nothing was raised. A timeout stops the manager without failing any trial. |
| EventLoop.StepProgress | optuna_distributed/eventloop.py:74-86 | the progress count moves by one exactly for a closing message that got past the timeout check. `should_end_optimization` is asked once for every message that got past the timeout check, heartbeats included, and the loop ends exactly when it answers true. |
| EventLoop.DrainInArrivalOrder | optuna_distributed/eventloop.py:62-86 | messages are handled one at a time, in the order `get_message` yields them. A loop left waiting has handled every message that arrived. |
| EventLoop.DrainCountsClosing | optuna_distributed/eventloop.py:80-81 | the progress count equals the number of closing messages handled, except the last one when the loop left in the middle of handling it |
| EventLoop.DrainChecksEnd | optuna_distributed/eventloop.py:84-86 | every end check but the last answered false, and the loop ended on the end check exactly when the last answer was true |
| EventLoop.DrainLog | optuna_distributed/eventloop.py:62-78 | the loop never calls `create_futures` again. It fails the unfinished trials only as its last act before raising, and a timeout never fails trials. |
| EventLoop.RunFacts | optuna_distributed/eventloop.py:44-86 | a whole run calls `create_futures` first and once, handles a prefix of the arrivals in order (all of them if left waiting), counts the closing messages, and ends on `should_end_optimization` only when it answered true |
| EventLoop.RunAsWrittenFacts | optuna_distributed/eventloop.py:44-86 | the run as written, where a caught failure ends the loop with `AttributeError`, has the same three properties |
| EventLoop.HeartbeatReachesEndCheck | optuna_distributed/eventloop.py:62-86 | a heartbeat handled by the distributed loop before the timeout changes neither the manager nor the study, and reaches the end check. The loop ends there exactly when `should_end_optimization` is true. |
| EventLoop.UncaughtTrialFailureRaises | tests/test_eventloop.py:9-18 | a trial failing with `ValueError` that nothing catches ends the run with that `ValueError`, with the trial FAIL and no unfinished trial left |
| EventLoop.CaughtTrialFailureContinues | tests/test_eventloop.py:21-29 | with `ValueError` in `catch` the loop counts the failed trial and carries on |
| EventLoop.StepAsWritten | optuna_distributed/eventloop.py:80-81 | the loop body as written agrees with the corrected one except for a failed message that got past the handler, where reading `closing` raises `AttributeError` |
| EventLoop.CaughtFailureCrashesAsWritten | optuna_distributed/eventloop.py:80 | with `catch=(ValueError,)`, a trial failing with `ValueError` crashes the loop as written with `AttributeError`. The corrected loop does not crash. |
| DistributedStudies.FromStudy | optuna_distributed/study.py:350-378 | wrapping a study and unwrapping it again gives back the same study |
| DistributedStudies.CatchMeaning | optuna_distributed/study.py:177 | a single class catches exactly its own instances. A tuple catches an exception when any of its classes does. |
| DistributedStudies.SelectManager | optuna_distributed/study.py:178-182 | distributed mode is chosen exactly when a client is given whose cluster is not a `LocalCluster`; local mode otherwise |
| DistributedStudies.Conclude | optuna_distributed/study.py:190-205 | the session is removed on every path. The interrupt handler runs exactly for a `KeyboardInterrupt`; it fails every unfinished trial and re-raises, unless the workers' stop timed out. Any other exit raises what the loop raised. |
| DistributedStudies.Optimize | optuna_distributed/study.py:132-205 | `n_trials=None`, and local mode on Windows, raise `ValueError` before anything else happens. Once the loop ran, the storage session is removed. An interrupt fails every unfinished trial and is raised again, unless a distributed stop timed out. Any other outcome raises what the loop raised. |

## Left out

- Pipes, Dask futures, process start-up, pickling and the Dask scheduler's queues are not modelled. A connection is a list of sent messages and an inbox; a `Queue` is its two channel names and its settings.
- The task supervisor thread and the delivery of `WorkerInterrupted` into a running task (distributed.py:221-235) are left out: they need threads. The model treats an interrupt as one possible outcome of the objective.
- Killing and joining local processes in `stop_optimization` (local.py:99-103) is left out. Only its effect on what the loop sees is kept: it never raises.
- DistributedManager.StopOptimization: `client.cancel` of the futures (distributed.py:176) is left out. Their done callbacks would register exits and put heartbeats (`SettleFutures`), but the loop has already stopped and never sees them. Managers.StopOptimization's "changes neither the connections nor the end condition" holds for the model only.
- Messages.ProcessSuggest: fixed parameters of an enqueued trial, single-value distributions and relative sampling are inside the sampler oracle. The model does not carry Optuna's invariant that a trial's params and distributions have the same names. A trial holding a name in only one of the two maps is treated as not yet suggested.
- The wall clock, the patience waits and the heartbeat timeout are inputs, as described above. No real time is modelled.
- The terminal's progress bar, spinner and log output are left out. Only the progress count is kept.
- messages/repeated.py and the package `__init__` files are left out: they are not part of the core.
- The pass-through accessors of `DistributedStudy` (`trials`, `best_trial`, `get_trials`, ...) are left out: they only forward to the wrapped study.
- Optuna's distribution checks, sampling, pruning and `tell` validation are left out. They are oracles in `Oracles`.
- `Queue.close` is left out: the model has no resources to release.
- `callbacks` and `show_progress_bar` of `optimize` are left out: the code ignores callbacks, and the progress bar is output.
- The string-versus-enum mismatch for the attribute kind (`kind="user"` against `AttributeType.USER`, setattr.py:41-47) is not modelled as a second failure. The corrected setters pass the enum member.
- `uuid4()` is a counter (`Uuid(k)`). This keeps the fresh names distinct without randomness.
- `EventLoop.Drain` treats polls that run out while the loop still waits as the exit `InputExhausted`. The real loop would keep waiting.
- The loop body is a parameter (`LoopBody`) in the whole-run lemmas. They hold for any body with the stated per-message properties. Both `Intended` and the body as written (`AsWritten`) are shown to have them.
- `EventLoop.Run` and `DistributedStudies.Optimize` run the corrected loop body, in which a caught failed message counts as closing (see Findings). `EventLoop.RunAsWritten` runs the body as written.
- DistributedManager.ResubmittedTaskRunsOnce: covers resubmissions that run one after another. The check-then-set of the task state (distributed.py:188-192) is not atomic, so two runs that overlap can both see WAITING and both run the objective. Overlapping runs need threads and are not modelled.
- Store.Ask: `skip_if_exists`, the fixed parameters an enqueued trial carries, and Optuna's failing of stale trials by heartbeat are not modelled. The sampler that reads the fixed parameters is an oracle.
- Messages.ProcessReport: the multi-objective `NotImplementedError`, the `float()` conversion of the value, and the warning on a repeated step are not modelled.
- Messages.ProcessPruned: the check that the last intermediate value is feasible (not NaN) is not modelled, because values are reals.

## Findings

| source | as written | input that shows it | evidently intended | confidence | as-written member | corrected member |
|---|---|---|---|---|---|---|
| optuna_distributed/eventloop.py:80 | `message.closing` is read for every handled message. `FailedMessage` (failed.py:20-43) defines no `closing`, and neither does the base `Message`. | `optimize(..., catch=(ValueError,))` with an objective that raises `ValueError`: the exception is caught, then reading `closing` raises `AttributeError` outside the `try` | a failed trial is a closing message: it counts as one step of progress and the loop goes on (tests/test_messages.py:141 asserts `msg.closing`) | not executed | EventLoop.CaughtFailureCrashesAsWritten | EventLoop.CaughtTrialFailureContinues |
| optuna_distributed/trial.py:222 | `SetAttributeMessage(self.trial_id, key, value, kind="user")` binds `key` to the positional parameter `kind`, then passes `kind` again by keyword (the same at trial.py:237) | any `trial.set_user_attr("k", 1)` in a worker raises `TypeError` (multiple values for `kind`) | the message is built as `(trial_id, kind, key, value)` and the attribute is set at the coordinator | not executed | Proxy.SetAttrAsWrittenRaises | Proxy.InvokeSendsOneRequest |
| optuna_distributed/trial.py:240-268 | the property accessors pass strings such as `"params"`, but the coordinator's table (property.py:44-51) is keyed by `TrialProperty` members | reading `trial.params` in a worker: the coordinator's lookup raises `KeyError`, which stops the run unless caught | the request carries the enum member and is answered with the property | not executed | Messages.PropertyByNameRaises | Proxy.PropertyRoundTrip |

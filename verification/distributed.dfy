/**
 `DistributedOptimizationManager`: runs every trial as one cluster task. All
 workers publish on one public queue; each trial reads its replies from its own
 private queue. A per-task state (WAITING, RUNNING, FINISHED) shared with the
 workers makes a task that the cluster runs twice execute the objective once,
 and a shared flag lets the coordinator ask running tasks to stop.
 */
module DistributedManager {
  import opened Values
  import opened Store
  import opened Messages
  import opened Channels
  import opened Ipc
  import opened Proxy
  import opened LocalManager

  /** `_TaskState`. */
  datatype TaskState = TaskWaiting | TaskRunning | TaskFinished

  /** `_StateSynchronizer`: the shared "optimization enabled" flag, the name
      of the variable that holds it (`stop_flag`), and one shared state
      variable per task, in creation order. */
  datatype Synchronizer = Synchronizer(enabled: bool, stopFlag: string, taskStates: seq<TaskState>)

  /** `_StateSynchronizer()`, whose flag variable is named `flag`. */
  function NewSynchronizer(flag: string): (r: Synchronizer)
    ensures r.enabled && r.stopFlag == flag && r.taskStates == []
  {
    Synchronizer(true, flag, [])
  }

  /** `set_initial_state`: a new state variable set to WAITING; its index
      stands for the variable's name. */
  function SetInitialState(sync: Synchronizer): (r: (Synchronizer, nat))
    ensures r.0.enabled == sync.enabled && r.0.stopFlag == sync.stopFlag
    ensures r.0.taskStates == sync.taskStates + [TaskWaiting]
    ensures r.1 == |sync.taskStates| && r.0.taskStates[r.1] == TaskWaiting
  {
    (sync.(taskStates := sync.taskStates + [TaskWaiting]), |sync.taskStates|)
  }

  /** `emit_stop_and_wait(patience)`: clears the flag, then waits for the tasks.
      `observed` is what the task states are once the patience has run out;
      the call raises `TimeoutError` exactly when some task is still RUNNING. */
  function EmitStopAndWait(sync: Synchronizer, observed: seq<TaskState>): (r: (Synchronizer, Option<Exception>))
    ensures !r.0.enabled && r.0.taskStates == sync.taskStates && r.0.stopFlag == sync.stopFlag
    ensures r.1.Some? <==> TaskRunning in observed
    ensures r.1.Some? ==> r.1.value == TimeoutError
  {
    (sync.(enabled := false), if TaskRunning in observed then Some(TimeoutError) else None)
  }

  // ---------------------------------------------------------------------------
  // _distributable

  /** What one run of the wrapped objective does: the states it writes to its
      task variable in order, its trial proxy afterwards, and the exception
      that escapes the task, if any. */
  datatype TaskRun = TaskRun(writes: seq<TaskState>, trial: DistributedTrial, escaped: Option<Exception>)

  /** The message a task sends for an outcome. Like the local runtime's, except
      that `WorkerInterrupted`, the supervisor's stop request, sends nothing. */
  function TaskMessageFor(id: TrialId, outcome: Outcome): (r: Option<Message>)
    ensures (outcome.ObjectiveRaised? && IsInstance(outcome.e, "WorkerInterrupted")
             && !IsInstance(outcome.e, "TrialPruned")) ==> r.None?
    ensures !(outcome.ObjectiveRaised? && IsInstance(outcome.e, "WorkerInterrupted")) ==>
            r == ClosingMessageFor(id, outcome)
  {
    match outcome
    case ObjectiveReturned(v) => Some(Completed(id, v))
    case ObjectiveRaised(e) =>
      if IsInstance(e, "TrialPruned") && IsInstance(e, "Exception") then Some(PrunedTrial(id))
      else if IsInstance(e, "WorkerInterrupted") then None
      else if IsInstance(e, "Exception") then Some(FailedTrial(id, e))
      else None
  }

  /** `_distributable(func)(context)` given the task's current state: a task
      that is not WAITING returns at once; otherwise it goes RUNNING, runs the
      objective, puts the message for the outcome, and on every path closes its
      connection and goes FINISHED. */
  function Distributable(state: TaskState, t: DistributedTrial, outcome: Outcome): (r: TaskRun)
    ensures state != TaskWaiting ==> r == TaskRun([], t, None)
    ensures state == TaskWaiting ==>
      && r.writes == [TaskRunning, TaskFinished]
      && r.trial.trialId == t.trialId && r.trial.conn.closed && r.trial.conn.inbox == t.conn.inbox
      && (TaskMessageFor(t.trialId, outcome).Some? ==>
            r.trial.conn.sent == t.conn.sent + [TaskMessageFor(t.trialId, outcome).value])
      && (TaskMessageFor(t.trialId, outcome).None? ==> r.trial.conn.sent == t.conn.sent)
      && (r.escaped.Some? <==> outcome.ObjectiveRaised? && !IsInstance(outcome.e, "Exception"))
  {
    if state != TaskWaiting then TaskRun([], t, None)
    else
      var escaped := if outcome.ObjectiveRaised? && !IsInstance(outcome.e, "Exception") then Some(outcome.e) else None;
      var conn := match TaskMessageFor(t.trialId, outcome)
        case Some(msg) => PutOn(t.conn, msg)
        case None => t.conn;
      TaskRun([TaskRunning, TaskFinished], t.(conn := Close(conn)), escaped)
  }

  /** The task's state after a run. */
  function AfterRun(state: TaskState, run: TaskRun): TaskState
  {
    if run.writes == [] then state else run.writes[|run.writes| - 1]
  }

  /** The cluster running the same task once per outcome in `outcomes` (a task
      may be run again, say after a worker is lost). Returns the final task
      state, the trial proxy and how many times the objective ran. */
  function SubmitRepeatedly(state: TaskState, t: DistributedTrial, outcomes: seq<Outcome>): (r: (TaskState, DistributedTrial, nat))
    decreases |outcomes|
  {
    if |outcomes| == 0 then (state, t, 0)
    else
      var run := Distributable(state, t, outcomes[0]);
      var rest := SubmitRepeatedly(AfterRun(state, run), run.trial, outcomes[1..]);
      (rest.0, rest.1, rest.2 + if run.writes == [] then 0 else 1)
  }

  lemma {:induction false} NotWaitingNeverRuns(state: TaskState, t: DistributedTrial, outcomes: seq<Outcome>)
    requires state != TaskWaiting
    ensures SubmitRepeatedly(state, t, outcomes) == (state, t, 0)
    decreases |outcomes|
  {
    if |outcomes| > 0 {
      NotWaitingNeverRuns(state, t, outcomes[1..]);
    }
  }

  /** However many times a WAITING task is submitted, the objective runs once,
      the task ends FINISHED, and at most one message is sent. */
  lemma {:induction false} ResubmittedTaskRunsOnce(t: DistributedTrial, outcomes: seq<Outcome>)
    requires |outcomes| >= 1
    ensures var (state, t', runs) := SubmitRepeatedly(TaskWaiting, t, outcomes);
      && runs == 1 && state == TaskFinished
      && t'.conn.closed
      && t.conn.sent <= t'.conn.sent && |t'.conn.sent| <= |t.conn.sent| + 1
  {
    var run := Distributable(TaskWaiting, t, outcomes[0]);
    NotWaitingNeverRuns(TaskFinished, run.trial, outcomes[1..]);
  }

  /** A task that is not interrupted sends the same message as a local worker
      for the same outcome. */
  lemma DistributableAgreesWithLocal(t: DistributedTrial, outcome: Outcome)
    requires !(outcome.ObjectiveRaised? && IsInstance(outcome.e, "WorkerInterrupted"))
    ensures Distributable(TaskWaiting, t, outcome).trial == TrialRuntime(t, outcome).0
    ensures Distributable(TaskWaiting, t, outcome).escaped == TrialRuntime(t, outcome).1
  {
  }

  // ---------------------------------------------------------------------------
  // The manager

  /** A fresh `uuid4()` string; the k-th name handed out. Names are distinct. */
  function Uuid(k: nat): (r: string)
    ensures |r| == k + 1
  {
    seq(k + 1, _ => '-')
  }

  /** What a task receives: its trial proxy's id and private queue, the stop
      flag's name and the index of its state variable. */
  datatype TaskContext = TaskContext(trialId: TrialId, connection: Queue, stopFlag: string, stateIndex: nat)

  datatype FutureStatus = Pending | FinishedOk | Errored | Cancelled

  datatype Distributed = Distributed(
    nTrials: int,
    completed: int,
    publicChannel: string,
    messageQueue: Queue,
    privateChannels: map<TrialId, string>,
    sync: Synchronizer,
    /** How many uuids have been drawn so far. */
    uuids: nat)

  /** `DistributedOptimizationManager(client, n_trials, heartbeat_interval)`:
      the public queue both publishes and receives on the public channel and
      times out after the heartbeat interval, so its construction never fails.
      The synchronizer's flag variable gets a fresh name of its own. */
  function NewDistributed(nTrials: int, heartbeatInterval: int): (m: Distributed)
    ensures m.completed == 0 && m.nTrials == nTrials && m.privateChannels == map[]
    ensures m.sync == NewSynchronizer(m.sync.stopFlag) && m.sync.stopFlag != m.publicChannel
    ensures forall k :: m.uuids <= k ==> Uuid(k) != m.publicChannel && Uuid(k) != m.sync.stopFlag
    ensures NewQueue(m.publicChannel, Some(m.publicChannel), Some(heartbeatInterval), None).Built?
    ensures m.messageQueue == NewQueue(m.publicChannel, Some(m.publicChannel), Some(heartbeatInterval), None).q
  {
    var channel := Uuid(0);
    var flag := Uuid(1);
    Distributed(nTrials, 0, channel, NewQueue(channel, Some(channel), Some(heartbeatInterval), None).q,
                map[], NewSynchronizer(flag), 2)
  }

  /** `_assign_private_channel`: records a fresh channel name for the trial
      and builds its queue: publishing on the public channel, receiving on the
      private one, with five retries instead of a fixed timeout. */
  function AssignPrivateChannel(m: Distributed, id: TrialId): (r: (Distributed, Queue))
    ensures r.0 == m.(privateChannels := m.privateChannels[id := Uuid(m.uuids)], uuids := m.uuids + 1)
    ensures NewQueue(m.publicChannel, Some(Uuid(m.uuids)), None, Some(5)).Built?
    ensures r.1 == NewQueue(m.publicChannel, Some(Uuid(m.uuids)), None, Some(5)).q
  {
    var name := Uuid(m.uuids);
    (m.(privateChannels := m.privateChannels[id := name], uuids := m.uuids + 1),
     NewQueue(m.publicChannel, Some(name), None, Some(5)).q)
  }

  /** A proxy call whose reply never comes: the private queue gives up after
      five attempts, the call raises `TimeoutError`, and when the objective
      lets that escape, the task reports the trial as failed. */
  method UnansweredCallFailsTrial(m: Distributed, id: TrialId, arrivals: seq<Option<Message>>)
      returns (a: Answer, msg: Option<Message>)
    requires |arrivals| >= 5 && forall i :: 0 <= i < 5 ==> arrivals[i].None?
    ensures a == CallRaised(TimeoutError)
    ensures msg == Some(FailedTrial(id, TimeoutError))
  {
    var q := AssignPrivateChannel(m, id).1;
    var q';
    q', a := AwaitReplyOnQueue(q, arrivals);
    msg := TaskMessageFor(id, ObjectiveRaised(a.e));
  }

  /** `_create_trials` followed by `_add_task_context` for the given trial ids. */
  function AddTasks(m: Distributed, ids: seq<TrialId>): (r: (Distributed, seq<TaskContext>))
    ensures |r.1| == |ids|
    ensures r.0.uuids == m.uuids + |ids|
    ensures r.0.nTrials == m.nTrials && r.0.completed == m.completed
    ensures r.0.publicChannel == m.publicChannel && r.0.messageQueue == m.messageQueue
    ensures r.0.sync.enabled == m.sync.enabled && r.0.sync.stopFlag == m.sync.stopFlag
    ensures r.0.sync.taskStates == m.sync.taskStates + seq(|ids|, _ => TaskWaiting)
    ensures Contexts(m, ids, r.1)
    ensures ChannelsFor(m, r.0, ids)
    decreases |ids|
  {
    if |ids| == 0 then (m, [])
    else
      var (m1, q) := AssignPrivateChannel(m, ids[0]);
      var (sync, index) := SetInitialState(m1.sync);
      var head := TaskContext(ids[0], q, m.sync.stopFlag, index);
      var rest := AddTasks(m1.(sync := sync), ids[1..]);
      assert m.sync.taskStates + seq(|ids|, _ => TaskWaiting)
          == sync.taskStates + seq(|ids| - 1, _ => TaskWaiting);
      ContextsCons(m, m1.(sync := sync), ids, head, rest.1);
      ChannelsCons(m, m1.(sync := sync), rest.0, ids);
      (rest.0, [head] + rest.1)
  }

  /** The task context built for the `i`-th of the trials added to `m`. */
  ghost predicate ContextFor(m: Distributed, i: nat, id: TrialId, c: TaskContext)
  {
    && c.trialId == id
    && c.stateIndex == |m.sync.taskStates| + i
    && c.stopFlag == m.sync.stopFlag
    && c.connection.receiving == Some(Uuid(m.uuids + i))
    && c.connection.publishing == m.publicChannel
    && c.connection.maxRetries == Some(5) && c.connection.timeout.None?
  }

  /** One context per trial, in order. */
  ghost predicate Contexts(m: Distributed, ids: seq<TrialId>, tasks: seq<TaskContext>)
  {
    |tasks| == |ids| && forall i :: 0 <= i < |ids| ==> ContextFor(m, i, ids[i], tasks[i])
  }

  /** `m'` gave every trial of `ids` a private channel and kept the others'. */
  ghost predicate ChannelsFor(m: Distributed, m': Distributed, ids: seq<TrialId>)
  {
    && (forall x :: x in m'.privateChannels <==> x in m.privateChannels || x in ids)
    && (forall x :: x in m.privateChannels && x !in ids ==> m'.privateChannels[x] == m.privateChannels[x])
  }

  lemma ContextsCons(m: Distributed, m1: Distributed, ids: seq<TrialId>, head: TaskContext, rest: seq<TaskContext>)
    requires |ids| > 0 && ContextFor(m, 0, ids[0], head)
    requires m1.uuids == m.uuids + 1 && |m1.sync.taskStates| == |m.sync.taskStates| + 1
    requires m1.publicChannel == m.publicChannel && m1.sync.stopFlag == m.sync.stopFlag
    requires Contexts(m1, ids[1..], rest)
    ensures Contexts(m, ids, [head] + rest)
  {
    var tasks := [head] + rest;
    forall i | 0 <= i < |ids|
      ensures ContextFor(m, i, ids[i], tasks[i])
    {
      if i > 0 {
        assert tasks[i] == rest[i - 1] && ids[i] == ids[1..][i - 1];
        assert ContextFor(m1, i - 1, ids[1..][i - 1], rest[i - 1]);
      }
    }
  }

  lemma ChannelsCons(m: Distributed, m1: Distributed, m': Distributed, ids: seq<TrialId>)
    requires |ids| > 0 && m1.privateChannels.Keys == m.privateChannels.Keys + {ids[0]}
    requires forall x :: x in m.privateChannels && x != ids[0] ==> m1.privateChannels[x] == m.privateChannels[x]
    requires ChannelsFor(m1, m', ids[1..])
    ensures ChannelsFor(m, m', ids)
  {
    assert forall x :: x in ids <==> x == ids[0] || x in ids[1..];
  }

  /** `create_futures`: asks the study for `n_trials` trials, gives each a
      private channel and a WAITING state, and submits one task per trial. */
  function CreateFutures(m: Distributed, s: Study): (r: (Distributed, Study, seq<TaskContext>))
    requires Valid(s)
    ensures Valid(r.1) && Extends(s, r.1)
    ensures |r.2| == Max0(m.nTrials)
    ensures r.0.sync.taskStates == m.sync.taskStates + seq(Max0(m.nTrials), _ => TaskWaiting)
    ensures r.0.completed == m.completed && r.0.nTrials == m.nTrials
  {
    var asked := AskMany(s, m.nTrials);
    var added := AddTasks(m, asked.1);
    (added.0, asked.0, added.1)
  }

  /** The trials the tasks run, in order. */
  function TaskTrials(tasks: seq<TaskContext>): (r: seq<TrialId>)
    ensures |r| == |tasks| && forall i :: 0 <= i < |tasks| ==> r[i] == tasks[i].trialId
  {
    seq(|tasks|, i requires 0 <= i < |tasks| => tasks[i].trialId)
  }

  /** The tasks of `create_futures` run the trials `study.ask()` handed out, in
      that order: each is RUNNING in the study and was an enqueued WAITING trial
      or is new, the WAITING ones come first and oldest first, and no other
      trial of the study changes. */
  lemma {:induction false} CreateFuturesTrials(m: Distributed, s: Study)
    requires Valid(s)
    ensures var r := CreateFutures(m, s);
      AskedFrom(s, r.1, TaskTrials(r.2))
  {
    var asked := AskMany(s, m.nTrials);
    var contexts := AddTasks(m, asked.1).1;
    assert TaskTrials(contexts) == asked.1;
  }

  /** Task `i` of `tasks` has a private channel of its own, the fresh name
      `Uuid(m.uuids + i)`, which is never the public one, reads a state
      variable that is WAITING, and watches the synchronizer's stop flag. */
  ghost predicate Wired(m: Distributed, m': Distributed, tasks: seq<TaskContext>)
  {
    forall i :: 0 <= i < |tasks| ==>
      && tasks[i].trialId in m'.privateChannels
      && tasks[i].stopFlag == m.sync.stopFlag == m'.sync.stopFlag
      && tasks[i].connection.receiving == Some(Uuid(m.uuids + i))
      && tasks[i].connection.receiving != Some(m.publicChannel)
      && 0 <= tasks[i].stateIndex < |m'.sync.taskStates|
      && m'.sync.taskStates[tasks[i].stateIndex] == TaskWaiting
  }

  lemma {:induction false} AddTasksChannels(m: Distributed, ids: seq<TrialId>)
    requires m.publicChannel == Uuid(0) && m.uuids >= 1
    ensures Wired(m, AddTasks(m, ids).0, AddTasks(m, ids).1)
  {
    var added := AddTasks(m, ids);
    ContextsWired(m, added.0, ids, added.1);
  }

  /** Contexts built as `AddTasks` builds them are wired. */
  lemma ContextsWired(m: Distributed, m': Distributed, ids: seq<TrialId>, tasks: seq<TaskContext>)
    requires m.publicChannel == Uuid(0) && m.uuids >= 1
    requires Contexts(m, ids, tasks) && ChannelsFor(m, m', ids)
    requires m'.sync.taskStates == m.sync.taskStates + seq(|ids|, _ => TaskWaiting)
    requires m'.sync.stopFlag == m.sync.stopFlag
    ensures Wired(m, m', tasks)
  {
    var states := m'.sync.taskStates;
    forall i | 0 <= i < |tasks|
      ensures tasks[i].trialId in m'.privateChannels
      ensures tasks[i].connection.receiving != Some(m.publicChannel)
      ensures states[tasks[i].stateIndex] == TaskWaiting
    {
      assert ContextFor(m, i, ids[i], tasks[i]);
      assert tasks[i].trialId == ids[i] && ids[i] in ids;
      assert |Uuid(m.uuids + i)| != |m.publicChannel|;
      assert states[|m.sync.taskStates| + i] == TaskWaiting;
    }
  }

  /** The tasks `create_futures` submits are wired as `Wired` says. */
  lemma {:induction false} CreateFuturesChannels(m: Distributed, s: Study)
    requires Valid(s) && m.publicChannel == Uuid(0) && m.uuids >= 1
    ensures Wired(m, CreateFutures(m, s).0, CreateFutures(m, s).2)
  {
    var asked := AskMany(s, m.nTrials);
    AddTasksChannels(m, asked.1);
  }

  /** No two tasks share a trial or a reply channel. */
  lemma {:induction false} CreateFuturesChannelsDistinct(m: Distributed, s: Study)
    requires Valid(s) && m.publicChannel == Uuid(0) && m.uuids >= 1
    ensures var contexts := CreateFutures(m, s).2;
      forall i, j :: 0 <= i < j < |contexts| ==>
        && contexts[i].trialId != contexts[j].trialId
        && contexts[i].connection.receiving != contexts[j].connection.receiving
  {
    CreateFuturesTrials(m, s);
    CreateFuturesChannels(m, s);
    var contexts := CreateFutures(m, s).2;
    assert forall i :: 0 <= i < |contexts| ==> TaskTrials(contexts)[i] == contexts[i].trialId;
  }

  /** One pass of `get_message`: a message on the public queue, or a heartbeat
      when the fetch timed out. `arrival` is what the single fetch attempt sees;
      the public queue is built with the heartbeat interval as its timeout. */
  method GetMessage(m: Distributed, arrival: Option<Message>) returns (m': Distributed, msg: Message)
    requires m.messageQueue.receiving.Some? && m.messageQueue.maxRetries.None?
    requires m.messageQueue.timeout.Some?
    ensures m' == m.(messageQueue := Initialize(m.messageQueue))
    ensures arrival.Some? ==> msg == arrival.value
    ensures arrival.None? ==> msg == Heartbeat
  {
    var q, fetched, timeouts := Get(m.messageQueue, [arrival]);
    m' := m.(messageQueue := q);
    match fetched
    case Got(x) => msg := x;
    case FetchRaised(_) => msg := Heartbeat;
    case StillWaiting => assert false; msg := Heartbeat;
  }

  /** `after_message` does nothing in distributed mode. */
  function AfterMessage(m: Distributed): (r: Distributed)
    ensures r == m
  {
    m
  }

  predicate ShouldEnd(m: Distributed)
  {
    m.completed == m.nTrials
  }

  /** `register_trial_exit`: counts one exit, whatever the id. */
  function RegisterTrialExit(m: Distributed, id: int): (r: Distributed)
    ensures r.completed == m.completed + 1 && r == m.(completed := r.completed)
  {
    m.(completed := m.completed + 1)
  }

  /** `_ensure_safe_exit`: a task that errored or was cancelled never sends a
      closing message, so it is counted as an exit here and a heartbeat is put
      on the public queue to wake the loop. */
  function EnsureSafeExit(m: Distributed, status: FutureStatus): (r: (Distributed, Option<Message>))
    ensures r.0 == m.(completed := m.completed + (if status.Errored? || status.Cancelled? then 1 else 0))
    ensures r.1.Some? <==> status.Errored? || status.Cancelled?
    ensures r.1.Some? ==> r.1.value.Heartbeat?
  {
    if status.Errored? || status.Cancelled? then (RegisterTrialExit(m, -1), Some(Heartbeat)) else (m, None)
  }

  /** A future that will never send a closing message. */
  predicate Lost(status: FutureStatus)
  {
    status.Errored? || status.Cancelled?
  }

  /** How many of `statuses` are lost. */
  function LostCount(statuses: seq<FutureStatus>): nat
    decreases |statuses|
  {
    if |statuses| == 0 then 0 else (if Lost(statuses[0]) then 1 else 0) + LostCount(statuses[1..])
  }

  /** The done callbacks of futures that finish with `statuses`, in that
      order: every lost task is counted as one exit and puts one heartbeat on
      the public queue; nothing else changes. */
  function SettleFutures(m: Distributed, statuses: seq<FutureStatus>): (r: (Distributed, seq<Message>))
    ensures r.0 == m.(completed := m.completed + LostCount(statuses))
    ensures |r.1| == LostCount(statuses) && forall i :: 0 <= i < |r.1| ==> r.1[i] == Heartbeat
    decreases |statuses|
  {
    if |statuses| == 0 then (m, [])
    else
      var (m1, put) := EnsureSafeExit(m, statuses[0]);
      var rest := SettleFutures(m1, statuses[1..]);
      (rest.0, (if put.Some? then [put.value] else []) + rest.1)
  }

  lemma {:induction false} AllLostCount(statuses: seq<FutureStatus>)
    requires forall i :: 0 <= i < |statuses| ==> Lost(statuses[i])
    ensures LostCount(statuses) == |statuses|
    decreases |statuses|
  {
    if |statuses| > 0 {
      AllLostCount(statuses[1..]);
    }
  }

  /** Counting from zero, `k` closing messages and then the done callbacks of
      the futures end the run exactly when `k` plus the lost tasks make
      `n_trials`. So the run still ends when every task that sent no closing
      message errored or was cancelled. */
  lemma {:induction false} LostTasksStillEnd(m: Distributed, k: nat, statuses: seq<FutureStatus>)
    requires m.completed == 0
    ensures ShouldEnd(SettleFutures(RegisterTimes(m, k), statuses).0) <==> k + LostCount(statuses) == m.nTrials
    ensures k <= m.nTrials && |statuses| == m.nTrials - k
            && (forall i :: 0 <= i < |statuses| ==> Lost(statuses[i])) ==>
      ShouldEnd(SettleFutures(RegisterTimes(m, k), statuses).0)
  {
    EndsAfterNTrialExits(m, k);
    if forall i :: 0 <= i < |statuses| ==> Lost(statuses[i]) {
      AllLostCount(statuses);
    }
  }

  /** `stop_optimization`: cancels the tasks and waits for running ones. */
  function StopOptimization(m: Distributed, observed: seq<TaskState>): (r: (Distributed, Option<Exception>))
    ensures !r.0.sync.enabled && r.0 == m.(sync := r.0.sync)
    ensures r.1 == EmitStopAndWait(m.sync, observed).1
  {
    var (sync, raised) := EmitStopAndWait(m.sync, observed);
    (m.(sync := sync), raised)
  }

  function RegisterTimes(m: Distributed, k: nat): Distributed
    decreases k
  {
    if k == 0 then m else RegisterTrialExit(RegisterTimes(m, k - 1), k)
  }

  /** Starting from a fresh count, the manager is done exactly when `n_trials`
      exits have been registered. */
  lemma {:induction false} EndsAfterNTrialExits(m: Distributed, k: nat)
    requires m.completed == 0
    ensures RegisterTimes(m, k).completed == k
    ensures ShouldEnd(RegisterTimes(m, k)) <==> k == m.nTrials
    ensures RegisterTimes(m, k).nTrials == m.nTrials
    decreases k
  {
    if k > 0 {
      EndsAfterNTrialExits(m, k - 1);
    }
  }
}

/**
 `LocalOptimizationManager`: runs trials in local worker processes, at most
 `n_jobs` at a time. The pool is the set of trials whose connection is still
 open; a worker leaves the pool when its connection reaches end of file. Workers
 to spawn are recomputed on every poll and spawned by `after_message`.
 */
module LocalManager {
  import opened Values
  import opened Store
  import opened Messages
  import opened Channels
  import opened Proxy

  function Min(a: int, b: int): int
  {
    if a <= b then a else b
  }

  function Max0(n: int): nat
  {
    if n <= 0 then 0 else n
  }

  /** The constructor's choice of `n_jobs`: a request outside `1..cpus` becomes
      the CPU count. */
  function ClampJobs(nJobs: int, cpus: int): (r: int)
    requires cpus >= 1
    ensures 1 <= r <= cpus
    ensures 1 <= nJobs <= cpus ==> r == nJobs
    ensures !(1 <= nJobs <= cpus) ==> r == cpus
  {
    if nJobs <= 0 || nJobs > cpus then cpus else nJobs
  }

  datatype Local = Local(
    nJobs: int,
    workersToSpawn: int,
    trialsRemaining: int,
    pool: set<TrialId>,
    /** Every trial a worker was started for, in order (`_processes`). */
    spawned: seq<TrialId>)

  /** `LocalOptimizationManager(n_trials, n_jobs)` on a machine with `cpus` CPUs.
      The first batch is `min(n_jobs, n_trials)` workers; the rest of the
      trials are left for later. */
  function NewLocal(nTrials: int, nJobs: int, cpus: int): (m: Local)
    requires cpus >= 1
    ensures m.nJobs == ClampJobs(nJobs, cpus) && m.pool == {} && m.spawned == []
    ensures nTrials >= 0 ==>
      && 0 <= m.workersToSpawn <= m.nJobs
      && m.workersToSpawn + m.trialsRemaining == nTrials
      && (m.trialsRemaining > 0 ==> m.workersToSpawn == m.nJobs)
    ensures nTrials < 0 ==> m.workersToSpawn == nTrials && m.trialsRemaining == 0
  {
    var jobs := ClampJobs(nJobs, cpus);
    var toSpawn := Min(jobs, nTrials);
    Local(jobs, toSpawn, nTrials - toSpawn, {}, [])
  }

  /** `create_futures`: asks the study for `workers_to_spawn` trials and starts
      one worker for each; every new trial joins the pool. A non-positive count
      starts nothing. The trials are the ones `study.ask()` hands out: enqueued
      WAITING trials first, then new ones. */
  function CreateFutures(m: Local, s: Study): (r: (Local, Study))
    requires Valid(s)
    ensures Valid(r.1) && Extends(s, r.1)
    ensures |r.0.spawned| == |m.spawned| + Max0(m.workersToSpawn)
    ensures r.0.spawned[..|m.spawned|] == m.spawned
    ensures forall i :: |m.spawned| <= i < |r.0.spawned| ==>
      && (r.0.spawned[i] in WaitingIds(s) || r.0.spawned[i] !in s.trials)
      && r.0.spawned[i] in r.1.trials && r.1.trials[r.0.spawned[i]].state == Running
    ensures forall i, j :: |m.spawned| <= i < j < |r.0.spawned| ==> r.0.spawned[i] < r.0.spawned[j]
    ensures forall x :: x in r.0.pool <==> x in m.pool || x in r.0.spawned[|m.spawned|..]
    ensures forall x :: x in r.1.trials <==> x in s.trials || x in r.0.spawned[|m.spawned|..]
    ensures r.0.nJobs == m.nJobs && r.0.workersToSpawn == m.workersToSpawn
    ensures r.0.trialsRemaining == m.trialsRemaining
  {
    var (s', ids) := AskMany(s, m.workersToSpawn);
    assert (m.spawned + ids)[|m.spawned|..] == ids;
    assert (m.spawned + ids)[..|m.spawned|] == m.spawned;
    (m.(pool := m.pool + Elements(ids), spawned := m.spawned + ids), s')
  }

  /** One pass of `get_message`'s loop: drops the trials whose connections
      reached end of file, recomputes how many workers may be started, and
      yields the messages received (or one heartbeat). */
  function Poll(m: Local, incoming: seq<Incoming>): (r: (Local, seq<Message>))
    ensures r.0.pool == m.pool - EofIn(incoming)
    ensures r.0.workersToSpawn == Min(m.nJobs - |r.0.pool|, m.trialsRemaining)
    ensures r.0.nJobs == m.nJobs && r.0.trialsRemaining == m.trialsRemaining && r.0.spawned == m.spawned
    ensures r.1 == Batch(incoming)
  {
    var pool := m.pool - EofIn(incoming);
    (m.(pool := pool, workersToSpawn := Min(m.nJobs - |pool|, m.trialsRemaining)), Batch(incoming))
  }

  /** `after_message`: starts the workers the last poll allowed, if any. */
  function AfterMessage(m: Local, s: Study): (r: (Local, Study))
    requires Valid(s)
    ensures Valid(r.1) && Extends(s, r.1)
    ensures m.workersToSpawn <= 0 ==> r == (m, s)
    ensures m.workersToSpawn > 0 ==>
      && r.0.workersToSpawn == 0
      && r.0.trialsRemaining == m.trialsRemaining - m.workersToSpawn
      && |r.0.spawned| == |m.spawned| + m.workersToSpawn
  {
    if m.workersToSpawn > 0 then
      var (m', s') := CreateFutures(m, s);
      (m'.(trialsRemaining := m'.trialsRemaining - m'.workersToSpawn, workersToSpawn := 0), s')
    else (m, s)
  }

  /** `should_end_optimization`. */
  predicate ShouldEnd(m: Local)
  {
    |m.pool| == 0 && m.trialsRemaining == 0
  }

  /** `register_trial_exit` does nothing: the pool learns about exits from
      end of file on the connection. */
  function RegisterTrialExit(m: Local, id: TrialId): (r: Local)
    ensures r == m
  {
    m
  }

  // ---------------------------------------------------------------------------
  // Pool invariants

  /** The manager's state between polls, for a run of `nTrials` trials:
      at most `nJobs` live workers, each of them started by this manager,
      started trials distinct, in the study and no longer WAITING, and started
      plus remaining trials account for the whole run. */
  ghost predicate Inv(m: Local, nTrials: int, s: Study)
  {
    && Valid(s)
    && 1 <= m.nJobs
    && 0 <= m.trialsRemaining
    && |m.pool| <= m.nJobs
    && Started(m.pool, m.spawned, s)
    && |m.spawned| + m.trialsRemaining == Max0(nTrials)
  }

  /** The pool lies within the started trials, and the started trials are
      distinct, in the study and no longer WAITING. */
  ghost predicate Started(pool: set<TrialId>, spawned: seq<TrialId>, s: Study)
  {
    && (forall x :: x in pool ==> x in spawned)
    && (forall x :: x in spawned ==> x in s.trials && !s.trials[x].state.Waiting?)
    && (forall i, j :: 0 <= i < j < |spawned| ==> spawned[i] != spawned[j])
  }

  /** `workers_to_spawn` as the last poll left it. */
  ghost predicate Polled(m: Local)
  {
    m.workersToSpawn == Min(m.nJobs - |m.pool|, m.trialsRemaining)
  }

  /** The trials listed in `xs`. */
  function Elements(xs: seq<TrialId>): (r: set<TrialId>)
    ensures forall x :: x in r <==> x in xs
  {
    set x: TrialId | x in xs
  }

  lemma {:induction false} DistinctCard(xs: seq<TrialId>)
    requires forall i, j :: 0 <= i < j < |xs| ==> xs[i] != xs[j]
    ensures |Elements(xs)| == |xs|
    decreases |xs|
  {
    if |xs| > 0 {
      var rest := xs[1..];
      DistinctCard(rest);
      assert Elements(xs) == Elements(rest) + {xs[0]};
      assert xs[0] !in Elements(rest);
    }
  }

  /** The bookkeeping facts `create_futures` keeps: started trials stay
      distinct and in the study, the pool stays within the started trials, and
      the pool grows by exactly the number of workers started. */
  lemma {:induction false} CreateFuturesGrowsPool(m: Local, s: Study)
    requires Valid(s) && Started(m.pool, m.spawned, s)
    ensures var (c, s') := CreateFutures(m, s);
      && Started(c.pool, c.spawned, s')
      && |c.pool| == |m.pool| + Max0(m.workersToSpawn)
  {
    var (c, s') := CreateFutures(m, s);
    CreateFuturesSpawned(m, s, c, s');
    CreateFuturesPoolSize(m, s, c);
  }

  lemma CreateFuturesSpawned(m: Local, s: Study, c: Local, s': Study)
    requires Valid(s) && (c, s') == CreateFutures(m, s)
    requires forall x :: x in m.spawned ==> x in s.trials && !s.trials[x].state.Waiting?
    requires forall i, j :: 0 <= i < j < |m.spawned| ==> m.spawned[i] != m.spawned[j]
    ensures forall x :: x in c.spawned ==> x in s'.trials && !s'.trials[x].state.Waiting?
    ensures forall i, j :: 0 <= i < j < |c.spawned| ==> c.spawned[i] != c.spawned[j]
  {
    CreateFuturesStarted(m, s, c, s');
    CreateFuturesDistinct(m, s, c, s');
  }

  lemma CreateFuturesStarted(m: Local, s: Study, c: Local, s': Study)
    requires Valid(s) && (c, s') == CreateFutures(m, s)
    requires forall x :: x in m.spawned ==> x in s.trials && !s.trials[x].state.Waiting?
    ensures forall x :: x in c.spawned ==> x in s'.trials && !s'.trials[x].state.Waiting?
  {
    var ids := c.spawned[|m.spawned|..];
    assert c.spawned == m.spawned + ids;
    forall x | x in c.spawned ensures x in s'.trials && !s'.trials[x].state.Waiting? {
      if x in ids {
        var i :| 0 <= i < |ids| && ids[i] == x;
        assert c.spawned[|m.spawned| + i] == x;
      } else {
        assert x in m.spawned;
      }
    }
  }

  lemma CreateFuturesDistinct(m: Local, s: Study, c: Local, s': Study)
    requires Valid(s) && (c, s') == CreateFutures(m, s)
    requires forall x :: x in m.spawned ==> x in s.trials && !s.trials[x].state.Waiting?
    requires forall i, j :: 0 <= i < j < |m.spawned| ==> m.spawned[i] != m.spawned[j]
    ensures forall i, j :: 0 <= i < j < |c.spawned| ==> c.spawned[i] != c.spawned[j]
  {
    forall i, j | 0 <= i < j < |c.spawned| ensures c.spawned[i] != c.spawned[j] {
      if j >= |m.spawned| && i < |m.spawned| {
        assert c.spawned[i] == m.spawned[i];
        assert c.spawned[i] in s.trials && !s.trials[c.spawned[i]].state.Waiting?;
      }
    }
  }

  lemma CreateFuturesPoolSize(m: Local, s: Study, c: Local)
    requires Valid(s) && c == CreateFutures(m, s).0
    requires forall x :: x in m.pool ==> x in m.spawned
    requires forall x :: x in m.spawned ==> x in s.trials && !s.trials[x].state.Waiting?
    ensures |c.pool| == |m.pool| + Max0(m.workersToSpawn)
  {
    var ids := c.spawned[|m.spawned|..];
    assert forall i, j :: 0 <= i < j < |ids| ==> ids[i] != ids[j] by {
      forall i, j | 0 <= i < j < |ids| ensures ids[i] != ids[j] {
        assert ids[i] == c.spawned[|m.spawned| + i] && ids[j] == c.spawned[|m.spawned| + j];
      }
    }
    DistinctCard(ids);
    var added := Elements(ids);
    assert c.pool == m.pool + added;
    assert m.pool * added == {} by {
      forall x | x in m.pool ensures x !in added {
        assert x in m.spawned;
        forall i | 0 <= i < |ids| ensures ids[i] != x {
          assert ids[i] == c.spawned[|m.spawned| + i];
        }
      }
    }
    assert |m.pool + added| == |m.pool| + |added|;
  }

  /** Constructing the manager and calling `create_futures` once starts
      `min(n_jobs, n_trials)` workers and establishes the invariant. */
  lemma {:induction false} StartEstablishesInv(nTrials: int, nJobs: int, cpus: int, s: Study)
    requires cpus >= 1 && Valid(s)
    ensures var (m, s') := CreateFutures(NewLocal(nTrials, nJobs, cpus), s);
      && Inv(m, nTrials, s')
      && |m.pool| == Min(ClampJobs(nJobs, cpus), Max0(nTrials))
      && m.nJobs <= cpus
  {
    var m0 := NewLocal(nTrials, nJobs, cpus);
    CreateFuturesGrowsPool(m0, s);
    var (m, s') := CreateFutures(m0, s);
    assert |m.pool| == Max0(m0.workersToSpawn) && |m.spawned| == Max0(m0.workersToSpawn);
    assert m.nJobs == m0.nJobs && m.trialsRemaining == m0.trialsRemaining;
    if nTrials >= 0 {
      assert Max0(m0.workersToSpawn) == Min(ClampJobs(nJobs, cpus), Max0(nTrials));
    } else {
      assert Max0(m0.workersToSpawn) == 0;
    }
  }

  /** A poll keeps the invariant and leaves a non-negative number of workers
      to start, never more than free slots or remaining trials. */
  lemma PollKeepsInv(m: Local, nTrials: int, s: Study, incoming: seq<Incoming>)
    requires Inv(m, nTrials, s)
    ensures var m' := Poll(m, incoming).0;
      && Inv(m', nTrials, s) && Polled(m')
      && 0 <= m'.workersToSpawn <= m'.trialsRemaining
      && |m'.pool| + m'.workersToSpawn <= m'.nJobs
  {
    var m' := Poll(m, incoming).0;
    assert m'.pool <= m.pool;
  }

  /** The same facts one level up: `after_message` with workers to start. */
  lemma {:induction false} AfterMessageGrowsPool(m: Local, s: Study)
    requires Valid(s) && m.workersToSpawn > 0 && Started(m.pool, m.spawned, s)
    ensures var r := AfterMessage(m, s);
      && Started(r.0.pool, r.0.spawned, r.1)
      && |r.0.pool| == |m.pool| + m.workersToSpawn
      && r.0.nJobs == m.nJobs
  {
    CreateFuturesGrowsPool(m, s);
  }

  /** `after_message` following a poll keeps the invariant and keeps the pool
      full: afterwards either all `n_jobs` slots are taken or no trial is left
      to start. */
  lemma {:induction false} AfterMessageKeepsInv(m: Local, nTrials: int, s: Study)
    requires Inv(m, nTrials, s) && Polled(m)
    ensures var r := AfterMessage(m, s);
      && Inv(r.0, nTrials, r.1)
      && |r.0.pool| == Min(m.nJobs, |m.pool| + m.trialsRemaining)
      && (|r.0.pool| == r.0.nJobs || r.0.trialsRemaining == 0)
      && r.0.nJobs == m.nJobs
  {
    var r := AfterMessage(m, s);
    if m.workersToSpawn > 0 {
      StartingKeepsInv(m, nTrials, s, r.0, r.1);
      StartingFillsPool(m, nTrials, s, r.0, r.1);
    } else {
      assert r == (m, s);
    }
  }

  lemma StartingKeepsInv(m: Local, nTrials: int, s: Study, c: Local, s': Study)
    requires Inv(m, nTrials, s) && Polled(m) && m.workersToSpawn > 0
    requires (c, s') == AfterMessage(m, s)
    ensures Inv(c, nTrials, s')
  {
    AfterMessageGrowsPool(m, s);
    assert |c.spawned| + c.trialsRemaining == |m.spawned| + m.trialsRemaining;
  }

  lemma StartingFillsPool(m: Local, nTrials: int, s: Study, c: Local, s': Study)
    requires Inv(m, nTrials, s) && Polled(m) && m.workersToSpawn > 0
    requires (c, s') == AfterMessage(m, s)
    ensures |c.pool| == Min(m.nJobs, |m.pool| + m.trialsRemaining) && c.nJobs == m.nJobs
    ensures |c.pool| == c.nJobs || c.trialsRemaining == 0
  {
    AfterMessageGrowsPool(m, s);
    assert |c.pool| == |m.pool| + m.workersToSpawn;
  }

  /** While the run has not ended, `after_message` leaves at least one and at
      most `n_jobs` live workers. */
  lemma LiveWhileNotEnded(m: Local, nTrials: int, s: Study)
    requires Inv(m, nTrials, s) && Polled(m)
    ensures var m' := AfterMessage(m, s).0;
      !ShouldEnd(m') ==> 0 < |m'.pool| <= m'.nJobs
  {
    AfterMessageKeepsInv(m, nTrials, s);
  }

  /** When the run ends, exactly `max(n_trials, 0)` trials were started, each
      once. */
  lemma EndedAfterAllTrials(m: Local, nTrials: int, s: Study)
    requires Inv(m, nTrials, s) && ShouldEnd(m)
    ensures |m.spawned| == Max0(nTrials)
    ensures m.pool == {}
  {
  }

  // ---------------------------------------------------------------------------
  // _trial_runtime

  /** How a call of the objective function ended. */
  datatype Outcome = ObjectiveReturned(v: Value) | ObjectiveRaised(e: Exception)

  /** The closing message a worker sends for an outcome: completed for a
      value, pruned for `TrialPruned`, failed for any other `Exception`, and
      nothing for a `BaseException` that is not an `Exception`. */
  function ClosingMessageFor(id: TrialId, outcome: Outcome): (r: Option<Message>)
    ensures r.Some? ==> Closing(r.value) && r.value.trialId == id
    ensures r.None? <==> outcome.ObjectiveRaised? && !IsInstance(outcome.e, "Exception")
    ensures outcome.ObjectiveReturned? ==> r == Some(Completed(id, outcome.v))
    ensures outcome.ObjectiveRaised? && IsInstance(outcome.e, "TrialPruned") && IsInstance(outcome.e, "Exception") ==>
      r == Some(PrunedTrial(id))
    ensures outcome.ObjectiveRaised? && !IsInstance(outcome.e, "TrialPruned") && IsInstance(outcome.e, "Exception") ==>
      r == Some(FailedTrial(id, outcome.e))
  {
    match outcome
    case ObjectiveReturned(v) => Some(Completed(id, v))
    case ObjectiveRaised(e) =>
      if IsInstance(e, "TrialPruned") && IsInstance(e, "Exception") then Some(PrunedTrial(id))
      else if IsInstance(e, "Exception") then Some(FailedTrial(id, e))
      else None
  }

  /** `_trial_runtime`: runs the objective, puts the closing message and closes
      the connection whatever happened. Returns the exception that escapes the
      worker, if any. */
  function TrialRuntime(t: DistributedTrial, outcome: Outcome): (r: (DistributedTrial, Option<Exception>))
    ensures r.0.trialId == t.trialId && r.0.conn.closed && r.0.conn.inbox == t.conn.inbox
    ensures r.1.None? ==>
      |r.0.conn.sent| == |t.conn.sent| + 1 && r.0.conn.sent[..|t.conn.sent|] == t.conn.sent
      && Closing(r.0.conn.sent[|t.conn.sent|]) && r.0.conn.sent[|t.conn.sent|].trialId == t.trialId
    ensures r.1.Some? ==> r.0.conn.sent == t.conn.sent && outcome == ObjectiveRaised(r.1.value)
    ensures r.1.Some? <==> outcome.ObjectiveRaised? && !IsInstance(outcome.e, "Exception")
  {
    match ClosingMessageFor(t.trialId, outcome)
    case Some(msg) => (t.(conn := Close(PutOn(t.conn, msg))), None)
    case None => (t.(conn := Close(t.conn)), Some(outcome.e))
  }

  /** Once the coordinator processes the closing message of a RUNNING trial, the
      exit is registered and the trial is finished, unless `tell` itself
      raised. Pruned and failed trials always finish. */
  lemma {:induction false} ClosingMessageFinishesTrial(id: TrialId, outcome: Outcome, s: Study,
                                                       connected: set<TrialId>, o: Oracles)
    requires id in s.trials && s.trials[id].state.Running?
    requires ClosingMessageFor(id, outcome).Some?
    ensures var r := Process(ClosingMessageFor(id, outcome).value, s, connected, o);
      && r.exits == [id]
      && (outcome.ObjectiveRaised? ==> r.study.trials[id].state.IsFinished())
      && (outcome.ObjectiveReturned? && !o.tell(s.trials[id], outcome.v).TellRaises? ==>
            r.study.trials[id].state.IsFinished())
      && (outcome.ObjectiveReturned? && o.tell(s.trials[id], outcome.v) == Accepted ==>
            r.study.trials[id].state == Complete && r.study.trials[id].value == Some(outcome.v))
      && (outcome.ObjectiveReturned? && o.tell(s.trials[id], outcome.v) == Rejected ==>
            r.study.trials[id].state == Fail)
  {
    match outcome
    case ObjectiveReturned(v) =>
    case ObjectiveRaised(e) =>
  }
}

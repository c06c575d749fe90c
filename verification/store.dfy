/**
 An abstract Optuna study: the trial store the coordinator owns. Only the parts
 the coordinator touches are modelled: asking for new trials, the trial records
 the messages read and write, and the rule that a finished trial is read-only.
 Sampling, pruning and value validation are oracles supplied by the caller.
 */
module Store {
  import opened Values

  type TrialId = nat

  /** optuna's `TrialState`. */
  datatype TrialState = Running | Waiting | Complete | Pruned | Fail {
    predicate IsFinished()
    {
      Complete? || Pruned? || Fail?
    }

    /** The states `_fail_unfinished_trials` and the interrupt handler look for. */
    predicate IsUnfinished()
    {
      Running? || Waiting?
    }
  }

  /** The three distribution kinds a worker can ask for. */
  datatype Distribution =
    | FloatDist(low: real, high: real, step: Option<real>, log: bool)
    | IntDist(lowInt: int, highInt: int, stepInt: int, logInt: bool)
    | CategoricalDist(choices: seq<Value>)

  /** A trial record. `datetimeStart` is a logical time stamp (the order in
      which trials were asked for) rather than a wall-clock time. */
  datatype Trial = Trial(
    number: nat,
    state: TrialState,
    params: map<string, Value>,
    distributions: map<string, Distribution>,
    intermediate: map<int, real>,
    userAttrs: map<string, Value>,
    systemAttrs: map<string, Value>,
    datetimeStart: Option<nat>,
    value: Option<Value>)

  datatype Study = Study(trials: map<TrialId, Trial>, nextId: TrialId)

  /** Representation invariant: every id in use is below the next id to hand out. */
  ghost predicate Valid(s: Study)
  {
    forall id :: id in s.trials ==> id < s.nextId
  }

  /** `s'` differs from `s` at most in the record of trial `id`. */
  ghost predicate OnlyTouches(s: Study, s': Study, id: TrialId)
  {
    && s'.trials.Keys == s.trials.Keys
    && s'.nextId == s.nextId
    && forall t :: t in s.trials && t != id ==> s'.trials[t] == s.trials[t]
  }

  /** `t'` is the WAITING trial `t` started: RUNNING, with a start time, and
      otherwise unchanged. */
  ghost predicate StartedFrom(t: Trial, t': Trial)
  {
    t.state.Waiting? && t' == t.(state := Running, datetimeStart := t'.datetimeStart)
  }

  /** Every trial of `s` is still in `s'`, with the same record unless it was
      WAITING in `s` and has been started since. */
  ghost predicate Extends(s: Study, s': Study)
  {
    && s.trials.Keys <= s'.trials.Keys
    && s.nextId <= s'.nextId
    && forall t :: t in s.trials ==> s'.trials[t] == s.trials[t] || StartedFrom(s.trials[t], s'.trials[t])
  }

  lemma ExtendsTransitive(s1: Study, s2: Study, s3: Study)
    requires Extends(s1, s2) && Extends(s2, s3)
    ensures Extends(s1, s3)
  {
  }

  /** A fresh RUNNING trial, as `study.ask()` creates it. */
  function NewTrial(number: nat, stamp: nat): (t: Trial)
    ensures t.state == Running && t.params == map[] && t.distributions == map[]
    ensures t.intermediate == map[] && t.userAttrs == map[] && t.systemAttrs == map[]
  {
    Trial(number, Running, map[], map[], map[], map[], map[], Some(stamp), None)
  }

  /** Trials of `s` that are WAITING: enqueued by `enqueue_trial` and not yet
      started. */
  function WaitingIds(s: Study): set<TrialId>
  {
    set id | id in s.trials && s.trials[id].state.Waiting?
  }

  /** `study.enqueue_trial(params, user_attrs)`: adds a WAITING trial under a
      fresh id for a later `ask` to start. The fixed parameter values it
      carries are not kept: the sampler that reads them is an oracle here. */
  function Enqueue(s: Study, userAttrs: map<string, Value>): (r: (Study, TrialId))
    requires Valid(s)
    ensures Valid(r.0) && r.0.nextId == s.nextId + 1 && r.1 == s.nextId
    ensures r.1 !in s.trials && r.1 in r.0.trials && r.0.trials == s.trials[r.1 := r.0.trials[r.1]]
    ensures r.0.trials[r.1].state == Waiting && r.0.trials[r.1].userAttrs == userAttrs
    ensures r.0.trials[r.1].datetimeStart.None? && r.0.trials[r.1].number == |s.trials|
    ensures WaitingIds(r.0) == WaitingIds(s) + {r.1}
  {
    var id := s.nextId;
    var t := Trial(|s.trials|, Waiting, map[], map[], map[], userAttrs, map[], None, None);
    (Study(s.trials[id := t], id + 1), id)
  }

  /** The lowest WAITING id in `from..s.nextId`, if any. */
  function FirstWaitingFrom(s: Study, from: nat): (r: Option<TrialId>)
    ensures r.Some? ==> from <= r.value < s.nextId && r.value in WaitingIds(s)
    ensures forall id :: from <= id < (if r.Some? then r.value else s.nextId) ==> id !in WaitingIds(s)
    decreases s.nextId - from
  {
    if from >= s.nextId then None
    else if from in s.trials && s.trials[from].state.Waiting? then Some(from)
    else FirstWaitingFrom(s, from + 1)
  }

  /** `_pop_waiting_trial_id`: the oldest WAITING trial, which in a store that
      hands out increasing ids is the one with the lowest id. */
  function FirstWaiting(s: Study): (r: Option<TrialId>)
    requires Valid(s)
    ensures r.None? <==> WaitingIds(s) == {}
    ensures r.Some? ==> r.value in WaitingIds(s) && forall w :: w in WaitingIds(s) ==> r.value <= w
  {
    var r := FirstWaitingFrom(s, 0);
    assert forall w :: w in WaitingIds(s) ==> w < s.nextId;
    r
  }

  /** `study.ask()`: pops the oldest WAITING trial and starts it; only when no
      trial is waiting does it create a new RUNNING trial under a fresh id. The
      start time is the next id at that moment. */
  function Ask(s: Study): (r: (Study, TrialId))
    requires Valid(s)
    ensures AskedFrom(s, r.0, [r.1])
    ensures WaitingIds(s) != {} ==>
      && r.1 in WaitingIds(s) && r.0.nextId == s.nextId
      && r.0.trials.Keys == s.trials.Keys
      && r.0.trials[r.1] == s.trials[r.1].(state := Running, datetimeStart := Some(s.nextId))
    ensures WaitingIds(s) == {} ==>
      && r.1 == s.nextId && r.0.nextId == s.nextId + 1
      && r.0.trials[r.1] == NewTrial(|s.trials|, s.nextId)
  {
    match FirstWaiting(s)
    case Some(id) =>
      var s' := Put(s, id, s.trials[id].(state := Running, datetimeStart := Some(s.nextId)));
      AskedWaiting(s, s', id);
      (s', id)
    case None =>
      var id := s.nextId;
      var s' := Study(s.trials[id := NewTrial(|s.trials|, id)], id + 1);
      AskedNew(s, s', id);
      (s', id)
  }

  lemma AskedWaiting(s: Study, s': Study, id: TrialId)
    requires Valid(s) && id in WaitingIds(s) && forall w :: w in WaitingIds(s) ==> id <= w
    requires OnlyTouches(s, s', id)
    requires s'.trials[id] == s.trials[id].(state := Running, datetimeStart := Some(s.nextId))
    ensures AskedFrom(s, s', [id])
  {
    assert StartedFrom(s.trials[id], s'.trials[id]);
  }

  lemma AskedNew(s: Study, s': Study, id: TrialId)
    requires Valid(s) && WaitingIds(s) == {} && id == s.nextId
    requires s' == Study(s.trials[id := NewTrial(|s.trials|, id)], id + 1)
    ensures AskedFrom(s, s', [id])
  {
  }

  /** A trial enqueued while no other waits is the one the next `ask` starts,
      with the user attributes it was enqueued with; no new trial is made. */
  lemma EnqueuedTrialAskedNext(s: Study, userAttrs: map<string, Value>)
    requires Valid(s) && WaitingIds(s) == {}
    ensures var (s1, id) := Enqueue(s, userAttrs);
      var (s2, asked) := Ask(s1);
      && asked == id && s2.nextId == s1.nextId && s2.trials.Keys == s1.trials.Keys
      && s2.trials[id].state == Running && s2.trials[id].userAttrs == userAttrs
  {
  }

  /** `[study.ask()._trial_id for _ in range(n)]`: exactly `max(n, 0)` trials
      become RUNNING, the WAITING ones first and oldest first, then new ones. */
  function AskMany(s: Study, n: int): (r: (Study, seq<TrialId>))
    requires Valid(s)
    ensures |r.1| == if n <= 0 then 0 else n
    ensures AskedFrom(s, r.0, r.1)
    decreases if n <= 0 then 0 else n
  {
    if n <= 0 then (s, [])
    else
      var first := Ask(s);
      var rest := AskMany(first.0, n - 1);
      AskedCons(s, first.0, first.1, rest.0, rest.1);
      (rest.0, [first.1] + rest.1)
  }

  /** `s'` is `s` after asking for the trials `ids`, in order: see
      `AskedFrame` and `AskedOrder`. */
  ghost predicate AskedFrom(s: Study, s': Study, ids: seq<TrialId>)
  {
    AskedFrame(s, s', ids) && AskedOrder(s, ids)
  }

  /** Each of `ids` is RUNNING in `s'`; every id handed out since `s` is among
      them; no other trial changes. */
  ghost predicate AskedFrame(s: Study, s': Study, ids: seq<TrialId>)
  {
    && Valid(s') && Extends(s, s')
    && (forall x :: x in ids ==> x in s'.trials && s'.trials[x].state == Running)
    && (forall x :: s.nextId <= x < s'.nextId ==> x in ids)
    && (forall x :: x in s'.trials <==> x in s.trials || x in ids)
    && (forall x :: x in s.trials && x !in ids ==> s'.trials[x] == s.trials[x])
  }

  /** `ids` come in increasing order, each was WAITING in `s` or is new, and
      no WAITING trial left behind is older than one taken. */
  ghost predicate AskedOrder(s: Study, ids: seq<TrialId>)
  {
    && (forall i, j :: 0 <= i < j < |ids| ==> ids[i] < ids[j])
    && (forall x :: x in ids ==> x in WaitingIds(s) || s.nextId <= x)
    && (forall x, w :: x in ids && w in WaitingIds(s) && w !in ids ==> x < w)
  }

  /** A WAITING trial of `s1` was already WAITING in `s` when `s1` is `s`
      after asking for `id`. */
  lemma WaitingShrinks(s: Study, s1: Study, id: TrialId)
    requires Valid(s) && AskedFrom(s, s1, [id])
    ensures forall w :: w in WaitingIds(s1) ==> w in WaitingIds(s) && w != id
  {
    forall w | w in WaitingIds(s1) ensures w in WaitingIds(s) && w != id {
      assert w in s.trials || w in [id];
    }
  }

  lemma {:induction false} AskedCons(s: Study, s1: Study, id: TrialId, s2: Study, rest: seq<TrialId>)
    requires Valid(s) && AskedFrom(s, s1, [id]) && AskedFrom(s1, s2, rest)
    ensures AskedFrom(s, s2, [id] + rest)
  {
    AskedOrderCons(s, s1, id, s2, rest);
    AskedFrameCons(s, s1, id, s2, rest);
  }

  lemma {:induction false} AskedOrderCons(s: Study, s1: Study, id: TrialId, s2: Study, rest: seq<TrialId>)
    requires Valid(s) && AskedFrom(s, s1, [id]) && AskedFrom(s1, s2, rest)
    ensures AskedOrder(s, [id] + rest) && id !in rest
  {
    var ids := [id] + rest;
    FirstBelowRest(s, s1, id, rest);
    forall i, j | 0 <= i < j < |ids| ensures ids[i] < ids[j] {
      assert ids[j] == rest[j - 1];
      if i > 0 {
        assert ids[i] == rest[i - 1];
      } else {
        assert rest[j - 1] in rest;
      }
    }
    RestBeforeWaiting(s, s1, id, rest);
  }

  /** The trial asked first is older than every one asked after it. */
  lemma FirstBelowRest(s: Study, s1: Study, id: TrialId, rest: seq<TrialId>)
    requires Valid(s) && AskedFrom(s, s1, [id]) && AskedOrder(s1, rest)
    ensures forall x :: x in rest ==> id < x
  {
    WaitingShrinks(s, s1, id);
    assert id in s1.trials && id < s1.nextId;
    forall x | x in rest ensures id < x {
      if x in WaitingIds(s1) {
        assert x in WaitingIds(s) && x !in [id];
      }
    }
  }

  /** The later trials were WAITING in `s` or are new, and are older than any
      trial of `s` still WAITING after all the asks. */
  lemma RestBeforeWaiting(s: Study, s1: Study, id: TrialId, rest: seq<TrialId>)
    requires Valid(s) && AskedFrom(s, s1, [id]) && AskedOrder(s1, rest)
    ensures forall x :: x in rest ==> x in WaitingIds(s) || s.nextId <= x
    ensures forall x, w :: x in rest && w in WaitingIds(s) && w != id && w !in rest ==> x < w
  {
    WaitingShrinks(s, s1, id);
    forall x, w | x in rest && w in WaitingIds(s) && w != id && w !in rest ensures x < w {
      assert w in s1.trials && s1.trials[w] == s.trials[w];
      assert w in WaitingIds(s1);
    }
  }

  lemma {:induction false} AskedFrameCons(s: Study, s1: Study, id: TrialId, s2: Study, rest: seq<TrialId>)
    requires Valid(s) && AskedFrom(s, s1, [id]) && AskedFrom(s1, s2, rest) && id !in rest
    ensures AskedFrame(s, s2, [id] + rest)
  {
    assert forall x :: x in [id] + rest <==> x == id || x in rest;
    ExtendsTransitive(s, s1, s2);
  }

  /** `Trial(study, trial_id)` and storage look-ups: an unknown id raises `KeyError`. */
  function Lookup(s: Study, id: TrialId): (r: Option<Trial>)
    ensures r.Some? <==> id in s.trials
    ensures r.Some? ==> r.value == s.trials[id]
  {
    if id in s.trials then Some(s.trials[id]) else None
  }

  /** Replaces the record of one known trial. */
  function Put(s: Study, id: TrialId, t: Trial): (s': Study)
    requires id in s.trials
    ensures OnlyTouches(s, s', id) && s'.trials[id] == t
  {
    Study(s.trials[id := t], s.nextId)
  }

  /** Trials of `s` that are RUNNING or WAITING. */
  function UnfinishedIds(s: Study): set<TrialId>
  {
    set id | id in s.trials && s.trials[id].state.IsUnfinished()
  }

  /** Sets every RUNNING or WAITING trial to FAIL, as
      `set_trial_state_values(trial_id, TrialState.FAIL)` does for each of them. */
  function FailUnfinished(s: Study): (s': Study)
    ensures s'.trials.Keys == s.trials.Keys && s'.nextId == s.nextId
    ensures forall id :: id in s.trials && s.trials[id].state.IsUnfinished() ==>
      s'.trials[id] == s.trials[id].(state := Fail)
    ensures forall id :: id in s.trials && !s.trials[id].state.IsUnfinished() ==>
      s'.trials[id] == s.trials[id]
    ensures UnfinishedIds(s') == {}
  {
    Study(map id | id in s.trials ::
            if s.trials[id].state.IsUnfinished() then s.trials[id].(state := Fail) else s.trials[id],
          s.nextId)
  }

  lemma FailUnfinishedKeepsValid(s: Study)
    requires Valid(s)
    ensures Valid(FailUnfinished(s))
  {
  }

  lemma {:induction false} FailUnfinishedIdempotent(s: Study)
    ensures FailUnfinished(FailUnfinished(s)) == FailUnfinished(s)
  {
    var once := FailUnfinished(s);
    var twice := FailUnfinished(once);
    assert twice.trials.Keys == once.trials.Keys;
    forall id | id in once.trials
      ensures twice.trials[id] == once.trials[id]
    {
      assert !once.trials[id].state.IsUnfinished() by {
        assert id !in UnfinishedIds(once);
      }
    }
    assert twice.trials == once.trials;
  }
}

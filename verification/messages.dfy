/**
 The messages workers and the coordinator exchange, and what processing each of
 them does to the study on the coordinator's single loop. A message is processed
 against the study, the set of trials the manager holds a private connection
 for, and the sampler, pruner and `tell` oracles; the result is an `Effect`
 listing the new study, the trial exits registered with the manager (in order),
 the replies put on private connections (in order) and the exception raised, if
 any.
 */
module Messages {
  import opened Values
  import opened Store

  /** `AttributeType`: which attribute dictionary a `SetAttributeMessage` writes. */
  datatype AttributeKind = User | System

  /** `TrialProperty`: the six trial properties a worker can read. */
  datatype TrialProperty = Params | Distributions | UserAttrs | SystemAttrs | DatetimeStart | Number

  /** The data a `ResponseMessage` carries back to a worker. */
  datatype Data =
    | Scalar(v: Value)
    | ParamMap(params: map<string, Value>)
    | DistributionMap(distributions: map<string, Distribution>)
    | AttributeMap(attrs: map<string, Value>)
    | Timestamp(stamp: Option<nat>)
    | TrialNumber(number: nat)
    | Decision(prune: bool)

  datatype Message =
    | Suggest(trialId: TrialId, name: string, distribution: Distribution)
    | Completed(trialId: TrialId, valueOrValues: Value)
    | PrunedTrial(trialId: TrialId)
    | FailedTrial(trialId: TrialId, exception: Exception)
    | SetAttribute(trialId: TrialId, kind: AttributeKind, key: string, attrValue: Value)
    | PropertyRequest(trialId: TrialId, property: TrialProperty)
    | ShouldPrune(trialId: TrialId)
    | Report(trialId: TrialId, reported: real, step: int)
    | Response(trialId: TrialId, data: Data)
    | Heartbeat

  /** The class attribute `closing`: true exactly for the three messages a worker
      sends when its trial ends. `FailedMessage` is closing here although its
      class defines no such attribute (see `ClosingAsWritten`). */
  predicate Closing(m: Message)
  {
    m.Completed? || m.PrunedTrial? || m.FailedTrial?
  }

  /** Reading `message.closing` as the classes define it. `FailedMessage`
      defines no `closing` attribute and `Message` has none either, so for a
      failed message the read raises `AttributeError`, shown here as `None`. */
  function ClosingAsWritten(m: Message): (r: Option<bool>)
    ensures r.None? <==> m.FailedTrial?
    ensures r.Some? ==> r.value == Closing(m)
  {
    if m.FailedTrial? then None else Some(m.Completed? || m.PrunedTrial?)
  }

  /** The trial a message refers to; a heartbeat refers to none. */
  function TrialIdOf(m: Message): (r: Option<TrialId>)
    ensures r.None? <==> m.Heartbeat?
  {
    if m.Heartbeat? then None else Some(m.trialId)
  }

  /** What `study.tell` makes of an objective value. */
  datatype TellVerdict = Accepted | Rejected | TellRaises(e: Exception)

  /** The parts of optuna the coordinator calls but does not implement. */
  datatype Oracles = Oracles(
    sample: (Trial, string, Distribution) -> Value,
    /** `check_distribution_compatibility(recorded, requested)` passes. */
    compatible: (Distribution, Distribution) -> bool,
    prune: Trial -> bool,
    tell: (Trial, Value) -> TellVerdict)

  datatype Effect = Effect(study: Study, exits: seq<TrialId>, replies: seq<Message>, raised: Option<Exception>)

  /** `study.tell(trial, state=...)` is refused unless the trial is RUNNING. */
  const TellRefused := ValueError
  /** Storage refuses to update a finished trial. */
  const TrialFinished := RuntimeError

  /** Nothing happens: the effect of a response or a heartbeat. */
  function NoEffect(s: Study): Effect
  {
    Effect(s, [], [], None)
  }

  /** An exception before anything was written, registered or sent. */
  function Fails(s: Study, e: Exception): Effect
  {
    Effect(s, [], [], Some(e))
  }

  /** Puts `ResponseMessage(id, data)` on trial `id`'s private connection, or
      raises `KeyError` when the manager has no connection for it. */
  function Reply(s: Study, id: TrialId, data: Data, connected: set<TrialId>): (r: Effect)
    ensures r.study == s && r.exits == []
    ensures id in connected <==> r.raised.None?
    ensures id in connected ==> r.replies == [Response(id, data)]
    ensures id !in connected ==> r.replies == [] && r.raised == Some(KeyError)
  {
    if id in connected then Effect(s, [], [Response(id, data)], None) else Fails(s, KeyError)
  }

  // ---------------------------------------------------------------------------
  // SuggestMessage.process

  /** Whether `name` was already suggested for `t`: Optuna then answers with
      the recorded value instead of sampling. */
  predicate Suggested(t: Trial, name: string)
  {
    name in t.params && name in t.distributions
  }

  /** `trial.suggest_*` through `Trial._suggest`: a name already suggested is
      checked against its recorded distribution and answered with its
      recorded value, without writing; a new name is sampled and written,
      which storage refuses for a finished trial. */
  function ProcessSuggest(id: TrialId, name: string, d: Distribution, s: Study,
                          connected: set<TrialId>, o: Oracles): (r: Effect)
    ensures r.exits == [] && OnlyTouches(s, r.study, id)
    ensures id !in s.trials ==> r == Fails(s, KeyError)
    ensures id in s.trials && Suggested(s.trials[id], name) ==>
      var t := s.trials[id];
      && r.study == s
      && (!o.compatible(t.distributions[name], d) ==> r == Fails(s, ValueError))
      && (o.compatible(t.distributions[name], d) && id in connected ==>
            r.raised.None? && r.replies == [Response(id, Scalar(t.params[name]))])
      && (o.compatible(t.distributions[name], d) && id !in connected ==>
            r.raised == Some(KeyError) && r.replies == [])
    ensures id in s.trials && !Suggested(s.trials[id], name) && s.trials[id].state.IsFinished() ==>
      r == Fails(s, TrialFinished)
    ensures id in s.trials && !Suggested(s.trials[id], name) && !s.trials[id].state.IsFinished() ==>
      && var t := r.study.trials[id];
      && Suggested(t, name)
      && t.distributions[name] == d
      && t.params[name] == o.sample(s.trials[id], name, d)
      && t == s.trials[id].(params := t.params, distributions := t.distributions)
      && (id in connected ==> r.raised.None? && r.replies == [Response(id, Scalar(t.params[name]))])
      && (id !in connected ==> r.raised == Some(KeyError) && r.replies == [])
  {
    match Lookup(s, id)
    case None => Fails(s, KeyError)
    case Some(t) =>
      if Suggested(t, name) then
        if o.compatible(t.distributions[name], d) then Reply(s, id, Scalar(t.params[name]), connected)
        else Fails(s, ValueError)
      else if t.state.IsFinished() then Fails(s, TrialFinished)
      else
        var v := o.sample(t, name, d);
        var s' := Put(s, id, t.(params := t.params[name := v], distributions := t.distributions[name := d]));
        Reply(s', id, Scalar(v), connected)
  }

  /** Suggesting a name a second time, with a compatible distribution, gives
      back the first value and leaves the study as the first suggestion left
      it: the first distribution is kept. */
  lemma RepeatedSuggestKeepsFirst(id: TrialId, name: string, d1: Distribution, d2: Distribution,
                                  s: Study, connected: set<TrialId>, o: Oracles)
    requires id in s.trials && !s.trials[id].state.IsFinished() && !Suggested(s.trials[id], name)
    requires o.compatible(d1, d2) && id in connected
    ensures var first := ProcessSuggest(id, name, d1, s, connected, o);
      var second := ProcessSuggest(id, name, d2, first.study, connected, o);
      && second.study == first.study
      && second.raised.None? && first.raised.None?
      && second.replies == first.replies == [Response(id, Scalar(o.sample(s.trials[id], name, d1)))]
      && first.study.trials[id].distributions[name] == d1
  {
    var first := ProcessSuggest(id, name, d1, s, connected, o);
    assert id in first.study.trials && Suggested(first.study.trials[id], name);
  }

  // ---------------------------------------------------------------------------
  // CompletedMessage.process

  function ProcessCompleted(id: TrialId, v: Value, s: Study, o: Oracles): (r: Effect)
    ensures r.replies == [] && OnlyTouches(s, r.study, id)
    ensures id !in s.trials ==> r == Fails(s, KeyError)
    // the exit is registered in `finally`, so on every path past `Trial(study, id)`
    ensures id in s.trials ==> r.exits == [id]
    ensures id in s.trials && s.trials[id].state.IsFinished() ==> r.study == s && r.raised.None?
    ensures id in s.trials && s.trials[id].state.Waiting? ==> r.study == s && r.raised == Some(TellRefused)
    ensures id in s.trials && s.trials[id].state.Running? ==>
      match o.tell(s.trials[id], v)
      case Accepted => r.raised.None? && r.study.trials[id] == s.trials[id].(state := Complete, value := Some(v))
      case Rejected => r.raised.None? && r.study.trials[id] == s.trials[id].(state := Fail)
      case TellRaises(e) => r.raised == Some(e) && r.study == s
  {
    match Lookup(s, id)
    case None => Fails(s, KeyError)
    case Some(t) =>
      if t.state.IsFinished() then Effect(s, [id], [], None)
      else if !t.state.Running? then Effect(s, [id], [], Some(TellRefused))
      else
        match o.tell(t, v)
        case Accepted => Effect(Put(s, id, t.(state := Complete, value := Some(v))), [id], [], None)
        case Rejected => Effect(Put(s, id, t.(state := Fail)), [id], [], None)
        case TellRaises(e) => Effect(s, [id], [], Some(e))
  }

  // ---------------------------------------------------------------------------
  // PrunedMessage.process and FailedMessage.process

  /** Every set of integers with an element has a largest one. */
  lemma {:induction false} LargestExists(keys: set<int>)
    requires |keys| > 0
    ensures exists k :: k in keys && forall j :: j in keys ==> j <= k
    decreases |keys|
  {
    assert (forall x :: x !in keys) ==> keys == {};
    var x :| x in keys;
    var rest := keys - {x};
    if |rest| == 0 {
      assert forall j :: j in keys ==> j == x;
    } else {
      LargestExists(rest);
      var k :| k in rest && forall j :: j in rest ==> j <= k;
      var top := if x > k then x else k;
      forall j | j in keys ensures j <= top {
        if j != x {
          assert j in rest;
        }
      }
      assert top in keys;
    }
  }

  /** `FrozenTrial.last_step`: the largest step with an intermediate value. */
  function LastStep(intermediate: map<int, real>): (k: int)
    requires |intermediate| > 0
    ensures k in intermediate && forall j :: j in intermediate ==> j <= k
  {
    assert |intermediate.Keys| == |intermediate|;
    LargestExists(intermediate.Keys);
    var k :| k in intermediate && forall j :: j in intermediate ==> j <= k;
    k
  }

  /** `study.tell(trial, state=final)` followed by `register_trial_exit`:
      the exit is registered only when `tell` succeeds. A trial told PRUNED
      takes the intermediate value at its last step, if it has any, as its
      value. */
  function TellState(id: TrialId, final: TrialState, s: Study): (r: Effect)
    ensures r.replies == [] && OnlyTouches(s, r.study, id)
    ensures id !in s.trials ==> r == Fails(s, KeyError)
    ensures id in s.trials && !s.trials[id].state.Running? ==> r == Fails(s, TellRefused)
    ensures id in s.trials && s.trials[id].state.Running? ==>
      var t := s.trials[id];
      && r == Effect(r.study, [id], [], None)
      && r.study.trials[id] == t.(state := final, value := r.study.trials[id].value)
      && (final == Pruned && |t.intermediate| > 0 ==>
            r.study.trials[id].value == Some(Real(t.intermediate[LastStep(t.intermediate)])))
      && (final != Pruned || |t.intermediate| == 0 ==> r.study.trials[id].value == t.value)
  {
    match Lookup(s, id)
    case None => Fails(s, KeyError)
    case Some(t) =>
      if !t.state.Running? then Fails(s, TellRefused)
      else
        var value := if final == Pruned && |t.intermediate| > 0
                     then Some(Real(t.intermediate[LastStep(t.intermediate)])) else t.value;
        Effect(Put(s, id, t.(state := final, value := value)), [id], [], None)
  }

  function ProcessPruned(id: TrialId, s: Study): (r: Effect)
    ensures r.replies == [] && OnlyTouches(s, r.study, id)
    ensures id in s.trials && s.trials[id].state.Running? ==>
      var t := s.trials[id];
      && r.raised.None? && r.exits == [id]
      && r.study.trials[id] == t.(state := Pruned, value := r.study.trials[id].value)
      && (|t.intermediate| > 0 ==>
            exists k :: k in t.intermediate && (forall j :: j in t.intermediate ==> j <= k)
                     && r.study.trials[id].value == Some(Real(t.intermediate[k])))
      && (|t.intermediate| == 0 ==> r.study.trials[id].value == t.value)
    ensures !(id in s.trials && s.trials[id].state.Running?) ==> r.study == s && r.exits == [] && r.raised.Some?
  {
    TellState(id, Pruned, s)
  }

  function ProcessFailed(id: TrialId, e: Exception, s: Study): (r: Effect)
    ensures r.replies == [] && OnlyTouches(s, r.study, id)
    ensures r.raised.Some?
    ensures id in s.trials && s.trials[id].state.Running? ==>
      && r.exits == [id] && r.raised == Some(e)
      && r.study.trials[id] == s.trials[id].(state := Fail)
    ensures !(id in s.trials && s.trials[id].state.Running?) ==>
      r.study == s && r.exits == [] && r.raised.value in {KeyError, TellRefused}
  {
    var told := TellState(id, Fail, s);
    if told.raised.Some? then told else told.(raised := Some(e))
  }

  // ---------------------------------------------------------------------------
  // SetAttributeMessage.process

  function ProcessSetAttribute(id: TrialId, kind: AttributeKind, key: string, v: Value, s: Study): (r: Effect)
    ensures r.replies == [] && r.exits == [] && OnlyTouches(s, r.study, id)
    ensures id !in s.trials ==> r == Fails(s, KeyError)
    ensures id in s.trials && s.trials[id].state.IsFinished() ==> r == Fails(s, TrialFinished)
    ensures id in s.trials && !s.trials[id].state.IsFinished() ==> r.raised.None?
    ensures id in s.trials && !s.trials[id].state.IsFinished() && kind == User ==>
      r.study.trials[id] == s.trials[id].(userAttrs := s.trials[id].userAttrs[key := v])
    ensures id in s.trials && !s.trials[id].state.IsFinished() && kind == System ==>
      r.study.trials[id] == s.trials[id].(systemAttrs := s.trials[id].systemAttrs[key := v])
  {
    match Lookup(s, id)
    case None => Fails(s, KeyError)
    case Some(t) =>
      if t.state.IsFinished() then Fails(s, TrialFinished)
      else
        match kind
        case User => NoEffect(Put(s, id, t.(userAttrs := t.userAttrs[key := v])))
        case System => NoEffect(Put(s, id, t.(systemAttrs := t.systemAttrs[key := v])))
  }

  // ---------------------------------------------------------------------------
  // TrialPropertyMessage.process

  /** The value of one property of a trial record. */
  function PropertyOf(t: Trial, p: TrialProperty): Data
  {
    match p
    case Params => ParamMap(t.params)
    case Distributions => DistributionMap(t.distributions)
    case UserAttrs => AttributeMap(t.userAttrs)
    case SystemAttrs => AttributeMap(t.systemAttrs)
    case DatetimeStart => Timestamp(t.datetimeStart)
    case Number => TrialNumber(t.number)
  }

  /** How a property request names its property: by a `TrialProperty`
      member, or by the attribute's name as a string. */
  datatype PropertyKey = Member(p: TrialProperty) | Name(text: string)

  /** The table `process` builds from the trial: one entry per member. */
  function PropertyTable(t: Trial): (table: map<PropertyKey, Data>)
    ensures forall k :: k in table ==> k.Member? && table[k] == PropertyOf(t, k.p)
  {
    map[Member(Params) := PropertyOf(t, Params),
        Member(Distributions) := PropertyOf(t, Distributions),
        Member(UserAttrs) := PropertyOf(t, UserAttrs),
        Member(SystemAttrs) := PropertyOf(t, SystemAttrs),
        Member(DatetimeStart) := PropertyOf(t, DatetimeStart),
        Member(Number) := PropertyOf(t, Number)]
  }

  /** Every member has its entry. */
  lemma PropertyTableComplete(t: Trial, key: PropertyKey)
    ensures key in PropertyTable(t) <==> key.Member?
  {
    if key.Member? {
      match key.p
      case Params =>
      case Distributions =>
      case UserAttrs =>
      case SystemAttrs =>
      case DatetimeStart =>
      case Number =>
    }
  }

  /** `TrialPropertyMessage.process` for a request with any key: reads the
      trial, looks the key up in the table and replies on the trial's
      connection. */
  function ProcessPropertyRequest(id: TrialId, key: PropertyKey, s: Study, connected: set<TrialId>): (r: Effect)
    ensures r.study == s && r.exits == []
    ensures id !in s.trials || key.Name? ==> r == Fails(s, KeyError)
    ensures id in s.trials && key.Member? && id in connected ==>
      r.raised.None? && r.replies == [Response(id, PropertyOf(s.trials[id], key.p))]
    ensures id in s.trials && id !in connected ==> r == Fails(s, KeyError)
  {
    match Lookup(s, id)
    case None => Fails(s, KeyError)
    case Some(t) =>
      var table := PropertyTable(t);
      PropertyTableComplete(t, key);
      if key in table then Reply(s, id, table[key], connected) else Fails(s, KeyError)
  }

  /** The request as the enum intends it: keyed by the member. */
  function ProcessProperty(id: TrialId, p: TrialProperty, s: Study, connected: set<TrialId>): (r: Effect)
    ensures r.study == s && r.exits == []
    ensures id !in s.trials ==> r == Fails(s, KeyError)
    ensures id in s.trials && id in connected ==>
      r.raised.None? && r.replies == [Response(id, PropertyOf(s.trials[id], p))]
    ensures id in s.trials && id !in connected ==> r == Fails(s, KeyError)
  {
    ProcessPropertyRequest(id, Member(p), s, connected)
  }

  /** The name the proxy's property accessors pass for each property. */
  function PropertyName(p: TrialProperty): (name: string)
  {
    match p
    case Params => "params"
    case Distributions => "distributions"
    case UserAttrs => "user_attrs"
    case SystemAttrs => "system_attrs"
    case DatetimeStart => "datetime_start"
    case Number => "number"
  }

  /** Property requests keyed by name, as the proxy sends them, fail with
      `KeyError` on the coordinator even for a known, connected trial, where
      the same request keyed by the member is answered with the property. */
  lemma PropertyByNameRaises(id: TrialId, p: TrialProperty, s: Study, connected: set<TrialId>)
    requires id in s.trials && id in connected
    ensures ProcessPropertyRequest(id, Name(PropertyName(p)), s, connected) == Fails(s, KeyError)
    ensures ProcessPropertyRequest(id, Member(p), s, connected).replies
         == [Response(id, PropertyOf(s.trials[id], p))]
  {
  }

  // ---------------------------------------------------------------------------
  // ShouldPruneMessage.process

  function ProcessShouldPrune(id: TrialId, s: Study, connected: set<TrialId>, o: Oracles): (r: Effect)
    ensures r.study == s && r.exits == []
    ensures id !in s.trials ==> r == Fails(s, KeyError)
    ensures id in s.trials && id in connected ==>
      r.raised.None? && r.replies == [Response(id, Decision(o.prune(s.trials[id])))]
    ensures id in s.trials && id !in connected ==> r == Fails(s, KeyError)
  {
    match Lookup(s, id)
    case None => Fails(s, KeyError)
    case Some(t) => Reply(s, id, Decision(o.prune(t)), connected)
  }

  // ---------------------------------------------------------------------------
  // ReportMessage.process

  /** `Trial(study, trial_id).report(value, step)`: a negative step raises
      `ValueError`; a step already reported is ignored, so its first value is
      kept; otherwise the value is stored, which a finished trial refuses. */
  function ProcessReport(id: TrialId, value: real, step: int, s: Study): (r: Effect)
    ensures r.replies == [] && r.exits == [] && OnlyTouches(s, r.study, id)
    ensures id !in s.trials ==> r == Fails(s, KeyError)
    ensures id in s.trials && step < 0 ==> r == Fails(s, ValueError)
    ensures id in s.trials && step >= 0 && step in s.trials[id].intermediate ==> r == NoEffect(s)
    ensures id in s.trials && step >= 0 && step !in s.trials[id].intermediate ==>
      s.trials[id].state.IsFinished() ==> r == Fails(s, TrialFinished)
    ensures id in s.trials && step >= 0 && step !in s.trials[id].intermediate ==>
      !s.trials[id].state.IsFinished() ==>
      && r.raised.None?
      && r.study.trials[id] == s.trials[id].(intermediate := s.trials[id].intermediate[step := value])
  {
    match Lookup(s, id)
    case None => Fails(s, KeyError)
    case Some(t) =>
      if step < 0 then Fails(s, ValueError)
      else if step in t.intermediate then NoEffect(s)
      else if t.state.IsFinished() then Fails(s, TrialFinished)
      else NoEffect(Put(s, id, t.(intermediate := t.intermediate[step := value])))
  }

  /** Reporting twice at one step keeps the first value, and the trial's
      record ends up as after the first report alone. */
  lemma ReportKeepsFirstValue(id: TrialId, first: real, second: real, step: int, s: Study)
    requires id in s.trials && !s.trials[id].state.IsFinished() && step >= 0
    ensures var once := ProcessReport(id, first, step, s).study;
      var twice := ProcessReport(id, second, step, once);
      && twice == NoEffect(once)
      && once.trials[id].intermediate[step] == (if step in s.trials[id].intermediate
                                                then s.trials[id].intermediate[step] else first)
  {
  }

  /** A RUNNING trial whose only report was `v` at step `k`, then pruned, is
      PRUNED with value `v`: the value at its last step. */
  lemma {:induction false} PrunedAfterReportTakesValue(id: TrialId, v: real, k: int, s: Study)
    requires id in s.trials && s.trials[id].state.Running? && s.trials[id].intermediate == map[] && k >= 0
    ensures var reported := ProcessReport(id, v, k, s).study;
      var pruned := ProcessPruned(id, reported);
      && pruned.raised.None? && pruned.exits == [id]
      && pruned.study.trials[id].state == Pruned
      && pruned.study.trials[id].value == Some(Real(v))
  {
    var reported := ProcessReport(id, v, k, s).study;
    var t := reported.trials[id];
    assert t.intermediate == map[k := v];
    assert LastStep(t.intermediate) == k;
  }

  // ---------------------------------------------------------------------------
  // Message.process

  /** `message.process(study, manager)`. Responses and heartbeats do nothing. */
  function Process(m: Message, s: Study, connected: set<TrialId>, o: Oracles): (r: Effect)
  {
    match m
    case Suggest(id, name, d) => ProcessSuggest(id, name, d, s, connected, o)
    case Completed(id, v) => ProcessCompleted(id, v, s, o)
    case PrunedTrial(id) => ProcessPruned(id, s)
    case FailedTrial(id, e) => ProcessFailed(id, e, s)
    case SetAttribute(id, kind, key, v) => ProcessSetAttribute(id, kind, key, v, s)
    case PropertyRequest(id, p) => ProcessProperty(id, p, s, connected)
    case ShouldPrune(id) => ProcessShouldPrune(id, s, connected, o)
    case Report(id, value, step) => ProcessReport(id, value, step, s)
    case Response(_, _) => NoEffect(s)
    case Heartbeat => NoEffect(s)
  }

  /** Whatever message is processed, only its own trial's record can change,
      no trial is created or removed, only a closing message registers an exit
      and then only its own, and every reply goes to the message's own trial. */
  lemma ProcessIsLocal(m: Message, s: Study, connected: set<TrialId>, o: Oracles)
    ensures var r := Process(m, s, connected, o);
      && (m.Heartbeat? || m.Response? ==> r == NoEffect(s))
      && (!m.Heartbeat? ==> OnlyTouches(s, r.study, m.trialId))
      && (!Closing(m) ==> r.exits == [])
      && (Closing(m) ==> r.exits == [] || r.exits == [m.trialId])
      && |r.replies| <= 1
      && (forall k :: 0 <= k < |r.replies| ==> r.replies[k] == Response(m.trialId, r.replies[k].data))
  {
  }

  /** Only the three kinds that read or write nothing but the reply channel
      leave the study exactly as it was. */
  lemma QueriesLeaveStudyUnchanged(m: Message, s: Study, connected: set<TrialId>, o: Oracles)
    requires m.PropertyRequest? || m.ShouldPrune? || m.Response? || m.Heartbeat?
    ensures Process(m, s, connected, o).study == s
  {
  }

  /** Processing a message never adds or removes trials, so the study's
      representation invariant is kept. */
  lemma ProcessKeepsValid(m: Message, s: Study, connected: set<TrialId>, o: Oracles)
    requires Valid(s)
    ensures Valid(Process(m, s, connected, o).study)
  {
  }

  /** With a pruner that never prunes a trial without reports, a should-prune
      query for a trial that has reported nothing answers False and the trial
      keeps its state. */
  lemma ShouldPruneWithoutReports(id: TrialId, s: Study, connected: set<TrialId>, o: Oracles)
    requires forall t: Trial :: t.intermediate == map[] ==> !o.prune(t)
    requires id in s.trials && id in connected && s.trials[id].intermediate == map[]
    ensures Process(ShouldPrune(id), s, connected, o).replies == [Response(id, Decision(false))]
    ensures Process(ShouldPrune(id), s, connected, o).study.trials[id].state == s.trials[id].state
  {
  }
}

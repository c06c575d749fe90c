/**
 The worker-side trial proxy, `DistributedTrial`. Every call turns into exactly
 one request on the trial's connection. Calls that need an answer (suggestions,
 `should_prune`, property reads) put the request and then read one reply;
 fire-and-forget calls (`report`, attribute setters) only put.
 */
module Proxy {
  import opened Values
  import opened Store
  import opened Messages
  import opened Channels
  import Ipc

  datatype DistributedTrial = DistributedTrial(trialId: TrialId, conn: Conn)

  /** What a proxy call gives back to the objective function. `Blocked` means
      the reply has not arrived yet: the worker is still waiting in `get`. */
  datatype Answer = Returned(data: Data) | NoResult | CallRaised(e: Exception) | Blocked

  /** The `get` half of `_send_message_and_wait_response`: reads one reply and
      insists it is a `ResponseMessage`. */
  function AwaitReply(t: DistributedTrial): (r: (DistributedTrial, Answer))
    ensures r.0.trialId == t.trialId && r.0.conn.sent == t.conn.sent
    ensures t.conn.inbox == [] ==> r.0 == t && r.1 == Blocked
    ensures t.conn.inbox != [] ==>
      && r.0.conn.inbox == t.conn.inbox[1..]
      && (t.conn.inbox[0].Response? ==> r.1 == Returned(t.conn.inbox[0].data))
      && (!t.conn.inbox[0].Response? ==> r.1 == CallRaised(AssertionError))
  {
    if t.conn.inbox == [] then (t, Blocked)
    else
      var reply := t.conn.inbox[0];
      var t' := t.(conn := t.conn.(inbox := t.conn.inbox[1..]));
      if reply.Response? then (t', Returned(reply.data)) else (t', CallRaised(AssertionError))
  }

  /** The same `get` on a distributed trial's private queue, where `arrivals`
      is what each fetch attempt sees. A queue fetch that gives up raises its
      `TimeoutError` out of the call; one that is still waiting is `Blocked`. */
  method AwaitReplyOnQueue(q: Ipc.Queue, arrivals: seq<Option<Message>>) returns (q': Ipc.Queue, a: Answer)
    ensures q' == Ipc.Initialize(q)
    ensures q.receiving.Some? && |arrivals| >= 1 && arrivals[0].Some? ==>
      AwaitReply(DistributedTrial(0, Conn([], [arrivals[0].value], false))).1 == a
    ensures q.receiving.Some? && q.maxRetries.Some? && q.maxRetries.value >= 1
            && |arrivals| >= q.maxRetries.value
            && (forall i :: 0 <= i < q.maxRetries.value ==> arrivals[i].None?) ==>
      a == CallRaised(TimeoutError)
    ensures q.receiving.None? ==> a == CallRaised(RuntimeError)
    ensures a.Returned? ==>
      exists i :: 0 <= i < |arrivals| && arrivals[i].Some? && arrivals[i].value.Response? && arrivals[i].value.data == a.data
  {
    var fetched, timeouts;
    q', fetched, timeouts := Ipc.Get(q, arrivals);
    match fetched
    case Got(reply) =>
      a := if reply.Response? then Returned(reply.data) else CallRaised(AssertionError);
    case FetchRaised(e) => a := CallRaised(e);
    case StillWaiting => a := Blocked;
  }

  /** `_send_message_and_wait_response`: one `put`, then one `get`. */
  function SendAndWait(t: DistributedTrial, m: Message): (r: (DistributedTrial, Answer))
    ensures r.0.trialId == t.trialId && r.0.conn.sent == t.conn.sent + [m]
    ensures r.1 != NoResult
  {
    AwaitReply(t.(conn := PutOn(t.conn, m)))
  }

  /** A fire-and-forget call: one `put` and no `get`. */
  function Send(t: DistributedTrial, m: Message): (r: (DistributedTrial, Answer))
    ensures r.0.trialId == t.trialId && r.0.conn.sent == t.conn.sent + [m]
    ensures r.0.conn.inbox == t.conn.inbox && r.1 == NoResult
  {
    (t.(conn := PutOn(t.conn, m)), NoResult)
  }

  function SuggestFloat(t: DistributedTrial, name: string, low: real, high: real,
                        step: Option<real> := None, log: bool := false): (r: (DistributedTrial, Answer))
  {
    SendAndWait(t, Suggest(t.trialId, name, FloatDist(low, high, step, log)))
  }

  function SuggestUniform(t: DistributedTrial, name: string, low: real, high: real): (r: (DistributedTrial, Answer))
  {
    SuggestFloat(t, name, low, high)
  }

  function SuggestLoguniform(t: DistributedTrial, name: string, low: real, high: real): (r: (DistributedTrial, Answer))
  {
    SuggestFloat(t, name, low, high, log := true)
  }

  function SuggestDiscreteUniform(t: DistributedTrial, name: string, low: real, high: real, q: real): (r: (DistributedTrial, Answer))
  {
    SuggestFloat(t, name, low, high, step := Some(q))
  }

  function SuggestInt(t: DistributedTrial, name: string, low: int, high: int,
                      step: int := 1, log: bool := false): (r: (DistributedTrial, Answer))
  {
    SendAndWait(t, Suggest(t.trialId, name, IntDist(low, high, step, log)))
  }

  function SuggestCategorical(t: DistributedTrial, name: string, choices: seq<Value>): (r: (DistributedTrial, Answer))
  {
    SendAndWait(t, Suggest(t.trialId, name, CategoricalDist(choices)))
  }

  function ReportValue(t: DistributedTrial, value: real, step: int): (r: (DistributedTrial, Answer))
  {
    Send(t, Report(t.trialId, value, step))
  }

  function AskShouldPrune(t: DistributedTrial): (r: (DistributedTrial, Answer))
  {
    SendAndWait(t, ShouldPrune(t.trialId))
  }

  function SetUserAttr(t: DistributedTrial, key: string, v: Value): (r: (DistributedTrial, Answer))
  {
    Send(t, SetAttribute(t.trialId, User, key, v))
  }

  function SetSystemAttr(t: DistributedTrial, key: string, v: Value): (r: (DistributedTrial, Answer))
  {
    Send(t, SetAttribute(t.trialId, System, key, v))
  }

  /** The `params`, `distributions`, ... properties. */
  function GetProperty(t: DistributedTrial, p: TrialProperty): (r: (DistributedTrial, Answer))
  {
    SendAndWait(t, PropertyRequest(t.trialId, p))
  }

  /** Every public call of the proxy, with its arguments. */
  datatype Call =
    | SuggestFloatCall(name: string, low: real, high: real, step: Option<real>, log: bool)
    | SuggestUniformCall(name: string, low: real, high: real)
    | SuggestLoguniformCall(name: string, low: real, high: real)
    | SuggestDiscreteUniformCall(name: string, low: real, high: real, q: real)
    | SuggestIntCall(name: string, lowInt: int, highInt: int, stepInt: int, logInt: bool)
    | SuggestCategoricalCall(name: string, choices: seq<Value>)
    | ReportCall(reported: real, reportStep: int)
    | ShouldPruneCall
    | SetUserAttrCall(key: string, attrValue: Value)
    | SetSystemAttrCall(key: string, attrValue: Value)
    | PropertyCall(property: TrialProperty)

  /** The calls that wait for the coordinator's answer. */
  predicate AwaitsAnswer(c: Call)
  {
    !(c.ReportCall? || c.SetUserAttrCall? || c.SetSystemAttrCall?)
  }

  function Invoke(t: DistributedTrial, c: Call): (r: (DistributedTrial, Answer))
  {
    match c
    case SuggestFloatCall(name, low, high, step, log) => SuggestFloat(t, name, low, high, step, log)
    case SuggestUniformCall(name, low, high) => SuggestUniform(t, name, low, high)
    case SuggestLoguniformCall(name, low, high) => SuggestLoguniform(t, name, low, high)
    case SuggestDiscreteUniformCall(name, low, high, q) => SuggestDiscreteUniform(t, name, low, high, q)
    case SuggestIntCall(name, low, high, step, log) => SuggestInt(t, name, low, high, step, log)
    case SuggestCategoricalCall(name, choices) => SuggestCategorical(t, name, choices)
    case ReportCall(value, step) => ReportValue(t, value, step)
    case ShouldPruneCall => AskShouldPrune(t)
    case SetUserAttrCall(key, v) => SetUserAttr(t, key, v)
    case SetSystemAttrCall(key, v) => SetSystemAttr(t, key, v)
    case PropertyCall(p) => GetProperty(t, p)
  }

  /** Each call puts exactly one request, which carries the proxy's own trial
      id and is neither closing, a response nor a heartbeat. Calls that await
      an answer consume exactly one reply when one is waiting and report
      `Blocked` otherwise; the others leave the replies alone and return nothing. */
  lemma InvokeSendsOneRequest(t: DistributedTrial, c: Call)
    ensures var r := Invoke(t, c);
      && r.0.trialId == t.trialId
      && |r.0.conn.sent| == |t.conn.sent| + 1
      && r.0.conn.sent[..|t.conn.sent|] == t.conn.sent
      && var m := r.0.conn.sent[|t.conn.sent|];
      && TrialIdOf(m) == Some(t.trialId) && !Closing(m) && !m.Response?
      && (AwaitsAnswer(c) && t.conn.inbox != [] ==> r.0.conn.inbox == t.conn.inbox[1..] && !r.1.Blocked?)
      && (AwaitsAnswer(c) && t.conn.inbox == [] ==> r.0.conn.inbox == [] && r.1 == Blocked)
      && (!AwaitsAnswer(c) ==> r.0.conn.inbox == t.conn.inbox && r.1 == NoResult)
  {
  }

  /** The request a call puts on the connection. */
  function RequestOf(t: DistributedTrial, c: Call): Message
  {
    Invoke(t, c).0.conn.sent[|t.conn.sent|]
  }

  /** The legacy suggestion calls and the defaults of `suggest_float` and
      `suggest_int` all build the distribution the source passes on. */
  lemma SuggestRequests(t: DistributedTrial, name: string, low: real, high: real, q: real, lowInt: int, highInt: int, choices: seq<Value>)
    ensures RequestOf(t, SuggestFloatCall(name, low, high, None, false))
         == Suggest(t.trialId, name, FloatDist(low, high, None, false))
    ensures RequestOf(t, SuggestUniformCall(name, low, high))
         == RequestOf(t, SuggestFloatCall(name, low, high, None, false))
    ensures RequestOf(t, SuggestLoguniformCall(name, low, high))
         == Suggest(t.trialId, name, FloatDist(low, high, None, true))
    ensures RequestOf(t, SuggestDiscreteUniformCall(name, low, high, q))
         == Suggest(t.trialId, name, FloatDist(low, high, Some(q), false))
    ensures SuggestInt(t, name, lowInt, highInt).0.conn.sent[|t.conn.sent|]
         == Suggest(t.trialId, name, IntDist(lowInt, highInt, 1, false))
    ensures RequestOf(t, SuggestCategoricalCall(name, choices)).distribution.choices == choices
  {
  }

  /** A suggestion makes a full round trip: the worker puts the request and
      waits; the coordinator processes it and puts the reply on the trial's
      private channel; the worker then reads exactly the value the study
      recorded for the parameter. */
  lemma {:induction false} SuggestRoundTrip(t: DistributedTrial, name: string, d: Distribution,
                                            s: Study, connected: set<TrialId>, o: Oracles)
    requires t.conn.inbox == []
    requires t.trialId in s.trials && t.trialId in connected
    requires !s.trials[t.trialId].state.IsFinished() || Suggested(s.trials[t.trialId], name)
    ensures var (waiting, first) := SendAndWait(t, Suggest(t.trialId, name, d));
      && first == Blocked
      && var eff := Process(waiting.conn.sent[|t.conn.sent|], s, connected, o);
      && var rec := s.trials[t.trialId];
      && var refused := Suggested(rec, name) && !o.compatible(rec.distributions[name], d);
      && (refused ==> eff.raised == Some(ValueError) && eff.replies == [])
      && (!refused ==>
        && var delivered := waiting.(conn := waiting.conn.(inbox := AddressedTo(eff.replies, t.trialId)));
        && AwaitReply(delivered).1 == Returned(Scalar(eff.study.trials[t.trialId].params[name]))
        && AwaitReply(delivered).0.conn.inbox == [])
  {
    var (waiting, first) := SendAndWait(t, Suggest(t.trialId, name, d));
    var m := waiting.conn.sent[|t.conn.sent|];
    assert m == Suggest(t.trialId, name, d);
    var eff := Process(m, s, connected, o);
    var rec := s.trials[t.trialId];
    if !(Suggested(rec, name) && !o.compatible(rec.distributions[name], d)) {
      var v := eff.study.trials[t.trialId].params[name];
      assert eff.replies == [Response(t.trialId, Scalar(v))];
      assert AddressedTo(eff.replies, t.trialId) == [Response(t.trialId, Scalar(v))] by {
        assert AddressedTo(eff.replies[1..], t.trialId) == [];
      }
    }
  }

  /** A property read makes a full round trip: the coordinator answers the
      request with the property of the trial's record, and the proxy returns
      exactly that. */
  lemma {:induction false} PropertyRoundTrip(t: DistributedTrial, p: TrialProperty,
                                             s: Study, connected: set<TrialId>, o: Oracles)
    requires t.conn.inbox == []
    requires t.trialId in s.trials && t.trialId in connected
    ensures var (waiting, first) := GetProperty(t, p);
      && first == Blocked
      && var eff := Process(waiting.conn.sent[|t.conn.sent|], s, connected, o);
      && eff.study == s
      && var delivered := waiting.(conn := waiting.conn.(inbox := AddressedTo(eff.replies, t.trialId)));
      && AwaitReply(delivered).1 == Returned(PropertyOf(s.trials[t.trialId], p))
  {
    var (waiting, first) := GetProperty(t, p);
    var m := waiting.conn.sent[|t.conn.sent|];
    assert m == PropertyRequest(t.trialId, p);
    var eff := Process(m, s, connected, o);
    var data := PropertyOf(s.trials[t.trialId], p);
    assert eff.replies == [Response(t.trialId, data)];
    assert AddressedTo(eff.replies, t.trialId) == [Response(t.trialId, data)] by {
      assert AddressedTo(eff.replies[1..], t.trialId) == [];
    }
  }

  // ---------------------------------------------------------------------------
  // The attribute setters as written

  /** The parameters of `SetAttributeMessage.__init__` after `self`, in order. */
  const SetAttributeParameters: seq<string> := ["trial_id", "kind", "key", "value"]

  /** Whether a call with `positional` positional arguments and the keyword
      arguments named `keywords` binds to `params`, none of which has a
      default: no keyword repeats or names a parameter already filled
      positionally, and every parameter gets a value. Otherwise the call
      raises `TypeError`. */
  predicate Binds(params: seq<string>, positional: nat, keywords: seq<string>)
  {
    && positional <= |params|
    && (forall i, j :: 0 <= i < j < |keywords| ==> keywords[i] != keywords[j])
    && (forall k :: 0 <= k < |keywords| ==> keywords[k] in params[positional..])
    && (forall i :: positional <= i < |params| ==> params[i] in keywords)
  }

  /** `set_user_attr` / `set_system_attr` as written: the message is built
      from the trial id, the key and the value positionally plus `kind` as a
      keyword. The call raises before anything is put when that does not bind. */
  function SetAttrAsWritten(t: DistributedTrial, kind: AttributeKind, key: string, v: Value): (r: (DistributedTrial, Answer))
    ensures r.1.CallRaised? ==> r.0 == t
    ensures !r.1.CallRaised? ==> r == Send(t, SetAttribute(t.trialId, kind, key, v))
  {
    if Binds(SetAttributeParameters, 3, ["kind"]) then Send(t, SetAttribute(t.trialId, kind, key, v))
    else (t, CallRaised(TypeError))
  }

  /** As written, both attribute setters raise `TypeError` in the worker and
      send nothing: `kind` receives the key positionally and then again as a
      keyword. Passing everything after the trial id by keyword binds, and the
      corrected setters put exactly one request carrying the key and value. */
  lemma SetAttrAsWrittenRaises(t: DistributedTrial, key: string, v: Value)
    ensures SetAttrAsWritten(t, User, key, v) == (t, CallRaised(TypeError))
    ensures SetAttrAsWritten(t, System, key, v) == (t, CallRaised(TypeError))
    ensures Binds(SetAttributeParameters, 1, ["kind", "key", "value"])
    ensures SetUserAttr(t, key, v).0.conn.sent == t.conn.sent + [SetAttribute(t.trialId, User, key, v)]
    ensures SetSystemAttr(t, key, v).0.conn.sent == t.conn.sent + [SetAttribute(t.trialId, System, key, v)]
  {
    assert !Binds(SetAttributeParameters, 3, ["kind"]) by {
      var keywords := ["kind"];
      assert SetAttributeParameters[3..] == ["value"];
      assert keywords[0] !in SetAttributeParameters[3..];
    }
    assert SetAttributeParameters[1..] == ["kind", "key", "value"];
  }
}

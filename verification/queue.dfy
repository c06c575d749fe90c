/**
 The queue-based IPC primitive used in distributed mode: construction-time
 validation, lazy opening of the underlying named queues, and the retry schedule
 of `get`. What each fetch attempt sees is an input: `arrivals[k]` is the message
 the k-th attempt receives, or `None` when that attempt times out.
 */
module Ipc {
  import opened Values
  import opened Messages

  datatype Queue = Queue(
    publishing: string,
    receiving: Option<string>,
    timeout: Option<int>,
    maxRetries: Option<int>,
    initialized: bool,
    openings: nat)
{
  /** `_publisher` is set once the queue is initialized. */
  predicate PublisherOpen()
  {
    initialized
  }

  /** `_subscriber` is set once the queue is initialized, if it has a receiving name. */
  predicate SubscriberOpen()
  {
    initialized && receiving.Some?
  }
}

  datatype Construction = Built(q: Queue) | Refused(e: Exception)

  /** `Queue(publishing, recieving, timeout, max_retries)`: setting both a fixed
      timeout and a retry count raises `ValueError`; otherwise the arguments are
      stored and nothing is opened yet. */
  function NewQueue(publishing: string, receiving: Option<string>, timeout: Option<int>,
                    maxRetries: Option<int>): (r: Construction)
    ensures r.Refused? <==> timeout.Some? && maxRetries.Some?
    ensures r.Refused? ==> r.e == ValueError
    ensures r.Built? ==>
      && r.q.publishing == publishing && r.q.receiving == receiving
      && r.q.timeout == timeout && r.q.maxRetries == maxRetries
      && !r.q.PublisherOpen() && !r.q.SubscriberOpen() && r.q.openings == 0
  {
    if maxRetries.Some? && timeout.Some? then Refused(ValueError)
    else Built(Queue(publishing, receiving, timeout, maxRetries, false, 0))
  }

  /** `_initialize`: the first call opens the publishing queue and, when a
      receiving name was given, the receiving one; later calls do nothing. */
  function Initialize(q: Queue): (q': Queue)
    ensures q'.PublisherOpen() && (q'.SubscriberOpen() <==> q.receiving.Some?)
    ensures q.initialized ==> q' == q
    ensures !q.initialized ==> q'.openings == q.openings + (if q.receiving.Some? then 2 else 1)
    ensures q'.publishing == q.publishing && q'.receiving == q.receiving
    ensures q'.timeout == q.timeout && q'.maxRetries == q.maxRetries
  {
    if q.initialized then q
    else
      q.(initialized := true,
         openings := q.openings + if q.receiving.Some? then 2 else 1)
  }

  lemma InitializeIdempotent(q: Queue)
    ensures Initialize(Initialize(q)) == Initialize(q)
  {
  }

  /** `_initialize` called `k` times in a row. */
  function InitializeTimes(q: Queue, k: nat): Queue
  {
    if k == 0 then q else Initialize(InitializeTimes(q, k - 1))
  }

  /** However often a fresh queue is used, each of its channels is opened once. */
  lemma {:induction false} ChannelsOpenedOnce(q: Queue, k: nat)
    requires !q.initialized && q.openings == 0
    requires k >= 1
    ensures InitializeTimes(q, k).openings == (if q.receiving.Some? then 2 else 1)
    ensures InitializeTimes(q, k) == Initialize(q)
  {
    if k > 1 {
      ChannelsOpenedOnce(q, k - 1);
    }
  }

  function Pow2(n: nat): (r: nat)
    ensures r >= 1
  {
    if n == 0 then 1 else 2 * Pow2(n - 1)
  }

  /** The timeout the `attempt`-th fetch uses: the fixed timeout without
      `max_retries`, `2 ** attempt` seconds with it. */
  function AttemptTimeout(q: Queue, attempt: nat): Option<int>
  {
    if q.maxRetries.None? then q.timeout else Some(Pow2(attempt))
  }

  datatype Fetch = Got(msg: Message) | FetchRaised(e: Exception) | StillWaiting

  /** `Queue.get`. Returns the queue after lazy initialization, the outcome,
      and the timeout of every attempt made, in order. `arrivals[k]` is `None`
      when the k-th attempt sees no message: it times out if it has a timeout
      and is still blocked if it has none. `StillWaiting` means the call has
      neither returned nor raised within the given arrivals. Without
      `max_retries` the first timeout raises; with `max_retries <= 0` the
      attempt count never reaches the limit, so `get` retries for ever. */
  method Get(q: Queue, arrivals: seq<Option<Message>>) returns (q': Queue, r: Fetch, timeouts: seq<Option<int>>)
    ensures q' == Initialize(q)
    ensures !q'.SubscriberOpen() ==> r == FetchRaised(RuntimeError) && timeouts == []
    ensures q'.SubscriberOpen() ==>
      && |timeouts| <= |arrivals|
      && (forall i :: 0 <= i < |timeouts| ==> timeouts[i] == AttemptTimeout(q, i))
      && (forall i :: 0 <= i < |timeouts| - 1 ==> arrivals[i].None? && timeouts[i].Some?)
      && (r.Got? ==> |timeouts| >= 1 && arrivals[|timeouts| - 1] == Some(r.msg))
      && (r.FetchRaised? ==>
            && r.e == TimeoutError && |timeouts| >= 1
            && arrivals[|timeouts| - 1].None? && timeouts[|timeouts| - 1].Some?)
      && (r.FetchRaised? && q.maxRetries.None? ==> |timeouts| == 1)
      && (r.FetchRaised? && q.maxRetries.Some? ==> |timeouts| == q.maxRetries.value)
      && (r.StillWaiting? ==>
            && (forall i :: 0 <= i < |timeouts| ==> arrivals[i].None?)
            && (|timeouts| == |arrivals| || (|timeouts| >= 1 && timeouts[|timeouts| - 1].None?)))
      && (r.StillWaiting? && q.maxRetries.None? ==> |arrivals| == 0 || q.timeout.None?)
      && (r.StillWaiting? && q.maxRetries.Some? && q.maxRetries.value >= 1 ==> |arrivals| < q.maxRetries.value)
      && (q.maxRetries.None? ==> |timeouts| <= 1)
      && (q.maxRetries.Some? && q.maxRetries.value >= 1 ==> |timeouts| <= q.maxRetries.value)
      && (q.maxRetries.None? && q.timeout.None? ==> !r.FetchRaised?)
      && (q.maxRetries.Some? && q.maxRetries.value <= 0 ==> !r.FetchRaised?)
  {
    q' := Initialize(q);
    timeouts := [];
    if !q'.SubscriberOpen() {
      r := FetchRaised(RuntimeError);
      return;
    }
    var attempt: nat := 0;
    while true
      invariant attempt == |timeouts| <= |arrivals|
      invariant forall i :: 0 <= i < |timeouts| ==> timeouts[i] == AttemptTimeout(q, i)
      invariant forall i :: 0 <= i < |timeouts| ==> arrivals[i].None? && timeouts[i].Some?
      invariant q.maxRetries.None? ==> attempt == 0
      invariant q.maxRetries.Some? && q.maxRetries.value >= 1 ==> attempt < q.maxRetries.value
      decreases |arrivals| - attempt
    {
      if attempt == |arrivals| {
        r := StillWaiting;
        return;
      }
      timeouts := timeouts + [AttemptTimeout(q, attempt)];
      if arrivals[attempt].Some? {
        r := Got(arrivals[attempt].value);
        return;
      }
      if AttemptTimeout(q, attempt).None? {
        // `get(None)` blocks until a message comes
        r := StillWaiting;
        return;
      }
      attempt := attempt + 1;
      if q.maxRetries.None? || attempt == q.maxRetries.value {
        r := FetchRaised(TimeoutError);
        return;
      }
    }
  }

  /** With `max_retries = m >= 1` and no message in the first `m` attempts,
      `get` waits 1, 2, 4, ..., 2^(m-1) seconds and then raises the timeout. */
  method GetExhaustsRetries(q: Queue, m: nat) returns (r: Fetch, timeouts: seq<Option<int>>)
    requires q.receiving.Some? && q.maxRetries == Some(m) && m >= 1
    ensures r == FetchRaised(TimeoutError)
    ensures |timeouts| == m && forall i :: 0 <= i < m ==> timeouts[i] == Some(Pow2(i))
  {
    var arrivals := seq(m, _ => None);
    var q';
    q', r, timeouts := Get(q, arrivals);
  }

  /** `Queue.put`: opens the channels if needed and publishes the message on
      the publishing queue. */
  function PutMessage(q: Queue, m: Message): (r: (Queue, string, Message))
    ensures r.0 == Initialize(q) && r.1 == q.publishing && r.2 == m
  {
    (Initialize(q), q.publishing, m)
  }
}

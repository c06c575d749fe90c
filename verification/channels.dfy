/**
 Transport, abstracted: what one poll of a manager's connections delivers, the
 per-trial private reply channels as FIFO sequences, and a worker's end of its
 connection. Replies are matched to requests by the trial's private channel,
 not by correlation ids, so one FIFO per trial is all the coordinator needs.
 */
module Channels {
  import opened Values
  import opened Store
  import opened Messages

  /** One ready connection seen by a poll: a message, or end of file when the
      worker has closed its end. */
  datatype Incoming = Received(msg: Message) | Eof(trialId: TrialId)

  /** The messages received in one poll, in order. */
  function ReceivedIn(incoming: seq<Incoming>): (r: seq<Message>)
    ensures |r| <= |incoming|
    ensures forall m :: m in r <==> Received(m) in incoming
  {
    if |incoming| == 0 then []
    else
      (if incoming[0].Received? then [incoming[0].msg] else []) + ReceivedIn(incoming[1..])
  }

  /** The trials whose connections reached end of file in one poll. */
  function EofIn(incoming: seq<Incoming>): (r: set<TrialId>)
    ensures forall id :: id in r <==> Eof(id) in incoming
  {
    set x | x in incoming && x.Eof? :: x.trialId
  }

  /** What the manager's `get_message` yields for one poll: the messages
      received, or a single heartbeat when nothing arrived before the timeout. */
  function Batch(incoming: seq<Incoming>): (r: seq<Message>)
    ensures |r| >= 1
    ensures ReceivedIn(incoming) != [] ==> r == ReceivedIn(incoming)
    ensures ReceivedIn(incoming) == [] ==> r == [Heartbeat]
  {
    var received := ReceivedIn(incoming);
    if received == [] then [Heartbeat] else received
  }

  /** Private reply channels: trial id to the responses not yet read by its worker. */
  type Mailboxes = map<TrialId, seq<Message>>

  /** The replies in `replies` addressed to trial `id`, in order. */
  function AddressedTo(replies: seq<Message>, id: TrialId): (r: seq<Message>)
    ensures |r| <= |replies|
    ensures forall m :: m in r <==> m in replies && TrialIdOf(m) == Some(id)
  {
    if |replies| == 0 then []
    else
      (if TrialIdOf(replies[0]) == Some(id) then [replies[0]] else []) + AddressedTo(replies[1..], id)
  }

  /** Appends one reply to its trial's private channel. */
  function Enqueue(boxes: Mailboxes, m: Message): (r: Mailboxes)
    requires !m.Heartbeat?
    ensures r.Keys == boxes.Keys + {m.trialId}
    ensures r[m.trialId] == (if m.trialId in boxes then boxes[m.trialId] else []) + [m]
    ensures forall id :: id in boxes && id != m.trialId ==> r[id] == boxes[id]
  {
    var queue := if m.trialId in boxes then boxes[m.trialId] else [];
    boxes[m.trialId := queue + [m]]
  }

  /** `conn.put(reply)` for each reply, in order. */
  function Deliver(boxes: Mailboxes, replies: seq<Message>): (r: Mailboxes)
    requires forall m :: m in replies ==> !m.Heartbeat?
    decreases |replies|
  {
    if |replies| == 0 then boxes
    else Deliver(Enqueue(boxes, replies[0]), replies[1..])
  }

  function QueueOf(boxes: Mailboxes, id: TrialId): seq<Message>
  {
    if id in boxes then boxes[id] else []
  }

  /** Each trial's channel receives exactly the replies addressed to it, in the
      order they were put, after the ones already waiting there. */
  lemma {:induction false} DeliverIsPerTrialFifo(boxes: Mailboxes, replies: seq<Message>, id: TrialId)
    requires forall m :: m in replies ==> !m.Heartbeat?
    ensures QueueOf(Deliver(boxes, replies), id) == QueueOf(boxes, id) + AddressedTo(replies, id)
    decreases |replies|
  {
    if |replies| == 0 {
    } else {
      var next := Enqueue(boxes, replies[0]);
      assert replies[0] in replies;
      assert Deliver(boxes, replies) == Deliver(next, replies[1..]);
      DeliverIsPerTrialFifo(next, replies[1..], id);
      if replies[0].trialId == id {
        assert QueueOf(next, id) == QueueOf(boxes, id) + [replies[0]];
        assert AddressedTo(replies, id) == [replies[0]] + AddressedTo(replies[1..], id);
      } else {
        assert QueueOf(next, id) == QueueOf(boxes, id);
        assert AddressedTo(replies, id) == AddressedTo(replies[1..], id);
      }
    }
  }

  /** A worker's end of its connection: the requests it has put, in order, and
      the replies waiting to be read. `closed` records `connection.close()`. */
  datatype Conn = Conn(sent: seq<Message>, inbox: seq<Message>, closed: bool)

  /** `connection.put(message)`. */
  function PutOn(c: Conn, m: Message): (c': Conn)
    ensures c'.sent == c.sent + [m] && c'.inbox == c.inbox && c'.closed == c.closed
  {
    c.(sent := c.sent + [m])
  }

  /** `connection.close()`. */
  function Close(c: Conn): (c': Conn)
    ensures c'.closed && c'.sent == c.sent && c'.inbox == c.inbox
  {
    c.(closed := true)
  }
}

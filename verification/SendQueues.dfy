/** The priority-aware send queue of rpc.rs: one counter and two channels shared by the
    behaviour (sender) and the connection handler (receiver). */
module SendQueues {
  import opened Types

  /** Both channels of one peer, with the counter that bounds the `Publish` messages. `cap` is half
      the configured queue length. `priorityPeeked` and `forwardPeeked` say that the receiver has
      lifted the head of a channel into its peek slot. In the bounded non-priority channel this frees
      one place; in both the head is the receiver's from then on and goes when the receiver goes. */
  datatype SendQueue = SendQueue(cap: nat, len: nat, priority: seq<RpcOut>, nonPriority: seq<RpcOut>,
                                 priorityPeeked: bool, forwardPeeked: bool, closed: bool)
  {
    /** Places taken in the bounded non-priority channel. */
    function ForwardsInChannel(): int {
      |nonPriority| - if forwardPeeked then 1 else 0
    }

    /** What any interleaving of sends and receives keeps. */
    ghost predicate Valid() {
      && PublishCount(priority) <= len <= cap
      && ForwardsInChannel() <= cap
      && (priorityPeeked ==> priority != [])
      && (forwardPeeked ==> nonPriority != [])
      && (forall m :: m in priority ==> m.IsPriority())
      && (forall m :: m in nonPriority ==> m.Forward?)
    }
  }

  datatype Poll<+T> = Pending | Ready(value: T)

  function NewQueue(queueLen: nat): SendQueue {
    SendQueue(queueLen / 2, 0, [], [], false, false, false)
  }

  function PublishCount(s: seq<RpcOut>): nat {
    if s == [] then 0 else (if s[0].Publish? then 1 else 0) + PublishCount(s[1..])
  }

  lemma {:induction false} PublishCountAppend(s: seq<RpcOut>, m: RpcOut)
    ensures PublishCount(s + [m]) == PublishCount(s) + if m.Publish? then 1 else 0
  {
    if s == [] {
      assert s + [m] == [m];
    } else {
      PublishCountAppend(s[1..], m);
      assert (s + [m])[1..] == s[1..] + [m];
    }
  }

  /** `Sender::send_transaction`: a full counter refuses a `Publish`, a full channel refuses a
      `Forward`, control messages are refused only by a closed channel. */
  function TrySend(q: SendQueue, rpc: RpcOut): (SendQueue, bool) {
    if rpc.Publish? && q.len >= q.cap then (q, false)
    else
      var q1 := if rpc.Publish? then q.(len := q.len + 1) else q;
      if q1.closed then (q1, false)
      else if rpc.IsPriority() then (q1.(priority := q1.priority + [rpc]), true)
      else if q1.ForwardsInChannel() >= q1.cap then (q1, false)
      else (q1.(nonPriority := q1.nonPriority + [rpc]), true)
  }

  /** `Receiver::poll_next`. A closed and drained priority channel ends the stream at once, with
      the non-priority channel left unread. */
  function PollNext(q: SendQueue): (SendQueue, Poll<Option<RpcOut>>) {
    if q.priority != [] then
      var q1 := q.(priority := q.priority[1..], priorityPeeked := false);
      ((if q.priority[0].Publish? then q1.(len := if q.len > 0 then q.len - 1 else MAX_U64) else q1),
       Ready(Some(q.priority[0])))
    else if q.closed then (q, Ready(None))
    else if q.nonPriority != [] then
      (q.(nonPriority := q.nonPriority[1..], forwardPeeked := false), Ready(Some(q.nonPriority[0])))
    else (q, Pending)
  }

  /** Peeking moves the head of the channel into the peek slot. */
  function PeekPriority(q: SendQueue): SendQueue {
    q.(priorityPeeked := q.priority != [])
  }

  function PeekForward(q: SendQueue): SendQueue {
    q.(forwardPeeked := q.nonPriority != [])
  }

  /** `Receiver::poll_stale`: drop the head of a channel if it is a transaction whose time is up.
      The counter is left alone, also when the dropped message is a `Publish`. The answer
      `Ready(None)` needs every head to be a transaction still in time or a closed, drained channel. */
  function PollStale(q: SendQueue, now: nat): (SendQueue, Poll<Option<RpcOut>>) {
    if q.priority != [] && q.priority[0].Publish? && q.priority[0].deadline <= now then
      (q.(priority := q.priority[1..], priorityPeeked := false), Ready(Some(q.priority[0])))
    else
      var p := PeekForward(PeekPriority(q));
      if p.nonPriority != [] && p.nonPriority[0].Forward? && p.nonPriority[0].deadline <= now then
        (p.(nonPriority := p.nonPriority[1..], forwardPeeked := false), Ready(Some(p.nonPriority[0])))
      else
        var priorityDone := if q.priority != [] then q.priority[0].Publish? else q.closed;
        var nonPriorityDone := if p.nonPriority != [] then p.nonPriority[0].Forward? else q.closed;
        (p, if priorityDone && nonPriorityDone then Ready(None) else Pending)
  }

  /** `Receiver::poll_is_empty` peeks at both channels. An empty channel that is still open is
      pending, not at its end, so the answer is true only once both channels are closed and drained. */
  function PollIsEmpty(q: SendQueue): (SendQueue, bool) {
    (PeekForward(PeekPriority(q)), q.closed && q.priority == [] && q.nonPriority == [])
  }

  /** What a receiver holds in its peek slots. */
  function PeekedHeads(q: SendQueue): seq<RpcOut> {
    (if q.priorityPeeked && q.priority != [] then [q.priority[0]] else [])
    + (if q.forwardPeeked && q.nonPriority != [] then [q.nonPriority[0]] else [])
  }

  /** The receiver is dropped, and what it has peeked goes with it. The counter is left alone. */
  function ReceiverGone(q: SendQueue): SendQueue {
    q.(priority := if q.priorityPeeked && q.priority != [] then q.priority[1..] else q.priority,
       nonPriority := if q.forwardPeeked && q.nonPriority != [] then q.nonPriority[1..] else q.nonPriority,
       priorityPeeked := false, forwardPeeked := false)
  }

  lemma TrySendValid(q: SendQueue, rpc: RpcOut)
    requires q.Valid() && !q.closed
    ensures TrySend(q, rpc).0.Valid()
    ensures rpc.IsControl() ==> TrySend(q, rpc).1
  {
    PublishCountAppend(q.priority, rpc);
  }

  /** The counter never underflows: a `Publish` at the head keeps it positive. A closed queue ends once its priority
      channel is drained, whatever is left in the other one; an open one never ends. */
  lemma PollNextValid(q: SendQueue)
    requires q.Valid()
    ensures PollNext(q).0.Valid()
    ensures q.priority != [] && q.priority[0].Publish? ==> q.len > 0 && PollNext(q).0.len == q.len - 1
    ensures PollNext(q).1.Ready? && PollNext(q).1.value.Some? && PollNext(q).1.value.value.Forward? ==> q.priority == []
    ensures PollNext(q).1 == Ready(None) <==> q.closed && q.priority == []
    ensures PollNext(q).1 == Pending <==> !q.closed && q.priority == [] && q.nonPriority == []
    ensures !(PollNext(q).1.Ready? && PollNext(q).1.value.Some?) ==> PollNext(q).0 == q
  {
    if q.priority != [] {
      assert q.priority[0] in q.priority;
      assert forall m :: m in q.priority[1..] ==> m in q.priority;
    } else if q.nonPriority != [] {
      assert forall m :: m in q.nonPriority[1..] ==> m in q.nonPriority;
    }
  }

  lemma PollStaleValid(q: SendQueue, now: nat)
    requires q.Valid()
    ensures PollStale(q, now).0.Valid()
  {
    if q.priority != [] {
      assert forall m :: m in q.priority[1..] ==> m in q.priority;
    }
    if q.nonPriority != [] {
      assert forall m :: m in q.nonPriority[1..] ==> m in q.nonPriority;
    }
  }

  /** One peeked head goes. */
  function DropHead(q: SendQueue, priority: bool): SendQueue {
    if priority then (if q.priority != [] then q.(priority := q.priority[1..], priorityPeeked := false) else q)
    else if q.nonPriority != [] then q.(nonPriority := q.nonPriority[1..], forwardPeeked := false)
    else q
  }

  /** A receiver that goes takes its peeked heads along, one after the other. */
  lemma ReceiverGoneDropsHeads(q: SendQueue)
    requires q.Valid()
    ensures ReceiverGone(q) == var q1 := if q.priorityPeeked then DropHead(q, true) else q;
                               if q1.forwardPeeked then DropHead(q1, false) else q1
  {}

  lemma DropHeadValid(q: SendQueue, priority: bool)
    requires q.Valid() && if priority then q.priorityPeeked else q.forwardPeeked
    ensures DropHead(q, priority).Valid()
  {
    if priority {
      assert forall m :: m in q.priority[1..] ==> m in q.priority;
    } else {
      assert forall m :: m in q.nonPriority[1..] ==> m in q.nonPriority;
    }
  }

  lemma ReceiverGoneValid(q: SendQueue)
    requires q.Valid()
    ensures ReceiverGone(q).Valid()
  {
    ReceiverGoneDropsHeads(q);
    var q1 := if q.priorityPeeked then DropHead(q, true) else q;
    if q.priorityPeeked {
      DropHeadValid(q, true);
    }
    if q1.forwardPeeked {
      DropHeadValid(q1, false);
    }
  }

  /** The queue object behaviour and handler share. Each method is one call of the source, run
      without interruption; interruptions inside a call are the subject of QueueCounter. */
  class SharedQueue {
    const priorityCap: nat
    var len: nat
    var priority: seq<RpcOut>
    var nonPriority: seq<RpcOut>
    var priorityPeeked: bool
    var forwardPeeked: bool
    var closed: bool

    ghost function State(): SendQueue
      reads this
    {
      SendQueue(priorityCap, len, priority, nonPriority, priorityPeeked, forwardPeeked, closed)
    }

    /** A bounded channel of capacity zero cannot be made. */
    constructor (queueLen: nat)
      requires queueLen >= 2
      ensures State() == NewQueue(queueLen) && State().Valid()
    {
      priorityCap := queueLen / 2;
      len, priority, nonPriority, priorityPeeked, forwardPeeked, closed := 0, [], [], false, false, false;
    }

    method SendTransaction(rpc: RpcOut) returns (sent: bool)
      modifies this
      ensures (State(), sent) == TrySend(old(State()), rpc)
    {
      if rpc.Publish? {
        var l := len;
        if l >= priorityCap {
          return false;
        }
        len := l + 1;
      }
      if closed {
        return false;
      }
      if rpc.Publish? || rpc.HaveTx? || rpc.ResetRoute? {
        priority := priority + [rpc];
        return true;
      }
      var occupied := if forwardPeeked then |nonPriority| - 1 else |nonPriority|;
      if occupied >= priorityCap {
        return false;
      }
      nonPriority := nonPriority + [rpc];
      return true;
    }

    method Next() returns (r: Poll<Option<RpcOut>>)
      requires State().Valid()
      modifies this
      ensures (State(), r) == PollNext(old(State())) && State().Valid()
    {
      PollNextValid(State());
      if priority != [] {
        r := Ready(Some(priority[0]));
        if priority[0].Publish? {
          len := len - 1;
        }
        priority, priorityPeeked := priority[1..], false;
      } else if closed {
        r := Ready(None);
      } else if nonPriority != [] {
        r := Ready(Some(nonPriority[0]));
        nonPriority, forwardPeeked := nonPriority[1..], false;
      } else {
        r := Pending;
      }
    }

    method Stale(now: nat) returns (r: Poll<Option<RpcOut>>)
      requires State().Valid()
      modifies this
      ensures (State(), r) == PollStale(old(State()), now) && State().Valid()
    {
      PollStaleValid(State(), now);
      var priorityPoll: Poll<Option<RpcOut>>;
      priorityPeeked := priority != [];
      if priority != [] {
        priorityPoll := Ready(Some(priority[0]));
        if priority[0].Publish? {
          if priority[0].deadline <= now {
            priority, priorityPeeked := priority[1..], false;
            return priorityPoll;
          }
          priorityPoll := Ready(None);
        }
      } else {
        priorityPoll := if closed then Ready(None) else Pending;
      }
      var nonPriorityPoll: Poll<Option<RpcOut>>;
      forwardPeeked := nonPriority != [];
      if nonPriority != [] {
        nonPriorityPoll := Ready(Some(nonPriority[0]));
        if nonPriority[0].Forward? {
          if nonPriority[0].deadline <= now {
            nonPriority, forwardPeeked := nonPriority[1..], false;
            return nonPriorityPoll;
          }
          nonPriorityPoll := Ready(None);
        }
      } else {
        nonPriorityPoll := if closed then Ready(None) else Pending;
      }
      r := if priorityPoll == Ready(None) && nonPriorityPoll == Ready(None) then Ready(None) else Pending;
    }

    method IsEmpty() returns (empty: bool)
      modifies this
      ensures (State(), empty) == PollIsEmpty(old(State()))
    {
      priorityPeeked, forwardPeeked := priority != [], nonPriority != [];
      empty := closed && priority == [] && nonPriority == [];
    }

    /** The handler that owns the receiver goes. */
    method DropReceiver()
      requires State().Valid()
      modifies this
      ensures State() == ReceiverGone(old(State())) && State().Valid()
    {
      ReceiverGoneValid(State());
      if priorityPeeked {
        priority, priorityPeeked := priority[1..], false;
      }
      if forwardPeeked {
        nonPriority, forwardPeeked := nonPriority[1..], false;
      }
    }
  }
}

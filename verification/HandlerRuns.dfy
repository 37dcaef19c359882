/** A handler over its whole life: what becomes of every message its queue accepts, and how many
    substreams it ever asks for. */
module HandlerRuns {
  import opened Types
  import opened SendQueues
  import opened Handlers

  /** All but the handler is history: what the queue has accepted, what `poll` has reported as dropped, what
      it has handed to the behaviour, how many substreams it has asked for, and what the handler has been told
      while it was enabled. */
  datatype Life = Life(h: HandlerState, accepted: seq<RpcOut>, reported: seq<RpcOut>, received: seq<Rpc>,
                       requests: nat, told: seq<ConnectionEvent>)

  datatype Step =
    | Send(rpc: RpcOut)
    | PollAt(now: nat, sink: seq<SinkAnswer>, source: seq<SourceAnswer>)
    | Happen(event: ConnectionEvent)

  function NewLife(queueLen: nat): Life {
    Life(NewHandler(NewQueue(queueLen)), [], [], [], 0, [])
  }

  /** The swarm answers an outbound request once: an answer without an open request does not happen. */
  function Do(l: Life, s: Step): Life {
    match s
    case Send(rpc) =>
      var (q, ok) := TrySend(l.h.queue, rpc);
      l.(h := l.h.(queue := q), accepted := l.accepted + if ok then [rpc] else [])
    case PollAt(now, sink, source) =>
      var (h, polled) := PollHandler(l.h, now, sink, source);
      l.(h := h,
         reported := l.reported + (if polled.Dropped? then [polled.message] else []),
         received := l.received + (if polled.Received? then [polled.rpc] else []),
         requests := l.requests + if polled.SubstreamRequest? then 1 else 0)
    case Happen(event) =>
      if event.IsOutbound() && !l.h.establishing then l
      else l.(h := OnEvent(l.h, event), told := l.told + if l.h.status == Enabled then [event] else [])
  }

  function Run(l: Life, steps: seq<Step>): Life {
    if steps == [] then l else Do(Run(l, steps[..|steps| - 1]), steps[|steps| - 1])
  }

  // ---- Views of the history ----

  /** The messages of one of the two channels. */
  function OfChannel(s: seq<RpcOut>, priority: bool): seq<RpcOut> {
    if s == [] then []
    else OfChannel(s[..|s| - 1], priority) + if s[|s| - 1].IsPriority() == priority then [s[|s| - 1]] else []
  }

  function Messages(taken: seq<Taken>): seq<RpcOut> {
    if taken == [] then [] else Messages(taken[..|taken| - 1]) + [taken[|taken| - 1].rpc]
  }

  /** Where a message goes that leaves the queue. */
  datatype Way = ToTheSink | ToTheReport | WithTheHandler

  function WayOf(fate: Fate): Way {
    match fate
    case ForSending(_) => ToTheSink
    case WithHandler => WithTheHandler
    case _ => ToTheReport
  }

  /** What left the queue that way, in order. */
  function TakenTo(taken: seq<Taken>, way: Way): seq<RpcOut> {
    if taken == [] then []
    else
      var last := taken[|taken| - 1];
      TakenTo(taken[..|taken| - 1], way) + if WayOf(last.fate) == way then [last.rpc] else []
  }

  function Resolved(outcomes: seq<Outcome>): seq<RpcOut> {
    if outcomes == [] then [] else Resolved(outcomes[..|outcomes| - 1]) + [outcomes[|outcomes| - 1].rpc]
  }

  /** How sending ends. */
  datatype Ending = WasGiven | WasLost | WasAbandoned

  function EndingOf(o: Outcome): Ending {
    match o
    case Given(_) => WasGiven
    case Lost(_) => WasLost
    case Abandoned(_) => WasAbandoned
  }

  /** What was given to the sink, lost to a sink error or dropped while waiting, in order. */
  function ResolvedAs(outcomes: seq<Outcome>, ending: Ending): seq<RpcOut> {
    if outcomes == [] then []
    else
      var last := outcomes[|outcomes| - 1];
      ResolvedAs(outcomes[..|outcomes| - 1], ending) + if EndingOf(last) == ending then [last.rpc] else []
  }

  /** What the handler took with it when it was disabled. */
  function GoneWithHandler(h: HandlerState): seq<RpcOut> {
    TakenTo(h.taken, WithTheHandler) + ResolvedAs(h.outcomes, WasAbandoned)
  }

  function WaitingToBeSent(h: HandlerState): seq<RpcOut> {
    if h.outbound.PendingSend? then [h.outbound.rpc] else []
  }

  function Channel(q: SendQueue, priority: bool): seq<RpcOut> {
    if priority then q.priority else q.nonPriority
  }

  lemma TakenAppend(taken: seq<Taken>, t: Taken, way: Way)
    ensures Messages(taken + [t]) == Messages(taken) + [t.rpc]
    ensures TakenTo(taken + [t], way) == TakenTo(taken, way) + if WayOf(t.fate) == way then [t.rpc] else []
  {
    assert (taken + [t])[..|taken|] == taken;
  }

  lemma OfChannelAppend(s: seq<RpcOut>, m: RpcOut, b: bool)
    ensures OfChannel(s + [m], b) == OfChannel(s, b) + if m.IsPriority() == b then [m] else []
  {
    assert (s + [m])[..|s|] == s;
  }

  lemma ResolvedAppend(s: seq<Outcome>, o: Outcome)
    ensures Resolved(s + [o]) == Resolved(s) + [o.rpc]
  {
    assert (s + [o])[..|s|] == s;
  }

  // ---- The books of a handler ----

  /** What left a channel, followed by what is still in it, is what it accepted. */
  ghost predicate InOrder(taken: seq<Taken>, q: SendQueue, accepted: seq<RpcOut>, priority: bool) {
    OfChannel(Messages(taken), priority) + Channel(q, priority) == OfChannel(accepted, priority)
  }

  ghost predicate InTurn(taken: seq<Taken>) {
    forall t :: t in taken && t.rpc.Forward? && (t.fate.ForSending? || t.fate.Expired?) ==> t.priorityQueued == 0
  }

  ghost predicate Books(h: HandlerState, accepted: seq<RpcOut>, reported: seq<RpcOut>) {
    && Sound(h) && !h.queue.closed
    && InOrder(h.taken, h.queue, accepted, true) && InOrder(h.taken, h.queue, accepted, false)
    && TakenTo(h.taken, ToTheSink) == Resolved(h.outcomes) + WaitingToBeSent(h)
    && TakenTo(h.taken, ToTheReport) == reported
    && InTurn(h.taken)
  }

  /** The head of a channel leaves it. */
  lemma TakeInOrder(taken: seq<Taken>, q: SendQueue, q': SendQueue, t: Taken, accepted: seq<RpcOut>, priority: bool)
    requires InOrder(taken, q, accepted, priority)
    requires if t.rpc.IsPriority() == priority then Channel(q, priority) == [t.rpc] + Channel(q', priority)
               else Channel(q', priority) == Channel(q, priority)
    ensures InOrder(taken + [t], q', accepted, priority)
  {
    hide OfChannel, Messages, Channel, TakenTo, WayOf;
    TakenAppend(taken, t, ToTheSink);
    OfChannelAppend(Messages(taken), t.rpc, priority);
    var left := OfChannel(Messages(taken), priority);
    if t.rpc.IsPriority() == priority {
      assert left + [t.rpc] + Channel(q', priority) == left + ([t.rpc] + Channel(q', priority));
    } else {
      assert left + [] == left;
    }
  }

  /** What `PollNext` and `PollStale` take is the head of its channel. */
  ghost predicate HeadOf(q: SendQueue, q': SendQueue, m: RpcOut) {
    forall b :: if m.IsPriority() == b then Channel(q, b) == [m] + Channel(q', b) else Channel(q', b) == Channel(q, b)
  }

  lemma NextIsHead(q: SendQueue)
    requires q.Valid() && !q.closed
    ensures var (q', polled) := PollNext(q);
            && q'.Valid() && !q'.closed
            && polled != Ready(None)
            && (polled == Pending ==> q' == q)
            && (polled.Ready? && polled.value.Some? ==>
                  HeadOf(q, q', polled.value.value) && (polled.value.value.Forward? ==> q.priority == []))
  {
    hide PublishCount;
    PollNextValid(q);
  }

  lemma StaleIsHead(q: SendQueue, now: nat)
    requires q.Valid() && !q.closed
    ensures var (q', polled) := PollStale(q, now);
            && q'.Valid() && !q'.closed
            && (polled.Ready? && polled.value.Some? ==> HeadOf(q, q', polled.value.value))
            && (!(polled.Ready? && polled.value.Some?) ==> q'.priority == q.priority && q'.nonPriority == q.nonPriority)
  {
    hide PublishCount;
    PollStaleValid(q, now);
  }

  lemma TakeBooks(h: HandlerState, q: SendQueue, m: RpcOut, fate: Fate, accepted: seq<RpcOut>, reported: seq<RpcOut>,
                  outbound: Outbound)
    requires Books(h, accepted, reported) && HeadOf(h.queue, q, m) && q.Valid() && !q.closed
    requires m.Forward? && (fate.ForSending? || fate.Expired?) ==> h.queue.priority == []
    requires outbound == h.outbound || (fate.ForSending? && outbound.PendingSend? && outbound.rpc == m)
    requires fate.ForSending? ==> h.outbound.WaitingOutput? && outbound.PendingSend?
    requires outbound.PendingSend? && outbound != h.outbound && h.status == Enabled ==> !h.establishing
    ensures Books(Take(h, q, m, fate).(outbound := outbound), accepted,
                  reported + if WayOf(fate) == ToTheReport then [m] else [])
  {
    hide SendQueue.Valid, TakenTo, Resolved, InOrder;
    var t := Taken(m, fate, |h.queue.priority|);
    TakenAppend(h.taken, t, ToTheSink);
    TakenAppend(h.taken, t, ToTheReport);
    TakeInOrder(h.taken, h.queue, q, t, accepted, true);
    TakeInOrder(h.taken, h.queue, q, t, accepted, false);
    assert TakenTo(h.taken + [t], ToTheSink) == TakenTo(h.taken, ToTheSink) + if fate.ForSending? then [m] else [];
    assert TakenTo(h.taken, ToTheSink) + [] == TakenTo(h.taken, ToTheSink);
    assert reported + [] == reported;
  }

  lemma TurnBooks(h: HandlerState, now: nat, answer: SinkAnswer, accepted: seq<RpcOut>, reported: seq<RpcOut>)
    requires Books(h, accepted, reported)
    ensures var (h', turn) := OutboundTurn(h, now, answer);
            Books(h', accepted, reported + if turn.Report? then [turn.rpc] else [])
  {
    hide SendQueue.Valid, TakenTo, InOrder, PollNext, HeadOf, Resolved, PollNext;
    var (h', turn) := OutboundTurn(h, now, answer);
    assert reported + [] == reported;
    match h.outbound
    case WaitingOutput(stream) =>
      NextIsHead(h.queue);
      var (q, polled) := PollNext(h.queue);
      if polled.Ready? {
        var m := polled.value.value;
        if m.TimedOut(now) {
          TakeBooks(h, q, m, Expired(now), accepted, reported, h.outbound);
        } else {
          TakeBooks(h, q, m, ForSending(now), accepted, reported, PendingSend(stream, m));
        }
      }
    case PendingSend(stream, m) =>
      ResolvedAppend(h.outcomes, Given(m));
      ResolvedAppend(h.outcomes, Outcome.Lost(m));
      assert Resolved(h.outcomes) + [m] + [] == Resolved(h.outcomes) + [m];
    case _ =>
  }

  lemma {:induction false} LoopBooks(h: HandlerState, now: nat, answers: seq<SinkAnswer>, accepted: seq<RpcOut>,
                                     reported: seq<RpcOut>)
    requires Books(h, accepted, reported)
    ensures var (h', turn) := OutboundLoop(h, now, answers);
            && turn != Again
            && Books(h', accepted, reported + if turn.Report? then [turn.rpc] else [])
    decreases Work(h)
  {
    hide OutboundTurn, Books, Work;
    var (h', turn) := OutboundTurn(h, now, NextAnswer(answers));
    TurnBooks(h, now, NextAnswer(answers), accepted, reported);
    if turn == Again {
      assert reported + [] == reported;
      AgainWorks(h, now, answers);
      LoopBooks(h', now, AnswersLeft(h, answers), accepted, reported);
    }
  }

  /** A poll changes these fields only as told. */
  lemma {:induction false} LoopFrame(h: HandlerState, now: nat, answers: seq<SinkAnswer>)
    ensures var h' := OutboundLoop(h, now, answers).0;
            h' == h.(outbound := h'.outbound, queue := h'.queue, taken := h'.taken, outcomes := h'.outcomes,
                     said := h'.said)
    decreases Work(h)
  {
    hide Work;
    var (h', turn) := OutboundTurn(h, now, NextAnswer(answers));
    AgainWorks(h, now, answers);
    if turn == Again {
      LoopFrame(h', now, AnswersLeft(h, answers));
    }
  }

  lemma InboundNeverPoisoned(inbound: Inbound, answers: seq<SourceAnswer>)
    requires inbound != InboundPoisoned
    ensures InboundLoop(inbound, answers).0 != InboundPoisoned
  {}

  /** Books do not see what only peeks, nor the inbound side. */
  lemma SameBooks(h: HandlerState, h': HandlerState, accepted: seq<RpcOut>, reported: seq<RpcOut>)
    requires Books(h, accepted, reported) && Sound(h')
    requires h'.queue.closed == h.queue.closed && h'.queue.priority == h.queue.priority
    requires h'.queue.nonPriority == h.queue.nonPriority
    requires h'.taken == h.taken && h'.outcomes == h.outcomes && h'.outbound == h.outbound
    ensures Books(h', accepted, reported)
  {
    hide Sound;
  }

  lemma StaleBooks(h: HandlerState, now: nat, accepted: seq<RpcOut>, reported: seq<RpcOut>)
    requires Books(h, accepted, reported)
    ensures var (h', polled) := DropOneStale(h, now);
            && Books(h', accepted, reported + if polled.Dropped? then [polled.message] else [])
            && h' == h.(queue := h'.queue, taken := h'.taken) && polled != SubstreamRequest
  {
    hide SendQueue.Valid, TakenTo, InOrder, PollStale, HeadOf, Resolved;
    StaleIsHead(h.queue, now);
    var (q, polled) := PollStale(h.queue, now);
    if polled.Ready? && polled.value.Some? {
      TakeBooks(h, q, polled.value.value, Stale(now), accepted, reported, h.outbound);
    } else {
      SameBooks(h, h.(queue := q), accepted, reported);
      assert reported + [] == reported;
    }
  }

  lemma PollBooks(h: HandlerState, now: nat, sink: seq<SinkAnswer>, source: seq<SourceAnswer>, accepted: seq<RpcOut>,
                  reported: seq<RpcOut>)
    requires Books(h, accepted, reported)
    ensures var (h', polled) := PollHandler(h, now, sink, source);
            && Books(h', accepted, reported + if polled.Dropped? then [polled.message] else [])
            && h'.status == h.status && h'.outboundAttempts == h.outboundAttempts
            && h'.inboundAttempts == h.inboundAttempts
            && h'.establishing == (h.establishing || polled.SubstreamRequest?)
            && (polled.SubstreamRequest? ==> h.status == Enabled && !h.establishing && h.outbound.NoOutbound?)
  {
    hide Books, OutboundLoop, InboundLoop, DropOneStale, SendQueue.Valid;
    assert reported + [] == reported;
    if h.status == Enabled {
      var (q, empty) := PollIsEmpty(h.queue);
      var h1 := h.(queue := q);
      PeekBooks(h, accepted, reported);
      if !empty && h.outbound.NoOutbound? && !h.establishing {
        SameBooks(h1, h1.(establishing := true), accepted, reported) by { BooksSound(h1, accepted, reported); }
      } else {
        LoopBooks(h1, now, sink, accepted, reported);
        LoopFrame(h1, now, sink);
        var (h2, turn) := OutboundLoop(h1, now, sink);
        if !turn.Report? {
          BooksSound(h2, accepted, reported);
          InboundNeverPoisoned(h2.inbound, source);
          var (inbound, _, heard) := InboundLoop(h2.inbound, source);
          var h3 := h2.(inbound := inbound, heard := h2.heard + heard);
          SameBooks(h2, h3, accepted, reported);
          StaleBooks(h3, now, accepted, reported);
        }
      }
    }
  }

  lemma BooksSound(h: HandlerState, accepted: seq<RpcOut>, reported: seq<RpcOut>)
    requires Books(h, accepted, reported)
    ensures Sound(h)
  {
    hide Sound;
  }

  lemma PeekBooks(h: HandlerState, accepted: seq<RpcOut>, reported: seq<RpcOut>)
    requires Books(h, accepted, reported)
    ensures Books(h.(queue := PollIsEmpty(h.queue).0), accepted, reported)
  {
    hide InOrder, TakenTo, Resolved, InTurn;
    PeekValid(h.queue);
    SameBooks(h, h.(queue := PollIsEmpty(h.queue).0), accepted, reported);
  }

  /** A message that is accepted goes to the end of its channel. */
  lemma SendInOrder(taken: seq<Taken>, q: SendQueue, rpc: RpcOut, accepted: seq<RpcOut>, b: bool)
    requires InOrder(taken, q, accepted, b)
    ensures var (q', ok) := TrySend(q, rpc); InOrder(taken, q', accepted + (if ok then [rpc] else []), b)
  {
    hide Messages, OfChannel;
    var (q', ok) := TrySend(q, rpc);
    OfChannelAppend(accepted, rpc, b);
    var left := OfChannel(Messages(taken), b);
    if ok && rpc.IsPriority() == b {
      assert Channel(q', b) == Channel(q, b) + [rpc];
      assert left + (Channel(q, b) + [rpc]) == left + Channel(q, b) + [rpc];
    } else {
      assert Channel(q', b) == Channel(q, b);
      assert accepted + [] == accepted;
      assert OfChannel(accepted, b) + [] == OfChannel(accepted, b);
    }
  }

  lemma SendBooks(h: HandlerState, rpc: RpcOut, accepted: seq<RpcOut>, reported: seq<RpcOut>)
    requires Books(h, accepted, reported)
    ensures var (q, ok) := TrySend(h.queue, rpc);
            && Books(h.(queue := q), accepted + (if ok then [rpc] else []), reported)
            && (rpc.IsControl() ==> ok)
  {
    hide SendQueue.Valid, TakenTo, Resolved, InOrder;
    TrySendValid(h.queue, rpc);
    var (q, ok) := TrySend(h.queue, rpc);
    SendInOrder(h.taken, h.queue, rpc, accepted, true);
    SendInOrder(h.taken, h.queue, rpc, accepted, false);
  }

  /** A peeked head goes with the handler. */
  lemma HeadBooks(h: HandlerState, priority: bool, accepted: seq<RpcOut>, reported: seq<RpcOut>)
    requires Books(h, accepted, reported) && if priority then h.queue.priorityPeeked else h.queue.forwardPeeked
    ensures Books(Take(h, DropHead(h.queue, priority), Channel(h.queue, priority)[0], WithHandler), accepted, reported)
  {
    hide TakenTo, Resolved, InOrder, InTurn, PublishCount;
    var q := DropHead(h.queue, priority);
    DropHeadValid(h.queue, priority);
    HeadIsHead(h.queue, priority);
    TakeBooks(h, q, Channel(h.queue, priority)[0], WithHandler, accepted, reported, h.outbound);
    assert reported + [] == reported;
  }

  lemma HeadIsHead(q: SendQueue, priority: bool)
    requires q.Valid() && if priority then q.priorityPeeked else q.forwardPeeked
    ensures HeadOf(q, DropHead(q, priority), Channel(q, priority)[0])
  {
    assert Channel(q, priority)[0] in Channel(q, priority);
  }

  /** Dropping the receiver, told head by head. */
  lemma ReceiverBooks(h: HandlerState, accepted: seq<RpcOut>, reported: seq<RpcOut>)
    requires Books(h, accepted, reported)
    ensures Books(h.(queue := ReceiverGone(h.queue), taken := h.taken + HeadsTaken(h.queue)), accepted, reported)
  {
    hide Books, PublishCount;
    BooksSound(h, accepted, reported);
    SoundMeans(h);
    ReceiverGoneDropsHeads(h.queue);
    var h1 := if h.queue.priorityPeeked then Take(h, DropHead(h.queue, true), h.queue.priority[0], WithHandler) else h;
    if h.queue.priorityPeeked {
      HeadBooks(h, true, accepted, reported);
    }
    if h.queue.forwardPeeked {
      HeadBooks(h1, false, accepted, reported);
    }
    var last := if h.queue.forwardPeeked then Take(h1, DropHead(h1.queue, false), h1.queue.nonPriority[0], WithHandler)
        else h1;
    assert last.taken == h.taken + HeadsTaken(h.queue);
  }

  lemma DisableBooks(h: HandlerState, status: Status, accepted: seq<RpcOut>, reported: seq<RpcOut>)
    requires Books(h, accepted, reported) && status != Enabled
    ensures Books(Disable(h, status), accepted, reported)
  {
    hide SendQueue.Valid, TakenTo, Resolved, InOrder, InTurn, ReceiverGone, HeadsTaken;
    ReceiverBooks(h, accepted, reported);
    if h.outbound.PendingSend? {
      ResolvedAppend(h.outcomes, Abandoned(h.outbound.rpc));
    }
    assert Resolved(h.outcomes) + [] == Resolved(h.outcomes);
    assert h.outcomes + [] == h.outcomes;
  }

  lemma EventBooks(h: HandlerState, event: ConnectionEvent, accepted: seq<RpcOut>, reported: seq<RpcOut>)
    requires Books(h, accepted, reported) && (event.IsOutbound() && h.status == Enabled ==> h.establishing)
    ensures Books(OnEvent(h, event), accepted, reported)
  {
    hide SendQueue.Valid, TakenTo, Resolved, InOrder, InTurn, Disable;
    if h.status == Enabled {
      var h1 := if event.IsInbound() then h.(inboundAttempts := h.inboundAttempts + 1) else h;
      var h2 := if event.IsOutbound() then h1.(establishing := false, outboundAttempts := h1.outboundAttempts + 1)
          else h1;
      DisableBooks(h1, MaxSubstreamAttempts, accepted, reported);
      DisableBooks(h2, MaxSubstreamAttempts, accepted, reported);
      DisableBooks(h2, ProtocolUnsupported, accepted, reported);
    }
  }

  // ---- Substreams ----

  /** Every request made is one that was answered or is being established. */
  ghost predicate Asked(l: Life) {
    && l.requests <= MAX_SUBSTREAM_ATTEMPTS
    && (l.h.status == Enabled ==>
          && l.h.outboundAttempts < MAX_SUBSTREAM_ATTEMPTS && l.h.inboundAttempts < MAX_SUBSTREAM_ATTEMPTS
          && l.requests == l.h.outboundAttempts + if l.h.establishing then 1 else 0)
    && (l.h.status != Enabled ==> !l.h.establishing && l.h.outbound.NoOutbound? && l.h.inbound.NoInbound?)
  }

  ghost predicate Kept(l: Life) {
    Books(l.h, l.accepted, l.reported) && Asked(l)
  }

  lemma DoKept(l: Life, s: Step)
    requires Kept(l)
    ensures Kept(Do(l, s))
  {
    hide Books, PollHandler, TrySend;
    match s
    case Send(rpc) => SendBooks(l.h, rpc, l.accepted, l.reported);
    case PollAt(now, sink, source) =>
      PollBooks(l.h, now, sink, source, l.accepted, l.reported);
      DisabledPoll(l.h, now, sink, source);
    case Happen(event) =>
      if !(event.IsOutbound() && !l.h.establishing) {
        EventBooks(l.h, event, l.accepted, l.reported);
      }
  }

  lemma DisabledPoll(h: HandlerState, now: nat, sink: seq<SinkAnswer>, source: seq<SourceAnswer>)
    ensures h.status != Enabled ==> PollHandler(h, now, sink, source) == (h, Nothing)
  {}

  lemma {:induction false} RunKept(queueLen: nat, steps: seq<Step>)
    ensures Kept(Run(NewLife(queueLen), steps))
  {
    hide Kept, Do;
    if steps == [] {
      assert Kept(NewLife(queueLen)) by { NewKept(queueLen); }
    } else {
      RunKept(queueLen, steps[..|steps| - 1]);
      DoKept(Run(NewLife(queueLen), steps[..|steps| - 1]), steps[|steps| - 1]);
    }
  }

  lemma NewKept(queueLen: nat)
    ensures Kept(NewLife(queueLen))
  {}

  /** Over any life of a handler: nothing is poisoned between calls; a substream is being established
      only while there is none, so that the assertion in `on_fully_negotiated_outbound` holds; while
      the handler is enabled the requests it has made are its attempts and the one being
      established; and it never makes more than five. */
  lemma AtMostFiveRequests(queueLen: nat, steps: seq<Step>)
    ensures var l := Run(NewLife(queueLen), steps);
            && l.h.outbound != OutboundPoisoned && l.h.inbound != InboundPoisoned
            && (l.h.establishing ==> l.h.outbound.NoOutbound?)
            && (l.h.status == Enabled ==> l.requests == l.h.outboundAttempts + if l.h.establishing then 1 else 0)
            && l.requests <= 5
  {
    hide Run, TakenTo, InOrder, InTurn, Resolved, SendQueue.Valid;
    RunKept(queueLen, steps);
  }

  // ---- Conservation ----

  lemma {:induction false} ChannelsSplit(s: seq<RpcOut>)
    ensures multiset(OfChannel(s, true)) + multiset(OfChannel(s, false)) == multiset(s)
  {
    if s != [] {
      ChannelsSplit(s[..|s| - 1]);
      assert s == s[..|s| - 1] + [s[|s| - 1]];
    }
  }

  lemma {:induction false} TakenSplit(taken: seq<Taken>)
    ensures multiset(TakenTo(taken, ToTheSink)) + multiset(TakenTo(taken, ToTheReport))
              + multiset(TakenTo(taken, WithTheHandler))
            == multiset(Messages(taken))
  {
    if taken != [] {
      TakenSplit(taken[..|taken| - 1]);
    }
  }

  lemma {:induction false} ResolvedSplit(outcomes: seq<Outcome>)
    ensures multiset(ResolvedAs(outcomes, WasGiven)) + multiset(ResolvedAs(outcomes, WasLost))
            + multiset(ResolvedAs(outcomes, WasAbandoned)) == multiset(Resolved(outcomes))
  {
    if outcomes != [] {
      ResolvedSplit(outcomes[..|outcomes| - 1]);
    }
  }

  /** Queued, waiting to be sent, given to the sink, lost to a sink error, or reported as dropped. */
  function FiveClasses(l: Life): multiset<RpcOut> {
    multiset(l.h.queue.priority) + multiset(l.h.queue.nonPriority) + multiset(WaitingToBeSent(l.h))
    + multiset(ResolvedAs(l.h.outcomes, WasGiven)) + multiset(ResolvedAs(l.h.outcomes, WasLost)) + multiset(l.reported)
  }

  /** Every accepted message is exactly one of: queued, waiting to be sent, given to the sink, lost to a
      sink error, reported as dropped, or dropped with the handler when that was disabled. Each channel
      lets its messages go in the order it took them, and a Forward is taken to be sent only when no
      priority message is queued. */
  lemma NothingIsLostTrackOf(queueLen: nat, steps: seq<Step>)
    ensures var l := Run(NewLife(queueLen), steps);
            var h := l.h;
            && multiset(l.accepted) == FiveClasses(l) + multiset(GoneWithHandler(h))
            && (forall b :: OfChannel(Messages(h.taken), b) + Channel(h.queue, b) == OfChannel(l.accepted, b))
            && TakenTo(h.taken, ToTheSink) == Resolved(h.outcomes) + WaitingToBeSent(h)
            && TakenTo(h.taken, ToTheReport) == l.reported
            && InTurn(h.taken)
  {
    hide Run, TakenTo, OfChannel, Messages, Resolved, ResolvedAs, Sound, Asked, WaitingToBeSent, InTurn;
    RunKept(queueLen, steps);
    var l := Run(NewLife(queueLen), steps);
    var h := l.h;
    forall b: bool
      ensures OfChannel(Messages(h.taken), b) + Channel(h.queue, b) == OfChannel(l.accepted, b)
    {
      assert InOrder(h.taken, h.queue, l.accepted, b);
    }
    ChannelsSplit(l.accepted);
    ChannelsSplit(Messages(h.taken));
    TakenSplit(h.taken);
    ResolvedSplit(h.outcomes);
    assert InOrder(h.taken, h.queue, l.accepted, true) && InOrder(h.taken, h.queue, l.accepted, false);
    assert multiset(OfChannel(l.accepted, true)) ==
           multiset(OfChannel(Messages(h.taken), true)) + multiset(h.queue.priority);
    assert multiset(OfChannel(l.accepted, false)) ==
           multiset(OfChannel(Messages(h.taken), false)) + multiset(h.queue.nonPriority);
    assert multiset(TakenTo(h.taken, ToTheSink)) == multiset(Resolved(h.outcomes)) + multiset(WaitingToBeSent(h));
    Regroup(multiset(OfChannel(Messages(h.taken), true)), multiset(OfChannel(Messages(h.taken), false)),
            multiset(h.queue.priority), multiset(h.queue.nonPriority), multiset(l.reported),
                multiset(WaitingToBeSent(h)),
            multiset(ResolvedAs(h.outcomes, WasGiven)), multiset(ResolvedAs(h.outcomes, WasLost)),
            multiset(ResolvedAs(h.outcomes, WasAbandoned)), multiset(TakenTo(h.taken, WithTheHandler)));
  }

  lemma Regroup(mp: multiset<RpcOut>, mf: multiset<RpcOut>, p: multiset<RpcOut>, f: multiset<RpcOut>,
                r: multiset<RpcOut>,
                w: multiset<RpcOut>, g: multiset<RpcOut>, x: multiset<RpcOut>, a: multiset<RpcOut>, t: multiset<RpcOut>)
    requires mp + mf == (((g + x + a) + w) + r) + t
    ensures (mp + p) + (mf + f) == (p + f + w + g + x + r) + (t + a)
  {
    forall m
      ensures ((mp + p) + (mf + f))[m] == ((p + f + w + g + x + r) + (t + a))[m]
    {
      assert (mp + mf)[m] == ((((g + x + a) + w) + r) + t)[m];
    }
  }

  // ---- What goes with the handler ----

  /** The event disables the handler: one attempt too many, or a peer that does not speak the protocol. */
  predicate Disables(h: HandlerState, event: ConnectionEvent) {
    && h.status == Enabled
    && ((event.IsInbound() && h.inboundAttempts + 1 == MAX_SUBSTREAM_ATTEMPTS)
        || (event.IsOutbound() && h.outboundAttempts + 1 == MAX_SUBSTREAM_ATTEMPTS)
        || event.DialNegotiationFailed?)
  }

  /** The handler has peeked at a message, or one is waiting to be sent. */
  predicate Burdened(h: HandlerState) {
    h.queue.priorityPeeked || h.queue.forwardPeeked || h.outbound.PendingSend?
  }

  /** The step disables a handler that holds a message. */
  predicate DropsMessages(l: Life, s: Step) {
    s.Happen? && (s.event.IsOutbound() ==> l.h.establishing) && Disables(l.h, s.event) && Burdened(l.h)
  }

  lemma {:induction false} TakenConcat(a: seq<Taken>, b: seq<Taken>, way: Way)
    ensures TakenTo(a + b, way) == TakenTo(a, way) + TakenTo(b, way)
  {
    if b == [] {
      assert a + b == a;
    } else {
      var k := |b| - 1;
      TakenConcat(a, b[..k], way);
      assert (a + b)[..|a + b| - 1] == a + b[..k];
    }
  }

  lemma HeadsGo(q: SendQueue)
    requires q.Valid()
    ensures TakenTo(HeadsTaken(q), WithTheHandler) == PeekedHeads(q)
  {
    var a := if q.priorityPeeked then [Taken(q.priority[0], WithHandler, |q.priority|)] else [];
    var b := if q.forwardPeeked then [Taken(q.nonPriority[0], WithHandler, |ReceiverGone(q).priority|)] else [];
    assert HeadsTaken(q) == a + b;
    TakenConcat(a, b, WithTheHandler);
    if q.priorityPeeked {
      assert a[..0] == [];
    }
    if q.forwardPeeked {
      assert b[..0] == [];
    }
  }

  lemma AbandonedAppend(s: seq<Outcome>, o: Outcome)
    ensures ResolvedAs(s + [o], WasAbandoned) == ResolvedAs(s, WasAbandoned) + if o.Abandoned? then [o.rpc] else []
  {
    assert (s + [o])[..|s|] == s;
  }

  /** Disabling takes along exactly the peeked heads and the message waiting to be sent. */
  lemma DisableTakes(h: HandlerState, status: Status)
    requires Sound(h)
    ensures |GoneWithHandler(Disable(h, status))| ==
              |GoneWithHandler(h)| + |PeekedHeads(h.queue)| + |WaitingToBeSent(h)|
  {
    hide SendQueue.Valid, TakenTo, ResolvedAs, HeadsTaken, PeekedHeads;
    SoundMeans(h);
    TakenConcat(h.taken, HeadsTaken(h.queue), WithTheHandler);
    HeadsGo(h.queue);
    if h.outbound.PendingSend? {
      AbandonedAppend(h.outcomes, Abandoned(h.outbound.rpc));
    } else {
      assert h.outcomes + [] == h.outcomes;
    }
  }

  lemma BurdenedMeans(h: HandlerState)
    requires Sound(h)
    ensures |PeekedHeads(h.queue)| + |WaitingToBeSent(h)| > 0 <==> Burdened(h)
  {
    hide PublishCount;
  }

  /** Only a step that disables a burdened handler makes anything go with it. */
  ghost predicate GoneGrows(l: Life, s: Step) {
    && |GoneWithHandler(Do(l, s).h)| >= |GoneWithHandler(l.h)|
    && (|GoneWithHandler(Do(l, s).h)| > |GoneWithHandler(l.h)| <==> DropsMessages(l, s))
  }

  lemma EventGone(l: Life, event: ConnectionEvent)
    requires Sound(l.h)
    ensures GoneGrows(l, Happen(event))
  {
    hide SendQueue.Valid, TakenTo, ResolvedAs, Disable, PeekedHeads, WaitingToBeSent, Burdened;
    var h := l.h;
    if h.status == Enabled && (event.IsOutbound() ==> h.establishing) {
      var h1 := if event.IsInbound() then h.(inboundAttempts := h.inboundAttempts + 1) else h;
      var h2 := if event.IsOutbound() then h1.(establishing := false, outboundAttempts := h1.outboundAttempts + 1)
          else h1;
      SameBurden(h, h1);
      SameBurden(h, h2);
      DisableTakes(h1, MaxSubstreamAttempts);
      DisableTakes(h2, MaxSubstreamAttempts);
      DisableTakes(h2, ProtocolUnsupported);
      BurdenedMeans(h);
    }
  }

  lemma SameBurden(h: HandlerState, h': HandlerState)
    requires Sound(h)
    requires h' == h.(inboundAttempts := h'.inboundAttempts, outboundAttempts := h'.outboundAttempts,
                      establishing := h'.establishing)
    requires h'.establishing ==> h.establishing
    ensures Sound(h') && PeekedHeads(h'.queue) == PeekedHeads(h.queue) && WaitingToBeSent(h') == WaitingToBeSent(h)
    ensures GoneWithHandler(h') == GoneWithHandler(h)
  {
    hide SendQueue.Valid;
  }

  lemma TurnGone(h: HandlerState, now: nat, answer: SinkAnswer)
    ensures GoneWithHandler(OutboundTurn(h, now, answer).0) == GoneWithHandler(h)
  {
    hide PollNext, GoneWithHandler;
    var h' := OutboundTurn(h, now, answer).0;
    match h.outbound
    case WaitingOutput(_) =>
      var polled := PollNext(h.queue).1;
      if polled.Ready? && polled.value.Some? {
        var m := polled.value.value;
        SameGone(h, h', [Taken(m, if m.TimedOut(now) then Expired(now) else ForSending(now), |h.queue.priority|)], []);
      } else {
        SameGone(h, h', [], []);
      }
    case PendingSend(_, m) =>
      SameGone(h, h', [], if answer == Done then [Given(m)] else if answer == Failed then [Lost(m)] else []);
    case _ =>
      SameGone(h, h', [], []);
  }

  lemma SameGone(h: HandlerState, h': HandlerState, taken: seq<Taken>, outcomes: seq<Outcome>)
    requires h'.taken == h.taken + taken && h'.outcomes == h.outcomes + outcomes && |taken| <= 1 && |outcomes| <= 1
    requires (forall x :: x in taken ==> x.fate != WithHandler) && (forall o :: o in outcomes ==> !o.Abandoned?)
    ensures GoneWithHandler(h') == GoneWithHandler(h)
  {
    hide TakenTo, ResolvedAs;
    if taken != [] {
      TakenAppend(h.taken, taken[0], WithTheHandler);
      assert taken == [taken[0]];
    } else {
      assert h.taken + taken == h.taken;
    }
    if outcomes != [] {
      AbandonedAppend(h.outcomes, outcomes[0]);
      assert outcomes == [outcomes[0]];
    } else {
      assert h.outcomes + outcomes == h.outcomes;
    }
  }

  lemma {:induction false} LoopGone(h: HandlerState, now: nat, answers: seq<SinkAnswer>)
    ensures GoneWithHandler(OutboundLoop(h, now, answers).0) == GoneWithHandler(h)
    decreases Work(h)
  {
    hide OutboundTurn, GoneWithHandler, Work;
    var (h', turn) := OutboundTurn(h, now, NextAnswer(answers));
    TurnGone(h, now, NextAnswer(answers));
    if turn == Again {
      AgainWorks(h, now, answers);
      LoopGone(h', now, AnswersLeft(h, answers));
    }
  }

  lemma StaleGone(h: HandlerState, now: nat)
    ensures GoneWithHandler(DropOneStale(h, now).0) == GoneWithHandler(h)
  {
    hide PollStale;
    var (q, polled) := PollStale(h.queue, now);
    if polled.Ready? && polled.value.Some? {
      TakenAppend(h.taken, Taken(polled.value.value, Stale(now), |h.queue.priority|), WithTheHandler);
    }
  }

  lemma PollGone(h: HandlerState, now: nat, sink: seq<SinkAnswer>, source: seq<SourceAnswer>)
    ensures GoneWithHandler(PollHandler(h, now, sink, source).0) == GoneWithHandler(h)
  {
    hide OutboundLoop, InboundLoop, DropOneStale, PollStale, TakenTo, ResolvedAs;
    var h1 := h.(queue := PollIsEmpty(h.queue).0);
    LoopGone(h1, now, sink);
    var h2 := OutboundLoop(h1, now, sink).0;
    var (inbound, _, heard) := InboundLoop(h2.inbound, source);
    StaleGone(h2.(inbound := inbound, heard := h2.heard + heard), now);
  }

  lemma StepGone(l: Life, s: Step)
    requires Sound(l.h)
    ensures GoneGrows(l, s)
  {
    hide Sound, PollHandler, TrySend, TakenTo, ResolvedAs, OnEvent, Disables, Burdened;
    match s
    case Send(_) =>
    case PollAt(now, sink, source) => PollGone(l.h, now, sink, source);
    case Happen(event) => EventGone(l, event);
  }

  /** Step `i` of the run disables a handler that holds a message. */
  ghost predicate DropsAt(queueLen: nat, steps: seq<Step>, i: nat) {
    i < |steps| && DropsMessages(Run(NewLife(queueLen), steps[..i]), steps[i])
  }

  lemma {:induction false} GoneIffDropped(queueLen: nat, steps: seq<Step>)
    ensures GoneWithHandler(Run(NewLife(queueLen), steps).h) == [] <==> forall i: nat :: !DropsAt(queueLen, steps, i)
  {
    hide Do, DropsMessages, GoneWithHandler;
    if steps == [] {
      NothingGone(queueLen);
    } else {
      var k := |steps| - 1;
      var before := Run(NewLife(queueLen), steps[..k]);
      GoneIffDropped(queueLen, steps[..k]);
      RunKept(queueLen, steps[..k]);
      KeptSound(before);
      StepGone(before, steps[k]);
      forall i: nat
        ensures i < k ==> (DropsAt(queueLen, steps, i) <==> DropsAt(queueLen, steps[..k], i))
      {
        if i < k {
          assert steps[..k][..i] == steps[..i];
        }
      }
      assert DropsAt(queueLen, steps, k) <==> DropsMessages(before, steps[k]);
      if i: nat :| DropsAt(queueLen, steps[..k], i) {
        assert DropsAt(queueLen, steps, i);
      }
    }
  }

  lemma NothingGone(queueLen: nat)
    ensures GoneWithHandler(NewLife(queueLen).h) == []
  {}

  lemma KeptSound(l: Life)
    requires Kept(l)
    ensures Sound(l.h)
  {
    hide Sound;
  }

  /** Over any life of a handler, every accepted message is queued, waiting, given, lost to a sink error
      or reported, if and only if the handler was never disabled while it had peeked at a message or
      had one waiting. */
  lemma FiveClassesIff(queueLen: nat, steps: seq<Step>)
    ensures var l := Run(NewLife(queueLen), steps);
            multiset(l.accepted) == FiveClasses(l) <==> forall i: nat :: !DropsAt(queueLen, steps, i)
  {
    hide Run, FiveClasses, GoneWithHandler, DropsAt;
    NothingIsLostTrackOf(queueLen, steps);
    GoneIffDropped(queueLen, steps);
    var l := Run(NewLife(queueLen), steps);
    var gone := GoneWithHandler(l.h);
    if gone != [] {
      assert gone[0] in multiset(gone);
      assert multiset(l.accepted)[gone[0]] > FiveClasses(l)[gone[0]];
    } else {
      assert FiveClasses(l) + multiset([]) == FiveClasses(l);
    }
  }

  lemma RunNothing(l: Life)
    ensures Run(l, []) == l
  {}

  lemma RunAppend(l: Life, steps: seq<Step>, s: Step)
    ensures Run(l, steps + [s]) == Do(Run(l, steps), s)
  {
    assert (steps + [s])[..|steps|] == steps;
  }

  /** A control message that was accepted and only peeked at vanishes when the peer turns out not to
      speak the protocol. */
  lemma PeekedMessageVanishes(id: TxId)
    ensures var l := Run(NewLife(2), [Send(HaveTx(id)), PollAt(0, [], []), Happen(DialNegotiationFailed)]);
            l.accepted == [HaveTx(id)] && FiveClasses(l) == multiset{} && GoneWithHandler(l.h) == [HaveTx(id)]
  {
    hide Run, Do, NewLife, FiveClasses, GoneWithHandler;
    var l, s1, s2, s3 := NewLife(2), Send(HaveTx(id)), PollAt(0, [], []), Happen(DialNegotiationFailed);
    assert Run(l, []) == l by { RunNothing(l); }
    RunAppend(l, [], s1);
    RunAppend(l, [s1], s2);
    RunAppend(l, [s1, s2], s3);
    assert [] + [s1] == [s1] && [s1] + [s2] == [s1, s2] && [s1, s2] + [s3] == [s1, s2, s3];
    PeekedThenDisabled(id);
    OnlyGone(Do(Do(Do(l, s1), s2), s3), HaveTx(id));
  }

  lemma OnlyGone(l: Life, m: RpcOut)
    requires l.h.taken == [Taken(m, WithHandler, 1)] && l.h.outcomes == [] && l.reported == []
    requires l.h.queue.priority == [] && l.h.queue.nonPriority == [] && l.h.outbound == NoOutbound
    ensures FiveClasses(l) == multiset{} && GoneWithHandler(l.h) == [m]
  {
    assert [Taken(m, WithHandler, 1)][..0] == [];
    assert TakenTo([Taken(m, WithHandler, 1)], WithTheHandler) == [m];
  }

  lemma PeekedThenDisabled(id: TxId)
    ensures var l := Do(Do(Do(NewLife(2), Send(HaveTx(id))), PollAt(0, [], [])), Happen(DialNegotiationFailed));
            && l.h.taken == [Taken(HaveTx(id), WithHandler, 1)] && l.h.outcomes == [] && l.accepted == [HaveTx(id)]
            && l.h.queue.priority == [] && l.h.queue.nonPriority == [] && l.h.outbound == NoOutbound && l.reported == []
  {
    hide OutboundLoop, InboundLoop, DropOneStale;
    var l1 := Do(NewLife(2), Send(HaveTx(id)));
    assert l1.h.queue.priority == [HaveTx(id)] && l1.h.queue.nonPriority == [];
    var l2 := Do(l1, PollAt(0, [], []));
    assert l2.h.queue.priorityPeeked && l2.h.establishing;
  }

  /** HaveTx and ResetRoute are never refused while the peer is connected. */
  lemma ControlNeverRefused(queueLen: nat, steps: seq<Step>, rpc: RpcOut)
    requires rpc.IsControl()
    ensures Run(NewLife(queueLen), steps + [Send(rpc)]).accepted == Run(NewLife(queueLen), steps).accepted + [rpc]
  {
    hide Books;
    RunKept(queueLen, steps);
    assert (steps + [Send(rpc)])[..|steps|] == steps;
    var l := Run(NewLife(queueLen), steps);
    SendBooks(l.h, rpc, l.accepted, l.reported);
  }
}

/** The connection handler of handler.rs: a state machine that is resumed by `poll` and told about
    substreams by connection events. Streams are abstract: what a sink or a source answers is a
    parameter, and once the answers given are used up it is "not yet". No message is enqueued in
    the middle of a poll. */
module Handlers {
  import opened Types
  import opened SendQueues

  const MAX_SUBSTREAM_ATTEMPTS := 5

  datatype Stream = Stream(id: nat)

  /** `Poisoned` stands in the field while a turn of the loop owns the state. */
  datatype Outbound =
    | NoOutbound
    | WaitingOutput(stream: Stream)
    | PendingSend(stream: Stream, rpc: RpcOut)
    | PendingFlush(stream: Stream)
    | OutboundPoisoned

  datatype Inbound =
    | NoInbound
    | WaitingInput(stream: Stream)
    | Closing(stream: Stream)
    | InboundPoisoned

  datatype Status = Enabled | ProtocolUnsupported | MaxSubstreamAttempts

  datatype SinkAnswer = Done | Failed | NotYet
  datatype SourceAnswer = Got(rpc: Rpc) | Broken | Ended | Closed | Waiting

  datatype Polled = Nothing | SubstreamRequest | Received(rpc: Rpc) | Dropped(message: RpcOut)

  /** Why a message left the queue, and when `poll` took it; and how many priority messages were queued at
      that moment. */
  datatype Fate = ForSending(at: nat) | Expired(at: nat) | Stale(at: nat) | WithHandler
  datatype Taken = Taken(rpc: RpcOut, fate: Fate, priorityQueued: nat)

  /** What became of a message taken for sending: given to the sink, lost to a sink error, or dropped
      with the handler. */
  datatype Outcome = Given(rpc: RpcOut) | Lost(rpc: RpcOut) | Abandoned(rpc: RpcOut)

  /** What happened to the two substreams: they open, take messages up, hear from sink or source, are asked
      to close, and are dropped with the handler. */
  datatype OutEntry = OutOpened(stream: Stream) | TookUp(rpc: RpcOut) | SinkSaid(answer: SinkAnswer) | OutShut
  datatype InEntry = InOpened(stream: Stream) | Read(answer: SourceAnswer) | AskedToClose(done: bool) | InShut

  /** `taken`, `outcomes`, `said` and `heard` are history that no step reads. */
  datatype HandlerState = HandlerState(
    status: Status,
    outbound: Outbound,
    inbound: Inbound,
    queue: SendQueue,
    establishing: bool,
    outboundAttempts: nat,
    inboundAttempts: nat,
    taken: seq<Taken>,
    outcomes: seq<Outcome>,
    said: seq<OutEntry>,
    heard: seq<InEntry>)

  function NewHandler(queue: SendQueue): HandlerState {
    HandlerState(Enabled, NoOutbound, NoInbound, queue, false, 0, 0, [], [], [], [])
  }

  // ---- poll ----

  /** How a turn of the outbound loop ends: once more, leave the loop, or leave `poll` with a report. */
  datatype Turn = Again | Stop | Report(rpc: RpcOut)

  function Take(h: HandlerState, queue: SendQueue, rpc: RpcOut, fate: Fate): HandlerState {
    h.(queue := queue, taken := h.taken + [Taken(rpc, fate, |h.queue.priority|)])
  }

  function OutboundTurn(h: HandlerState, now: nat, answer: SinkAnswer): (HandlerState, Turn) {
    match h.outbound
    case WaitingOutput(stream) =>
      var (q, polled) := PollNext(h.queue);
      (match polled
       case Ready(Some(m)) =>
         if m.TimedOut(now) then (Take(h, q, m, Expired(now)), Report(m))
         else
           (Take(h, q, m, ForSending(now)).(outbound := PendingSend(stream, m), said := h.said + [TookUp(m)]), Again)
       case _ => (h.(queue := q), Stop))
    case PendingSend(stream, m) =>
      var h1 := h.(said := h.said + [SinkSaid(answer)]);
      (match answer
       case Done => (h1.(outbound := PendingFlush(stream), outcomes := h.outcomes + [Given(m)]), Again)
       case Failed => (h1.(outbound := NoOutbound, outcomes := h.outcomes + [Lost(m)]), Stop)
       case NotYet => (h1, Stop))
    case PendingFlush(stream) =>
      var h1 := h.(said := h.said + [SinkSaid(answer)]);
      (match answer
       case Done => (h1.(outbound := WaitingOutput(stream)), Again)
       case Failed => (h1.(outbound := NoOutbound), Stop)
       case NotYet => (h1, Stop))
    case _ => (h, Stop)
  }

  function NextAnswer(answers: seq<SinkAnswer>): SinkAnswer {
    if answers == [] then NotYet else answers[0]
  }

  /** Only a turn that asks the sink uses up an answer. */
  function AnswersLeft(h: HandlerState, answers: seq<SinkAnswer>): seq<SinkAnswer> {
    if (h.outbound.PendingSend? || h.outbound.PendingFlush?) && answers != [] then answers[1..] else answers
  }

  /** Every turn that goes on makes this smaller, so that the loop ends. */
  function Work(h: HandlerState): nat {
    3 * (|h.queue.priority| + |h.queue.nonPriority|)
    + if h.outbound.PendingSend? then 2 else if h.outbound.PendingFlush? then 1 else 0
  }

  function OutboundLoop(h: HandlerState, now: nat, answers: seq<SinkAnswer>): (HandlerState, Turn)
    decreases Work(h)
  {
    var (h', turn) := OutboundTurn(h, now, NextAnswer(answers));
    if turn == Again then OutboundLoop(h', now, AnswersLeft(h, answers)) else (h', turn)
  }

  function NextReading(answers: seq<SourceAnswer>): SourceAnswer {
    if answers == [] then Waiting else answers[0]
  }

  /** The inbound substream afterwards, what was decoded, and what the source was heard to say. */
  function InboundLoop(inbound: Inbound, answers: seq<SourceAnswer>): (Inbound, Option<Rpc>, seq<InEntry>)
    decreases if inbound.WaitingInput? then 1 else 0
  {
    var answer := NextReading(answers);
    match inbound
    case WaitingInput(stream) =>
      (match answer
       case Got(rpc) => (inbound, Some(rpc), [Read(answer)])
       case Waiting => (inbound, None, [Read(answer)])
       case Closed => (inbound, None, [Read(answer)])
       case _ =>
         var (inbound', got, heard) := InboundLoop(Closing(stream), answers[1..]);
         (inbound', got, [Read(answer)] + heard))
    case Closing(_) => (if answer == Closed then NoInbound else inbound, None, [AskedToClose(answer == Closed)])
    case _ => (inbound, None, [])
  }

  /** The last step of `poll`: drop one message whose time is up. */
  function DropOneStale(h: HandlerState, now: nat): (HandlerState, Polled) {
    var (q, polled) := PollStale(h.queue, now);
    match polled
    case Ready(Some(m)) => (Take(h, q, m, Stale(now)), Dropped(m))
    case _ => (h.(queue := q), Nothing)
  }

  function PollHandler(h: HandlerState, now: nat, sink: seq<SinkAnswer>,
                       source: seq<SourceAnswer>): (HandlerState, Polled) {
    if h.status != Enabled then (h, Nothing)
    else
      var (q, empty) := PollIsEmpty(h.queue);
      var h1 := h.(queue := q);
      if !empty && h.outbound.NoOutbound? && !h.establishing then (h1.(establishing := true), SubstreamRequest)
      else
        var (h2, turn) := OutboundLoop(h1, now, sink);
        if turn.Report? then (h2, Dropped(turn.rpc))
        else
          var (inbound, got, heard) := InboundLoop(h2.inbound, source);
          var h3 := h2.(inbound := inbound, heard := h2.heard + heard);
          if got.Some? then (h3, Received(got.value)) else DropOneStale(h3, now)
  }

  // ---- Connection events ----

  datatype ConnectionEvent =
    | FullyNegotiatedInbound(stream: Stream)
    | FullyNegotiatedOutbound(stream: Stream)
    | DialTimeout
    | DialNegotiationFailed
    | DialIo
    | ListenUpgradeError
    | OtherEvent
  {
    predicate IsInbound() { FullyNegotiatedInbound? || ListenUpgradeError? }

    predicate IsOutbound() { FullyNegotiatedOutbound? || DialTimeout? || DialNegotiationFailed? || DialIo? }
  }

  /** The peeked heads, booked as gone with the handler. */
  function HeadsTaken(q: SendQueue): seq<Taken> {
    (if q.priorityPeeked && q.priority != [] then [Taken(q.priority[0], WithHandler, |q.priority|)] else [])
    + (if q.forwardPeeked && q.nonPriority != [] then [Taken(q.nonPriority[0], WithHandler, |ReceiverGone(q).priority|)]
       else [])
  }

  /** A handler that is disabled drops its substreams and its receiver, and with them a message
      waiting to be sent and what has been peeked. */
  function Disable(h: HandlerState, status: Status): HandlerState {
    h.(status := status, outbound := NoOutbound, inbound := NoInbound, establishing := false,
       queue := ReceiverGone(h.queue),
       taken := h.taken + HeadsTaken(h.queue),
       outcomes := h.outcomes + (if h.outbound.PendingSend? then [Abandoned(h.outbound.rpc)] else []),
       said := h.said + [OutShut], heard := h.heard + [InShut])
  }

  function OnEvent(h: HandlerState, event: ConnectionEvent): HandlerState {
    if h.status != Enabled then h
    else
      var h1 := if event.IsInbound() then h.(inboundAttempts := h.inboundAttempts + 1) else h;
      if event.IsInbound() && h1.inboundAttempts == MAX_SUBSTREAM_ATTEMPTS then Disable(h1, MaxSubstreamAttempts)
      else
        var h2 := if event.IsOutbound() then h1.(establishing := false, outboundAttempts := h1.outboundAttempts + 1)
            else h1;
        if event.IsOutbound() && h2.outboundAttempts == MAX_SUBSTREAM_ATTEMPTS then Disable(h2, MaxSubstreamAttempts)
        else
          match event
          case FullyNegotiatedInbound(stream) =>
            h2.(inbound := WaitingInput(stream), heard := h.heard + [InOpened(stream)])
          case FullyNegotiatedOutbound(stream) =>
            h2.(outbound := WaitingOutput(stream), said := h.said + [OutOpened(stream)])
          case DialNegotiationFailed => Disable(h2, ProtocolUnsupported)
          case _ => h2
  }

  /** Between calls nothing is poisoned, and a substream is being established only while there is none. */
  ghost predicate Sound(h: HandlerState) {
    && h.outbound != OutboundPoisoned && h.inbound != InboundPoisoned
    && h.queue.Valid()
    && (h.status == Enabled && h.establishing ==> h.outbound.NoOutbound?)
  }

  lemma TurnSound(h: HandlerState, now: nat, answer: SinkAnswer)
    requires Sound(h)
    ensures Sound(OutboundTurn(h, now, answer).0)
  {
    hide SendQueue.Valid;
    PollNextValid(h.queue);
  }

  class EnabledOrDisabledHandler {
    var status: Status
    var outboundSubstream: Outbound
    var inboundSubstream: Inbound
    const sendQueue: SharedQueue
    var outboundSubstreamEstablishing: bool
    var outboundSubstreamAttempts: nat
    var inboundSubstreamAttempts: nat
    ghost var taken: seq<Taken>
    ghost var outcomes: seq<Outcome>
    ghost var said: seq<OutEntry>
    ghost var heard: seq<InEntry>

    ghost function State(): HandlerState
      reads this, sendQueue
    {
      HandlerState(status, outboundSubstream, inboundSubstream, sendQueue.State(), outboundSubstreamEstablishing,
                   outboundSubstreamAttempts, inboundSubstreamAttempts, taken, outcomes, said, heard)
    }

    constructor (sendQueue: SharedQueue)
      ensures State() == NewHandler(sendQueue.State()) && this.sendQueue == sendQueue
    {
      this.sendQueue := sendQueue;
      status, outboundSubstream, inboundSubstream := Enabled, NoOutbound, NoInbound;
      outboundSubstreamEstablishing, outboundSubstreamAttempts, inboundSubstreamAttempts := false, 0, 0;
      taken, outcomes, said, heard := [], [], [], [];
    }

    /** The outbound loop of `poll`. */
    method DriveOutbound(now: nat, sink: seq<SinkAnswer>) returns (report: Option<RpcOut>)
      requires Sound(State())
      modifies this`outboundSubstream, this`taken, this`outcomes, this`said, sendQueue
      ensures Sound(State())
      ensures var (h, turn) := OutboundLoop(old(State()), now, sink);
              State() == h && report == if turn.Report? then Some(turn.rpc) else None
    {
      hide Sound, PollNext, OutboundLoop, SendQueue.Valid, Work;
      var answers := sink;
      while true
        invariant Sound(State())
        invariant OutboundLoop(State(), now, answers) == OutboundLoop(old(State()), now, sink)
        decreases Work(State())
      {
        ghost var before := State();
        ghost var queued := |sendQueue.priority|;
        TurnSound(before, now, NextAnswer(answers));
        SoundMeans(before);
        LoopUnfolds(before, now, answers);
        AgainWorks(before, now, answers);
        var state := outboundSubstream;
        outboundSubstream := OutboundPoisoned;
        match state {
          case WaitingOutput(substream) =>
            var polled := sendQueue.Next();
            if polled.Ready? && polled.value.Some? {
              var m := polled.value.value;
              if m.TimedOut(now) {
                outboundSubstream := WaitingOutput(substream);
                taken := taken + [Taken(m, Expired(now), queued)];
                return Some(m);
              }
              taken := taken + [Taken(m, ForSending(now), queued)];
              said := said + [TookUp(m)];
              outboundSubstream := PendingSend(substream, m);
              continue;
            }
            outboundSubstream := WaitingOutput(substream);
            return None;
          case PendingSend(substream, rpc) =>
            var answer := NextAnswer(answers);
            said := said + [SinkSaid(answer)];
            answers := if answers != [] then answers[1..] else answers;
            match answer {
              case Done =>
                outboundSubstream := PendingFlush(substream);
                outcomes := outcomes + [Given(rpc)];
              case Failed =>
                outboundSubstream := NoOutbound;
                outcomes := outcomes + [Lost(rpc)];
                return None;
              case NotYet =>
                outboundSubstream := PendingSend(substream, rpc);
                return None;
            }
          case PendingFlush(substream) =>
            var answer := NextAnswer(answers);
            said := said + [SinkSaid(answer)];
            answers := if answers != [] then answers[1..] else answers;
            match answer {
              case Done =>
                outboundSubstream := WaitingOutput(substream);
              case Failed =>
                outboundSubstream := NoOutbound;
                return None;
              case NotYet =>
                outboundSubstream := PendingFlush(substream);
                return None;
            }
          case NoOutbound =>
            outboundSubstream := NoOutbound;
            return None;
          case OutboundPoisoned =>
            assert false;
        }
      }
    }

    /** The inbound loop of `poll`. */
    method DriveInbound(source: seq<SourceAnswer>) returns (got: Option<Rpc>)
      requires inboundSubstream != InboundPoisoned
      modifies this`inboundSubstream, this`heard
      ensures var (inbound, rpc, more) := InboundLoop(old(inboundSubstream), source);
              inboundSubstream == inbound && got == rpc && heard == old(heard) + more
      ensures inboundSubstream != InboundPoisoned
    {
      var answers := source;
      while true
        invariant inboundSubstream != InboundPoisoned
        invariant var (inbound, rpc, more) := InboundLoop(inboundSubstream, answers);
                  var (inbound', rpc', all) := InboundLoop(old(inboundSubstream), source);
                  inbound == inbound' && rpc == rpc' && heard + more == old(heard) + all
        decreases if inboundSubstream.WaitingInput? then 1 else 0
      {
        var state := inboundSubstream;
        inboundSubstream := InboundPoisoned;
        match state {
          case WaitingInput(substream) =>
            ghost var entry := Read(NextReading(answers));
            ghost var rest := InboundLoop(Closing(substream), if answers != [] then answers[1..] else []).2;
            assert heard + ([entry] + rest) == heard + [entry] + rest;
            heard := heard + [entry];
            match NextReading(answers) {
              case Got(rpc) =>
                inboundSubstream := WaitingInput(substream);
                return Some(rpc);
              case Broken =>
                inboundSubstream := Closing(substream);
                answers := answers[1..];
              case Ended =>
                inboundSubstream := Closing(substream);
                answers := answers[1..];
              case _ =>
                inboundSubstream := WaitingInput(substream);
                return None;
            }
          case Closing(substream) =>
            heard := heard + [AskedToClose(NextReading(answers) == Closed)];
            if NextReading(answers) == Closed {
              inboundSubstream := NoInbound;
            } else {
              inboundSubstream := Closing(substream);
            }
            return None;
          case NoInbound =>
            inboundSubstream := NoInbound;
            return None;
          case InboundPoisoned =>
            assert false;
        }
      }
    }

    method Poll(now: nat, sink: seq<SinkAnswer>, source: seq<SourceAnswer>) returns (polled: Polled)
      requires Sound(State())
      modifies this, sendQueue
      ensures (State(), polled) == PollHandler(old(State()), now, sink, source) && Sound(State())
    {
      hide PollStale, OutboundLoop, InboundLoop, SendQueue.Valid;
      if status != Enabled {
        return Nothing;
      }
      PeekValid(sendQueue.State());
      var empty := sendQueue.IsEmpty();
      if !empty && outboundSubstream.NoOutbound? && !outboundSubstreamEstablishing {
        outboundSubstreamEstablishing := true;
        return SubstreamRequest;
      }
      var report := DriveOutbound(now, sink);
      if report.Some? {
        return Dropped(report.value);
      }
      var got := DriveInbound(source);
      if got.Some? {
        return Received(got.value);
      }
      ghost var queued := |sendQueue.priority|;
      var stale := sendQueue.Stale(now);
      if stale.Ready? && stale.value.Some? {
        taken := taken + [Taken(stale.value.value, Stale(now), queued)];
        return Dropped(stale.value.value);
      }
      return Nothing;
    }

    /** `on_connection_event`. The swarm answers a substream request once, so that an outbound
        answer finds a request open; the assertion in `on_fully_negotiated_outbound` then holds. */
    method OnConnectionEvent(event: ConnectionEvent)
      requires Sound(State())
      requires event.IsOutbound() && status == Enabled ==> outboundSubstreamEstablishing
      modifies this, sendQueue
      ensures State() == OnEvent(old(State()), event) && Sound(State())
    {
      hide SendQueue.Valid;
      if status != Enabled {
        return;
      }
      if event.IsInbound() {
        inboundSubstreamAttempts := inboundSubstreamAttempts + 1;
        if inboundSubstreamAttempts == MAX_SUBSTREAM_ATTEMPTS {
          TurnOff(MaxSubstreamAttempts);
          return;
        }
      }
      if event.IsOutbound() {
        outboundSubstreamEstablishing := false;
        outboundSubstreamAttempts := outboundSubstreamAttempts + 1;
        if outboundSubstreamAttempts == MAX_SUBSTREAM_ATTEMPTS {
          TurnOff(MaxSubstreamAttempts);
          return;
        }
      }
      match event {
        case FullyNegotiatedInbound(substream) =>
          inboundSubstream := WaitingInput(substream);
          heard := heard + [InOpened(substream)];
        case FullyNegotiatedOutbound(substream) =>
          assert outboundSubstream.NoOutbound?;
          outboundSubstream := WaitingOutput(substream);
          said := said + [OutOpened(substream)];
        case DialNegotiationFailed =>
          TurnOff(ProtocolUnsupported);
        case _ =>
      }
    }

    method TurnOff(why: Status)
      requires why != Enabled && Sound(State())
      modifies this, sendQueue
      ensures State() == Disable(old(State()), why) && Sound(State())
    {
      hide SendQueue.Valid;
      hide HeadsTaken, ReceiverGone, Sound;
      SoundMeans(State());
      DisableSound(State(), why);
      outcomes := outcomes + if outboundSubstream.PendingSend? then [Abandoned(outboundSubstream.rpc)] else [];
      taken := taken + HeadsTaken(sendQueue.State());
      said, heard := said + [OutShut], heard + [InShut];
      sendQueue.DropReceiver();
      status, outboundSubstream, inboundSubstream, outboundSubstreamEstablishing := why, NoOutbound, NoInbound, false;
    }
  }

  lemma LoopUnfolds(h: HandlerState, now: nat, answers: seq<SinkAnswer>)
    ensures var (h', turn) := OutboundTurn(h, now, NextAnswer(answers));
            OutboundLoop(h, now, answers) ==
            if turn == Again then OutboundLoop(h', now, AnswersLeft(h, answers)) else (h', turn)
  {
    hide OutboundTurn;
  }

  lemma SoundMeans(h: HandlerState)
    requires Sound(h)
    ensures h.queue.Valid() && h.outbound != OutboundPoisoned
  {
    hide SendQueue.Valid;
  }

  lemma DisableSound(h: HandlerState, why: Status)
    requires Sound(h) && why != Enabled
    ensures Sound(Disable(h, why))
  {
    hide SendQueue.Valid, HeadsTaken;
    ReceiverGoneValid(h.queue);
  }

  lemma PeekValid(q: SendQueue)
    requires q.Valid()
    ensures PollIsEmpty(q).0.Valid()
  {}

  /** A turn after which the loop goes on leaves less work. */
  lemma AgainWorks(h: HandlerState, now: nat, answers: seq<SinkAnswer>)
    ensures var (h', turn) := OutboundTurn(h, now, NextAnswer(answers)); turn == Again ==> Work(h') < Work(h)
  {}
}

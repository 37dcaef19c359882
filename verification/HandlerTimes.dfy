/** When a handler does what: no message leaves its queue at the wrong time or stays behind without a
    cause, and one poll answers what it should. */
module HandlerTimes {
  import opened Types
  import opened SendQueues
  import opened Handlers
  import opened HandlerRuns

  // ---- No message is sent late, none is dropped early ----

  /** Taken at `now`: to be sent if it is a control message or there is time left, and dropped if it is a
      transaction and there is none. */
  ghost predicate RightlyTaken(t: Taken, now: nat) {
    match t.fate
    case ForSending(at) => at == now && (t.rpc.HaveTx? || t.rpc.ResetRoute? || now < t.rpc.deadline)
    case Expired(at) => at == now && (t.rpc.Publish? || t.rpc.Forward?) && t.rpc.deadline <= now
    case Stale(at) => at == now && (t.rpc.Publish? || t.rpc.Forward?) && t.rpc.deadline <= now
    case WithHandler => false
  }

  ghost predicate TakenSince(before: seq<Taken>, after: seq<Taken>, now: nat) {
    before <= after && forall i :: |before| <= i < |after| ==> RightlyTaken(after[i], now)
  }

  lemma TakenOne(before: seq<Taken>, t: Taken, now: nat)
    requires RightlyTaken(t, now)
    ensures TakenSince(before, before + [t], now)
  {}

  lemma NothingTaken(taken: seq<Taken>, now: nat)
    ensures TakenSince(taken, taken, now)
  {}

  lemma TakenThen(a: seq<Taken>, b: seq<Taken>, c: seq<Taken>, now: nat)
    requires TakenSince(a, b, now) && TakenSince(b, c, now)
    ensures TakenSince(a, c, now)
  {
    hide RightlyTaken;
  }

  /** The last message taken was one whose time was up, found at the head of its channel. */
  ghost predicate LastExpired(h: HandlerState, m: RpcOut, now: nat) {
    h.taken != [] && h.taken[|h.taken| - 1].rpc == m && h.taken[|h.taken| - 1].fate == Expired(now)
  }

  /** Why the outbound side has come to rest: there is nothing to send, the sink is not ready, or there is no
      substream. */
  ghost predicate AtRest(h: HandlerState) {
    match h.outbound
    case WaitingOutput(_) => h.queue.priority == [] && h.queue.nonPriority == []
    case PendingSend(_, _) => h.said != [] && h.said[|h.said| - 1] == SinkSaid(NotYet)
    case PendingFlush(_) => h.said != [] && h.said[|h.said| - 1] == SinkSaid(NotYet)
    case _ => true
  }

  lemma TurnTakes(h: HandlerState, now: nat, answer: SinkAnswer)
    requires !h.queue.closed
    ensures var (h', turn) := OutboundTurn(h, now, answer);
            && TakenSince(h.taken, h'.taken, now) && !h'.queue.closed
            && (turn.Report? ==> LastExpired(h', turn.rpc, now))
            && (turn == Stop ==> AtRest(h'))
            && h'.status == h.status && h'.inbound == h.inbound && h'.heard == h.heard
  {
    if h.outbound.WaitingOutput? {
      var polled := PollNext(h.queue).1;
      if polled.Ready? && polled.value.Some? {
        var m := polled.value.value;
        TakenOne(h.taken, Taken(m, if m.TimedOut(now) then Expired(now) else ForSending(now), |h.queue.priority|), now);
      }
    }
  }

  lemma {:induction false} LoopTakes(h: HandlerState, now: nat, answers: seq<SinkAnswer>)
    requires !h.queue.closed
    ensures var (h', turn) := OutboundLoop(h, now, answers);
            && TakenSince(h.taken, h'.taken, now) && !h'.queue.closed
            && turn != Again
            && (turn.Report? ==> LastExpired(h', turn.rpc, now))
            && (turn == Stop ==> AtRest(h'))
            && h'.status == h.status && h'.inbound == h.inbound && h'.heard == h.heard
    decreases Work(h)
  {
    hide OutboundTurn, TakenSince, LastExpired, AtRest, Work;
    var (h', turn) := OutboundTurn(h, now, NextAnswer(answers));
    TurnTakes(h, now, NextAnswer(answers));
    if turn == Again {
      AgainWorks(h, now, answers);
      LoopTakes(h', now, AnswersLeft(h, answers));
      TakenThen(h.taken, h'.taken, OutboundLoop(h', now, AnswersLeft(h, answers)).0.taken, now);
    }
  }

  lemma AtRestStill(h: HandlerState, h': HandlerState)
    requires AtRest(h) && h' == h.(inbound := h'.inbound, heard := h'.heard)
    ensures AtRest(h')
  {}

  lemma {:induction false} LoopSound(h: HandlerState, now: nat, answers: seq<SinkAnswer>)
    requires Sound(h)
    ensures OutboundLoop(h, now, answers).0.queue.Valid()
    decreases Work(h)
  {
    hide OutboundTurn, Sound, SendQueue.Valid, Work;
    var (h', turn) := OutboundTurn(h, now, NextAnswer(answers));
    TurnSound(h, now, NextAnswer(answers));
    SoundMeans(h');
    if turn == Again {
      AgainWorks(h, now, answers);
      LoopSound(h', now, AnswersLeft(h, answers));
    }
  }

  // ---- Stale messages ----

  ghost predicate HeadTimedOut(channel: seq<RpcOut>, now: nat) {
    channel != [] && (channel[0].Publish? || channel[0].Forward?) && channel[0].deadline <= now
  }

  /** One look for stale messages takes a head whose time is up if there is one, the priority channel first, and
      peeks at what it looks at. It ends the stream if and only if both channels show a transaction in time or
      are closed and drained. */
  lemma StaleMeans(q: SendQueue, now: nat)
    requires q.Valid()
    ensures var (q', polled) := PollStale(q, now);
            var first, second := HeadTimedOut(q.priority, now), HeadTimedOut(q.nonPriority, now);
            && (polled.Ready? && polled.value.Some? <==> first || second)
            && (first ==>
                  && polled.value.value == q.priority[0] && q'.priority == q.priority[1..] && !q'.priorityPeeked
                  && q'.nonPriority == q.nonPriority && q'.forwardPeeked == q.forwardPeeked)
            && (!first ==> q'.priority == q.priority && (q'.priorityPeeked <==> q.priority != []))
            && (!first && second ==>
                  && polled.value.value == q.nonPriority[0] && q'.nonPriority == q.nonPriority[1..]
                  && !q'.forwardPeeked)
            && (!first && !second ==> q'.nonPriority == q.nonPriority && (q'.forwardPeeked <==> q.nonPriority != []))
            && q'.len == q.len && q'.cap == q.cap && q'.closed == q.closed
            && (polled == Ready(None) <==>
                  !first && !second && forall b ::
                    if Channel(q, b) == [] then q.closed else Channel(q, b)[0].Publish? || Channel(q, b)[0].Forward?)
  {
    hide PublishCount;
    assert Channel(q, true) == q.priority && Channel(q, false) == q.nonPriority;
    if q.priority != [] {
      assert q.priority[0] in q.priority;
    }
    if q.nonPriority != [] {
      assert q.nonPriority[0] in q.nonPriority;
    }
  }

  // ---- One poll ----

  /** The poll ended before it came to the inbound side: it asked for a substream, or found a message whose
      time was up where it looked for one to send. */
  ghost predicate LeftEarly(h': HandlerState, polled: Polled, now: nat) {
    polled.SubstreamRequest? || (polled.Dropped? && LastExpired(h', polled.message, now))
  }

  /** A poll asks for a substream if and only if there is none, none is being established and the queue is not
      closed and drained: also when nothing is queued. It then only peeks. */
  lemma AsksIff(h: HandlerState, now: nat, sink: seq<SinkAnswer>, source: seq<SourceAnswer>)
    ensures var (h', polled) := PollHandler(h, now, sink, source);
            && (polled.SubstreamRequest? <==>
                  && h.status == Enabled && h.outbound.NoOutbound? && !h.establishing
                  && !(h.queue.closed && h.queue.priority == [] && h.queue.nonPriority == []))
            && (polled.SubstreamRequest? ==>
                  && h' == h.(establishing := true, queue := h'.queue)
                  && h'.queue == h.queue.(priorityPeeked := h.queue.priority != [],
                                          forwardPeeked := h.queue.nonPriority != []))
  {
    hide OutboundLoop, InboundLoop, PollStale;
  }

  lemma HandedOver(inbound: Inbound, source: seq<SourceAnswer>)
    ensures var got := InboundLoop(inbound, source).1;
            && (got.Some? <==> inbound.WaitingInput? && source != [] && source[0].Got?)
            && (got.Some? ==> got.value == source[0].rpc)
  {}

  lemma StaleTakes(h: HandlerState, now: nat)
    requires h.queue.Valid() && AtRest(h)
    ensures var (h', polled) := DropOneStale(h, now);
            && TakenSince(h.taken, h'.taken, now) && AtRest(h')
            && (polled == Nothing || (polled.Dropped? && !LastExpired(h', polled.message, now)))
            && h'.heard == h.heard
            && (polled == Nothing ==>
                  !HeadTimedOut(h'.queue.priority, now) && !HeadTimedOut(h'.queue.nonPriority, now))
  {
    hide SendQueue.Valid, PollStale;
    StaleMeans(h.queue, now);
    var polled := PollStale(h.queue, now).1;
    if polled.Ready? && polled.value.Some? {
      TakenOne(h.taken, Taken(polled.value.value, Stale(now), |h.queue.priority|), now);
    }
  }

  /** What a poll of an enabled handler does and answers: whatever stops the outbound side has a cause; unless
      it has left early it hands over what it reads, if it reads an RPC; and it has nothing to tell only when no
      channel is headed by a transaction whose time is up. */
  lemma PollMeans(h: HandlerState, now: nat, sink: seq<SinkAnswer>, source: seq<SourceAnswer>)
    requires h.status == Enabled && Sound(h) && !h.queue.closed
    ensures var (h', polled) := PollHandler(h, now, sink, source);
            && TakenSince(h.taken, h'.taken, now)
            && (!LeftEarly(h', polled, now) ==> AtRest(h'))
            && (polled.Received? <==>
                  !LeftEarly(h', polled, now) && h.inbound.WaitingInput? && source != [] && source[0].Got?)
            && (polled.Received? ==> polled.rpc == source[0].rpc)
            && h'.heard == h.heard + (if LeftEarly(h', polled, now) then [] else InboundLoop(h.inbound, source).2)
            && (polled == Nothing ==>
                  !HeadTimedOut(h'.queue.priority, now) && !HeadTimedOut(h'.queue.nonPriority, now))
  {
    hide OutboundLoop, InboundLoop, DropOneStale, HeadTimedOut, SendQueue.Valid, TakenSince, AtRest, LastExpired;
    var h1 := h.(queue := PollIsEmpty(h.queue).0);
    NothingTaken(h.taken, now);
    assert h.heard + [] == h.heard;
    PeekValid(h.queue);
    LoopTakes(h1, now, sink);
    var (h2, turn) := OutboundLoop(h1, now, sink);
    HandedOver(h2.inbound, source);
    if turn == Stop && !(h.outbound.NoOutbound? && !h.establishing) {
      LoopSound(h1, now, sink);
      var (inbound, got, heard) := InboundLoop(h2.inbound, source);
      var h3 := h2.(inbound := inbound, heard := h2.heard + heard);
      AtRestStill(h2, h3);
      StaleTakes(h3, now);
      TakenThen(h.taken, h2.taken, DropOneStale(h3, now).0.taken, now);
    }
  }

  // ---- Whole lives ----

  lemma OpenAndSound(queueLen: nat, steps: seq<Step>)
    ensures var h := Run(NewLife(queueLen), steps).h; Sound(h) && !h.queue.closed
  {
    hide Run, Sound, InOrder, TakenTo, InTurn, Resolved, Asked;
    RunKept(queueLen, steps);
  }

  lemma DisabledIsStill(h: HandlerState, now: nat, sink: seq<SinkAnswer>, source: seq<SourceAnswer>)
    ensures h.status != Enabled ==> PollHandler(h, now, sink, source) == (h, Nothing)
  {}

  /** What a step takes from the queue: a poll at `now` takes rightly, by the clock of that poll; a disabling
      takes along what it finds; nothing else takes anything. */
  ghost predicate StepTakes(l: Life, s: Step) {
    var before, after := l.h.taken, Do(l, s).h.taken;
    match s
    case Send(_) => after == before
    case PollAt(now, _, _) => TakenSince(before, after, now)
    case Happen(_) => before <= after && forall i :: |before| <= i < |after| ==> after[i].fate == WithHandler
  }

  lemma EventTakes(h: HandlerState, event: ConnectionEvent)
    ensures var after := OnEvent(h, event).taken;
            h.taken <= after && forall i :: |h.taken| <= i < |after| ==> after[i].fate == WithHandler
  {}

  lemma LeavesOnTime(queueLen: nat, steps: seq<Step>, s: Step)
    ensures StepTakes(Run(NewLife(queueLen), steps), s)
  {
    hide Run, Sound, PollHandler, TakenSince, OnEvent, TrySend;
    var l := Run(NewLife(queueLen), steps);
    OpenAndSound(queueLen, steps);
    match s
    case Send(_) =>
    case PollAt(now, sink, source) =>
      NothingTaken(l.h.taken, now);
      DisabledIsStill(l.h, now, sink, source);
      if l.h.status == Enabled {
        PollMeans(l.h, now, sink, source);
      }
    case Happen(event) =>
      EventTakes(l.h, event);
  }

  /** Over any life every message was sent with time left or without a deadline, or dropped for a deadline that
      had passed; and no control message is ever reported as dropped. */
  lemma {:induction false} EveryFateIsRight(queueLen: nat, steps: seq<Step>)
    ensures var l := Run(NewLife(queueLen), steps);
            && (forall t :: t in l.h.taken ==> t.fate == WithHandler || RightlyTaken(t, t.fate.at))
            && (forall m :: m in l.reported ==> m.Publish? || m.Forward?)
  {
    hide Do, RightlyTaken;
    if steps != [] {
      var k := |steps| - 1;
      EveryFateIsRight(queueLen, steps[..k]);
      var l := Run(NewLife(queueLen), steps[..k]);
      LeavesOnTime(queueLen, steps[..k], steps[k]);
      FatesStay(l, steps[k]);
    }
    NothingIsLostTrackOf(queueLen, steps);
    ReportedAreTransactions(Run(NewLife(queueLen), steps).h.taken);
  }

  lemma FatesStay(l: Life, s: Step)
    requires StepTakes(l, s)
    requires forall t :: t in l.h.taken ==> t.fate == WithHandler || RightlyTaken(t, t.fate.at)
    ensures forall t :: t in Do(l, s).h.taken ==> t.fate == WithHandler || RightlyTaken(t, t.fate.at)
  {
    hide Do;
    var before, after := l.h.taken, Do(l, s).h.taken;
    forall t | t in after
      ensures t.fate == WithHandler || RightlyTaken(t, t.fate.at)
    {
      var i :| 0 <= i < |after| && after[i] == t;
      if i < |before| {
        assert before[i] in before;
      }
    }
  }

  lemma {:induction false} ReportedAreTransactions(taken: seq<Taken>)
    requires forall t :: t in taken ==> t.fate == WithHandler || RightlyTaken(t, t.fate.at)
    ensures forall m :: m in TakenTo(taken, ToTheReport) ==> m.Publish? || m.Forward?
  {
    if taken != [] {
      var k := |taken| - 1;
      assert taken[k] in taken && forall t :: t in taken[..k] ==> t in taken;
      ReportedAreTransactions(taken[..k]);
    }
  }

  // ---- What the queue accepts over a life ----

  /** The Publish messages that `poll` took in turn: those that gave back their place. */
  function GaveBack(taken: seq<Taken>): nat {
    if taken == [] then 0
    else
      var last := taken[|taken| - 1];
      GaveBack(taken[..|taken| - 1])
      + if last.rpc.Publish? && (last.fate.ForSending? || last.fate.Expired?) then 1 else 0
  }

  /** The counter is what was accepted less what was given back. */
  ghost predicate Accounted(h: HandlerState, accepted: seq<RpcOut>, queueLen: nat) {
    h.queue.cap == queueLen / 2 && h.queue.len + GaveBack(h.taken) == PublishCount(accepted)
  }

  lemma GaveBackOne(taken: seq<Taken>, t: Taken)
    ensures GaveBack(taken + [t]) ==
              GaveBack(taken) + if t.rpc.Publish? && (t.fate.ForSending? || t.fate.Expired?) then 1 else 0
  {
    assert (taken + [t])[..|taken|] == taken;
  }

  lemma TurnAccounted(h: HandlerState, now: nat, answer: SinkAnswer, accepted: seq<RpcOut>, queueLen: nat)
    requires Sound(h) && Accounted(h, accepted, queueLen)
    ensures Accounted(OutboundTurn(h, now, answer).0, accepted, queueLen)
  {
    hide SendQueue.Valid, GaveBack, PublishCount;
    PollNextValid(h.queue);
    var polled := PollNext(h.queue).1;
    if h.outbound.WaitingOutput? && polled.Ready? && polled.value.Some? {
      var m := polled.value.value;
      GaveBackOne(h.taken, Taken(m, if m.TimedOut(now) then Expired(now) else ForSending(now), |h.queue.priority|));
      if h.queue.priority == [] {
        ForwardsAreForwards(h.queue);
      }
    }
  }

  lemma ForwardsAreForwards(q: SendQueue)
    requires q.Valid() && q.nonPriority != []
    ensures q.nonPriority[0].Forward?
  {
    assert q.nonPriority[0] in q.nonPriority;
  }

  lemma {:induction false} LoopAccounted(h: HandlerState, now: nat, answers: seq<SinkAnswer>, accepted: seq<RpcOut>,
                                         queueLen: nat)
    requires Sound(h) && Accounted(h, accepted, queueLen)
    ensures Accounted(OutboundLoop(h, now, answers).0, accepted, queueLen)
    decreases Work(h)
  {
    hide OutboundTurn, Sound, Accounted, Work;
    var (h', turn) := OutboundTurn(h, now, NextAnswer(answers));
    TurnSound(h, now, NextAnswer(answers));
    TurnAccounted(h, now, NextAnswer(answers), accepted, queueLen);
    if turn == Again {
      AgainWorks(h, now, answers);
      LoopAccounted(h', now, AnswersLeft(h, answers), accepted, queueLen);
    }
  }

  lemma PollAccounted(h: HandlerState, now: nat, sink: seq<SinkAnswer>, source: seq<SourceAnswer>,
                      accepted: seq<RpcOut>, queueLen: nat)
    requires Sound(h) && Accounted(h, accepted, queueLen)
    ensures Accounted(PollHandler(h, now, sink, source).0, accepted, queueLen)
  {
    hide OutboundLoop, InboundLoop, SendQueue.Valid, PollStale, GaveBack, PublishCount;
    PeekValid(h.queue);
    var h1 := h.(queue := PollIsEmpty(h.queue).0);
    LoopAccounted(h1, now, sink, accepted, queueLen);
    LoopSound(h1, now, sink);
    var h2 := OutboundLoop(h1, now, sink).0;
    StaleMeans(h2.queue, now);
    var polled := PollStale(h2.queue, now).1;
    if polled.Ready? && polled.value.Some? {
      GaveBackOne(h2.taken, Taken(polled.value.value, Stale(now), |h2.queue.priority|));
    }
  }

  lemma {:induction false} GaveBackNothing(taken: seq<Taken>, more: seq<Taken>)
    requires forall t :: t in more ==> t.fate == WithHandler
    ensures GaveBack(taken + more) == GaveBack(taken)
  {
    if more == [] {
      assert taken + more == taken;
    } else {
      var k := |more| - 1;
      GaveBackNothing(taken, more[..k]);
      assert more[k] in more;
      GaveBackOne(taken + more[..k], more[k]);
      assert taken + more == (taken + more[..k]) + [more[k]];
    }
  }

  lemma EventAccounted(h: HandlerState, event: ConnectionEvent, accepted: seq<RpcOut>, queueLen: nat)
    requires Accounted(h, accepted, queueLen)
    ensures Accounted(OnEvent(h, event), accepted, queueLen)
  {
    hide GaveBack, PublishCount;
    GaveBackNothing(h.taken, HeadsTaken(h.queue));
  }

  lemma SendAccounted(h: HandlerState, rpc: RpcOut, accepted: seq<RpcOut>, queueLen: nat)
    requires Accounted(h, accepted, queueLen) && !h.queue.closed
    ensures var (q, ok) := TrySend(h.queue, rpc);
            Accounted(h.(queue := q), accepted + (if ok then [rpc] else []), queueLen)
  {
    hide GaveBack, PublishCount;
    PublishCountAppend(accepted, rpc);
    assert accepted + [] == accepted;
  }

  lemma {:induction false} RunAccounted(queueLen: nat, steps: seq<Step>)
    ensures var l := Run(NewLife(queueLen), steps); Accounted(l.h, l.accepted, queueLen)
  {
    hide PollHandler, OnEvent, TrySend, Sound, Accounted;
    if steps == [] {
      NothingAccounted(queueLen);
    } else {
      var k := |steps| - 1;
      var l := Run(NewLife(queueLen), steps[..k]);
      RunAccounted(queueLen, steps[..k]);
      OpenAndSound(queueLen, steps[..k]);
      match steps[k]
      case Send(rpc) => SendAccounted(l.h, rpc, l.accepted, queueLen);
      case PollAt(now, sink, source) => PollAccounted(l.h, now, sink, source, l.accepted, queueLen);
      case Happen(event) => EventAccounted(l.h, event, l.accepted, queueLen);
    }
  }

  lemma NothingAccounted(queueLen: nat)
    ensures Accounted(NewLife(queueLen).h, NewLife(queueLen).accepted, queueLen)
  {}

  /** Over any life the queue accepts a Publish if and only if those it has accepted and `poll` has not yet taken
      in turn are fewer than half the configured length: what was dropped as stale or went with the handler counts
      for ever. It accepts a Forward if and only if fewer are in the channel, a peeked one not counted. */
  lemma AcceptedIff(queueLen: nat, steps: seq<Step>, rpc: RpcOut)
    ensures var l := Run(NewLife(queueLen), steps);
            var room := match rpc
                        case Publish(_, _) => PublishCount(l.accepted) - GaveBack(l.h.taken) < queueLen / 2
                        case Forward(_, _) =>
                          |l.h.queue.nonPriority| - (if l.h.queue.forwardPeeked then 1 else 0) < queueLen / 2
                        case _ => true;
            Run(NewLife(queueLen), steps + [Send(rpc)]).accepted == l.accepted + if room then [rpc] else []
  {
    hide Run, Sound, PublishCount, GaveBack;
    OpenAndSound(queueLen, steps);
    RunAccounted(queueLen, steps);
    RunAppend(NewLife(queueLen), steps, Send(rpc));
  }
}

/** The handler at the sending end of a link takes the steps the network has for it: what one poll takes from the
    queue is a run of transmissions and stale drops, and what a disabling takes along are dropped peeked heads. */
module HandlerLinks {
  import opened Types
  import opened SendQueues
  import opened Networks
  import opened NetworkRuns
  import H = Handlers
  import R = HandlerRuns

  /** `h` is the handler at the sending end of `l`. */
  ghost predicate At(n: Net, l: Link, h: H.HandlerState) {
    && Between(n, l) && l in n.wire && Connected(n, l)
    && n.nodes[l.from].peers[l.to].queue == h.queue
    && H.Sound(h)
  }

  /** What `h'` has taken from the queue since `h`, by where it went. */
  function Went(h: H.HandlerState, h': H.HandlerState, way: R.Way): seq<RpcOut> {
    if |h.taken| <= |h'.taken| then R.TakenTo(h'.taken[|h.taken|..], way) else []
  }

  /** The network once the handler has become `h'`: its queue is that of `h'`, what was taken to be sent is on the
      wire, and what was dropped is lost. */
  function Shifted(n: Net, l: Link, h: H.HandlerState, h': H.HandlerState): Net
    requires l.from in n.nodes && l.to in n.nodes[l.from].peers && l in n.wire
  {
    SetQueue(n, l, h'.queue).(
      wire := n.wire[l := n.wire[l] + Went(h, h', R.ToTheSink)],
      lost := n.lost + CopiesLost(n.nodes[l.from].cfg, l, Went(h, h', R.ToTheReport) + Went(h, h', R.WithTheHandler)))
  }

  lemma WentNothing(h: H.HandlerState, h': H.HandlerState, way: R.Way)
    requires h'.taken == h.taken
    ensures Went(h, h', way) == []
  {}

  lemma WentOne(h: H.HandlerState, h': H.HandlerState, t: H.Taken, way: R.Way)
    requires h'.taken == h.taken + [t]
    ensures Went(h, h', way) == if R.WayOf(t.fate) == way then [t.rpc] else []
  {
    assert h'.taken[|h.taken|..] == [] + [t];
    R.TakenAppend([], t, way);
  }

  lemma WentThen(h: H.HandlerState, h1: H.HandlerState, h2: H.HandlerState, way: R.Way)
    requires h.taken <= h1.taken <= h2.taken
    ensures Went(h, h2, way) == Went(h, h1, way) + Went(h1, h2, way)
  {
    hide R.TakenTo;
    var a, b := h1.taken[|h.taken|..], h2.taken[|h1.taken|..];
    assert h2.taken[|h.taken|..] == a + b;
    R.TakenConcat(a, b, way);
  }

  lemma CopiesThen(cfg: Config, l: Link, a: seq<RpcOut>, b: seq<RpcOut>)
    ensures CopiesLost(cfg, l, a + b) == CopiesLost(cfg, l, a) + CopiesLost(cfg, l, b)
  {}

  lemma CopiesOfBoth(cfg: Config, l: Link, a: seq<RpcOut>, b: seq<RpcOut>, c: seq<RpcOut>, d: seq<RpcOut>)
    ensures CopiesLost(cfg, l, (a + b) + (c + d)) == CopiesLost(cfg, l, a + c) + CopiesLost(cfg, l, b + d)
  {
    hide CopiesLost;
    CopiesThen(cfg, l, a + b, c + d);
    CopiesThen(cfg, l, a, b);
    CopiesThen(cfg, l, c, d);
    CopiesThen(cfg, l, a, c);
    CopiesThen(cfg, l, b, d);
  }

  lemma ShiftedThen(n: Net, l: Link, h: H.HandlerState, h1: H.HandlerState, h2: H.HandlerState)
    requires l.from in n.nodes && l.to in n.nodes[l.from].peers && l in n.wire
    requires h.taken <= h1.taken <= h2.taken
    ensures Shifted(Shifted(n, l, h, h1), l, h1, h2) == Shifted(n, l, h, h2)
  {
    hide Went, CopiesLost;
    forall way {
      WentThen(h, h1, h2, way);
    }
    CopiesOfBoth(n.nodes[l.from].cfg, l, Went(h, h1, R.ToTheReport), Went(h1, h2, R.ToTheReport),
                 Went(h, h1, R.WithTheHandler), Went(h1, h2, R.WithTheHandler));
    var n1 := Shifted(n, l, h, h1);
    assert n1.wire[l] + Went(h1, h2, R.ToTheSink) == n.wire[l] + (Went(h, h1, R.ToTheSink) + Went(h1, h2, R.ToTheSink));
    assert n1.wire[l := n1.wire[l] + Went(h1, h2, R.ToTheSink)] == n.wire[l := n.wire[l] + Went(h, h2, R.ToTheSink)];
    assert SetQueue(n1, l, h2.queue).nodes == SetQueue(n, l, h2.queue).nodes by {
      SetTwice(n, l, h1.queue, h2.queue);
    }
  }

  lemma SetTwice(n: Net, l: Link, q1: SendQueue, q2: SendQueue)
    requires l.from in n.nodes && l.to in n.nodes[l.from].peers
    ensures SetQueue(SetQueue(n, l, q1), l, q2) == SetQueue(n, l, q2)
  {
    var node := n.nodes[l.from];
    var p := node.peers[l.to];
    assert node.peers[l.to := p.(queue := q1)][l.to := p.(queue := q2)] == node.peers[l.to := p.(queue := q2)];
    var node' := node.(peers := node.peers[l.to := p.(queue := q2)]);
    var node1 := node.(peers := node.peers[l.to := p.(queue := q1)]);
    assert n.nodes[l.from := node1][l.from := node'] == n.nodes[l.from := node'];
  }

  lemma ShiftedSame(n: Net, l: Link, h: H.HandlerState, h': H.HandlerState)
    requires At(n, l, h) && h'.queue == h.queue && h'.taken == h.taken
    ensures Shifted(n, l, h, h') == n
  {
    hide H.Sound;
    WentNothing(h, h', R.ToTheSink);
    WentNothing(h, h', R.ToTheReport);
    WentNothing(h, h', R.WithTheHandler);
    SetSame(n, l);
    assert n.wire[l] + [] == n.wire[l] && n.wire[l := n.wire[l]] == n.wire;
    assert CopiesLost(n.nodes[l.from].cfg, l, [] + []) == {};
  }

  lemma SetSame(n: Net, l: Link)
    requires l.from in n.nodes && l.to in n.nodes[l.from].peers
    ensures SetQueue(n, l, n.nodes[l.from].peers[l.to].queue) == n
  {
    var node := n.nodes[l.from];
    assert node.peers[l.to := node.peers[l.to]] == node.peers;
    assert n.nodes[l.from := node] == n.nodes;
  }

  /** One message goes. */
  lemma ShiftedOne(n: Net, l: Link, h: H.HandlerState, h': H.HandlerState, t: H.Taken)
    requires At(n, l, h) && h'.taken == h.taken + [t]
    ensures R.WayOf(t.fate) == R.ToTheSink ==>
              Shifted(n, l, h, h') == SetQueue(n, l, h'.queue).(wire := n.wire[l := n.wire[l] + [t.rpc]])
    ensures R.WayOf(t.fate) != R.ToTheSink ==>
              Shifted(n, l, h, h') ==
                SetQueue(n, l, h'.queue).(lost := n.lost + CopiesLost(n.nodes[l.from].cfg, l, [t.rpc]))
  {
    hide H.Sound, Went;
    WentOne(h, h', t, R.ToTheSink);
    WentOne(h, h', t, R.ToTheReport);
    WentOne(h, h', t, R.WithTheHandler);
    assert n.wire[l] + [] == n.wire[l] && n.wire[l := n.wire[l]] == n.wire;
    assert CopiesLost(n.nodes[l.from].cfg, l, [] + []) == {};
    assert [] + [t.rpc] == [t.rpc] && [t.rpc] + [] == [t.rpc];
  }

  // ---- Turns of the outbound loop ----

  /** A turn that takes a message from the queue. */
  predicate Takes(h: H.HandlerState) {
    h.outbound.WaitingOutput? && (h.queue.priority != [] || (h.queue.nonPriority != [] && !h.queue.closed))
  }

  lemma TurnIsTransmit(n: Net, l: Link, h: H.HandlerState, answer: H.SinkAnswer)
    requires At(n, l, h) && Takes(h)
    ensures Enabled(n, Transmit(l))
    ensures DoTransmit(n, l) == Shifted(n, l, h, H.OutboundTurn(h, n.clock, answer).0)
  {
    hide H.Sound, CopiesLost, Shifted, SetQueue;
    var (q, polled) := PollNext(h.queue);
    var m := polled.value.value;
    ShiftedOne(n, l, h, H.OutboundTurn(h, n.clock, answer).0,
               H.Taken(m, if m.TimedOut(n.clock) then H.Expired(n.clock) else H.ForSending(n.clock),
                       |h.queue.priority|));
  }

  lemma OtherTurnsTakeNothing(h: H.HandlerState, now: nat, answer: H.SinkAnswer)
    requires !Takes(h)
    ensures var h' := H.OutboundTurn(h, now, answer).0; h'.queue == h.queue && h'.taken == h.taken
  {}

  /** The handler stays at its link. */
  lemma AtShifted(n: Net, l: Link, h: H.HandlerState, h': H.HandlerState)
    requires At(n, l, h) && H.Sound(h')
    ensures At(Shifted(n, l, h, h'), l, h')
  {
    hide H.Sound, Went, CopiesLost;
  }

  // ---- Runs of link steps ----

  lemma {:induction false} RunThen(n: Net, a: seq<Step>, b: seq<Step>)
    requires NetValid(n)
    ensures Run(n, a + b) == Run(Run(n, a), b)
  {
    hide NetValid, Do;
    if b == [] {
      assert a + b == a;
    } else {
      var k := |b| - 1;
      RunThen(n, a, b[..k]);
      assert (a + b)[..|a + b| - 1] == a + b[..k];
    }
  }

  lemma RunOne(n: Net, s: Step)
    requires NetValid(n)
    ensures Run(n, [s]) == Do(n, s)
  {
    hide NetValid, Do;
    assert [s][..0] == [];
  }

  /** Steps of the handler at the sending end of `l`. */
  ghost predicate OnLink(steps: seq<Step>, l: Link) {
    forall s :: s in steps ==>
      s == Transmit(l) || s == DropStale(l) || s == Peek(l) || s == DropPeeked(l, true) || s == DropPeeked(l, false)
  }

  /** These steps do to the network what becoming `h'` does to the handler. */
  ghost predicate Follows(n: Net, l: Link, h: H.HandlerState, h': H.HandlerState, steps: seq<Step>) {
    && NetValid(n) && At(n, l, h) && OnLink(steps, l)
    && h.taken <= h'.taken
    && Run(n, steps) == Shifted(n, l, h, h')
    && At(Run(n, steps), l, h')
  }

  lemma FollowsThen(n: Net, l: Link, h: H.HandlerState, h1: H.HandlerState, h2: H.HandlerState, a: seq<Step>,
                    b: seq<Step>)
    requires Follows(n, l, h, h1, a) && Follows(Run(n, a), l, h1, h2, b)
    ensures Follows(n, l, h, h2, a + b)
  {
    hide NetValid, Run, Shifted, H.Sound, Went;
    RunThen(n, a, b);
    ShiftedThen(n, l, h, h1, h2);
  }

  /** Nothing leaves the queue and it stays as it is. */
  lemma NoSteps(n: Net, l: Link, h: H.HandlerState, h': H.HandlerState)
    requires NetValid(n) && At(n, l, h) && h'.queue == h.queue && h'.taken == h.taken && H.Sound(h')
    ensures Follows(n, l, h, h', [])
  {
    hide NetValid, Shifted, H.Sound;
    ShiftedSame(n, l, h, h');
  }

  lemma OneStep(n: Net, l: Link, h: H.HandlerState, h': H.HandlerState, s: Step)
    requires NetValid(n) && At(n, l, h) && H.Sound(h') && OnLink([s], l) && h.taken <= h'.taken
    requires Do(n, s) == Shifted(n, l, h, h')
    ensures Follows(n, l, h, h', [s])
  {
    hide NetValid, Shifted, H.Sound, Do, OnLink;
    AtShifted(n, l, h, h');
    RunOne(n, s);
  }

  lemma ClockStays(n: Net, l: Link, h: H.HandlerState, h': H.HandlerState, steps: seq<Step>)
    requires Follows(n, l, h, h', steps)
    ensures Run(n, steps).clock == n.clock && NetValid(Run(n, steps))
  {
    hide NetValid, H.Sound, Run, OnLink, Went;
  }

  lemma TurnIsSteps(n: Net, l: Link, h: H.HandlerState, answer: H.SinkAnswer) returns (steps: seq<Step>)
    requires NetValid(n) && At(n, l, h)
    ensures Follows(n, l, h, H.OutboundTurn(h, n.clock, answer).0, steps)
  {
    hide NetValid, Shifted, H.Sound, H.OutboundTurn, Run, Takes, Follows, SendQueue.Valid, PollNext, DoTransmit;
    var h' := H.OutboundTurn(h, n.clock, answer).0;
    H.TurnSound(h, n.clock, answer);
    if Takes(h) {
      steps := [Transmit(l)];
      TurnIsTransmit(n, l, h, answer);
      TurnGrows(h, n.clock, answer);
      OneStep(n, l, h, h', Transmit(l));
    } else {
      steps := [];
      OtherTurnsTakeNothing(h, n.clock, answer);
      NoSteps(n, l, h, h');
    }
  }

  lemma TurnGrows(h: H.HandlerState, now: nat, answer: H.SinkAnswer)
    ensures h.taken <= H.OutboundTurn(h, now, answer).0.taken
  {
    hide PollNext;
  }

  lemma {:induction false} LoopIsSteps(n: Net, l: Link, h: H.HandlerState, answers: seq<H.SinkAnswer>)
      returns (steps: seq<Step>)
    requires NetValid(n) && At(n, l, h)
    ensures Follows(n, l, h, H.OutboundLoop(h, n.clock, answers).0, steps)
    decreases H.Work(h)
  {
    hide NetValid, H.OutboundTurn, Run, H.Work, Follows, At;
    var (h', turn) := H.OutboundTurn(h, n.clock, H.NextAnswer(answers));
    steps := TurnIsSteps(n, l, h, H.NextAnswer(answers));
    if turn == H.Again {
      H.AgainWorks(h, n.clock, answers);
      ClockStays(n, l, h, h', steps);
      FollowsMeans(n, l, h, h', steps);
      var more := LoopIsSteps(Run(n, steps), l, h', H.AnswersLeft(h, answers));
      FollowsThen(n, l, h, h', H.OutboundLoop(h', n.clock, H.AnswersLeft(h, answers)).0, steps, more);
      steps := steps + more;
    }
  }

  lemma FollowsMeans(n: Net, l: Link, h: H.HandlerState, h': H.HandlerState, steps: seq<Step>)
    requires Follows(n, l, h, h', steps)
    ensures NetValid(n) && At(Run(n, steps), l, h') && H.Sound(h') && Run(n, steps) == Shifted(n, l, h, h')
    ensures h.taken <= h'.taken
  {
    hide NetValid, Run, Shifted, H.Sound;
  }

  // ---- Polls ----

  lemma PeekIsStep(n: Net, l: Link, h: H.HandlerState)
    requires NetValid(n) && At(n, l, h)
    ensures Follows(n, l, h, h.(queue := PollIsEmpty(h.queue).0), [Peek(l)])
  {
    hide NetValid, SendQueue.Valid, Shifted;
    var h' := h.(queue := PollIsEmpty(h.queue).0);
    H.PeekValid(h.queue);
    QueueOnly(n, l, h, h'.queue);
    OneStep(n, l, h, h', Peek(l));
  }

  lemma QueueOnly(n: Net, l: Link, h: H.HandlerState, q: SendQueue)
    requires At(n, l, h)
    ensures Shifted(n, l, h, h.(queue := q)) == SetQueue(n, l, q)
  {
    hide H.Sound;
    var h' := h.(queue := q);
    WentNothing(h, h', R.ToTheSink);
    WentNothing(h, h', R.ToTheReport);
    WentNothing(h, h', R.WithTheHandler);
    assert n.wire[l] + [] == n.wire[l] && n.wire[l := n.wire[l]] == n.wire;
    assert CopiesLost(n.nodes[l.from].cfg, l, [] + []) == {};
  }

  lemma StaleIsStep(n: Net, l: Link, h: H.HandlerState)
    requires NetValid(n) && At(n, l, h)
    ensures Follows(n, l, h, H.DropOneStale(h, n.clock).0, [DropStale(l)])
  {
    hide NetValid, SendQueue.Valid, Shifted, PollStale, SetQueue, CopiesLost;
    var h' := H.DropOneStale(h, n.clock).0;
    PollStaleValid(h.queue, n.clock);
    var polled := PollStale(h.queue, n.clock).1;
    if polled.Ready? && polled.value.Some? {
      ShiftedOne(n, l, h, h', H.Taken(polled.value.value, H.Stale(n.clock), |h.queue.priority|));
    } else {
      QueueOnly(n, l, h, h'.queue);
    }
    OneStep(n, l, h, h', DropStale(l));
  }

  /** What one poll at the time of the network does is what a run of steps of its link does: the messages it takes
      to be sent go onto the wire in their order, and what it drops is lost. */
  lemma PollIsSteps(n: Net, l: Link, h: H.HandlerState, sink: seq<H.SinkAnswer>, source: seq<H.SourceAnswer>)
      returns (steps: seq<Step>)
    requires NetValid(n) && At(n, l, h)
    ensures Follows(n, l, h, H.PollHandler(h, n.clock, sink, source).0, steps)
  {
    hide NetValid, Run, Follows, At, H.Sound, H.OutboundLoop, H.InboundLoop, H.DropOneStale;
    AtSound(n, l, h);
    if h.status != H.Enabled {
      NoSteps(n, l, h, h);
      return [];
    }
    var h1 := h.(queue := PollIsEmpty(h.queue).0);
    PeekIsStep(n, l, h);
    steps := [Peek(l)];
    FollowsMeans(n, l, h, h1, steps);
    ClockStays(n, l, h, h1, steps);
    if !PollIsEmpty(h.queue).1 && h.outbound.NoOutbound? && !h.establishing {
      var asking := h1.(establishing := true);
      SoundInbound(h1);
      SoundStill(h1, asking);
      NoSteps(Run(n, steps), l, h1, asking);
      FollowsThen(n, l, h, h1, asking, steps, []);
      return steps + [];
    }
    var more := LoopIsSteps(Run(n, steps), l, h1, sink);
    var (h2, turn) := H.OutboundLoop(h1, n.clock, sink);
    FollowsThen(n, l, h, h1, h2, steps, more);
    steps := steps + more;
    FollowsMeans(n, l, h, h2, steps);
    if turn.Report? {
      return;
    }
    var (inbound, got, heard) := H.InboundLoop(h2.inbound, source);
    var h3 := h2.(inbound := inbound, heard := h2.heard + heard);
    R.InboundNeverPoisoned(h2.inbound, source) by { SoundInbound(h2); }
    SoundStill(h2, h3);
    ClockStays(n, l, h, h2, steps);
    NoSteps(Run(n, steps), l, h2, h3);
    FollowsThen(n, l, h, h2, h3, steps, []);
    assert steps + [] == steps;
    FollowsMeans(n, l, h, h3, steps);
    if got.None? {
      StaleIsStep(Run(n, steps), l, h3);
      FollowsThen(n, l, h, h3, H.DropOneStale(h3, n.clock).0, steps, [DropStale(l)]);
      steps := steps + [DropStale(l)];
    }
  }

  lemma AtSound(n: Net, l: Link, h: H.HandlerState)
    requires At(n, l, h)
    ensures H.Sound(h)
  {
    hide H.Sound;
  }

  lemma SoundInbound(h: H.HandlerState)
    requires H.Sound(h)
    ensures h.inbound != H.InboundPoisoned
  {
    hide SendQueue.Valid;
  }

  lemma SoundStill(h: H.HandlerState, h': H.HandlerState)
    requires H.Sound(h)
    requires h' == h.(inbound := h'.inbound, heard := h'.heard, establishing := h'.establishing)
    requires h'.inbound != H.InboundPoisoned && (h'.establishing ==> h.establishing || h.outbound.NoOutbound?)
    ensures H.Sound(h')
  {
    hide SendQueue.Valid;
  }

  // ---- Events ----

  lemma HeadIsStep(n: Net, l: Link, h: H.HandlerState, priority: bool)
    requires NetValid(n) && At(n, l, h) && if priority then h.queue.priorityPeeked else h.queue.forwardPeeked
    ensures h.queue.Valid() && R.Channel(h.queue, priority) != []
    ensures Follows(n, l, h, H.Take(h, DropHead(h.queue, priority), R.Channel(h.queue, priority)[0], H.WithHandler),
                    [DropPeeked(l, priority)])
  {
    hide NetValid, Shifted, SetQueue, CopiesLost, PublishCount;
    var m := R.Channel(h.queue, priority)[0];
    var h' := H.Take(h, DropHead(h.queue, priority), m, H.WithHandler);
    DropHeadValid(h.queue, priority);
    ShiftedOne(n, l, h, h', H.Taken(m, H.WithHandler, |h.queue.priority|));
    OneStep(n, l, h, h', DropPeeked(l, priority));
  }

  /** The receiver goes head by head. */
  lemma ReceiverIsSteps(n: Net, l: Link, h: H.HandlerState) returns (steps: seq<Step>)
    requires NetValid(n) && At(n, l, h)
    ensures var h' := h.(queue := ReceiverGone(h.queue), taken := h.taken + H.HeadsTaken(h.queue));
            Follows(n, l, h, h', steps)
  {
    hide NetValid, Run, Follows, At, H.Sound, PublishCount;
    AtSound(n, l, h);
    H.SoundMeans(h);
    ReceiverGoneDropsHeads(h.queue);
    var h1 := if h.queue.priorityPeeked then H.Take(h, DropHead(h.queue, true), h.queue.priority[0], H.WithHandler)
        else h;
    if h.queue.priorityPeeked {
      steps := [DropPeeked(l, true)];
      HeadIsStep(n, l, h, true);
    } else {
      steps := [];
      NoSteps(n, l, h, h);
    }
    FollowsMeans(n, l, h, h1, steps);
    var n1 := Run(n, steps);
    ClockStays(n, l, h, h1, steps);
    if h1.queue.forwardPeeked {
      var h2 := H.Take(h1, DropHead(h1.queue, false), h1.queue.nonPriority[0], H.WithHandler);
      HeadIsStep(n1, l, h1, false);
      FollowsThen(n, l, h, h1, h2, steps, [DropPeeked(l, false)]);
      steps := steps + [DropPeeked(l, false)];
      assert h2.taken == h.taken + H.HeadsTaken(h.queue);
    } else {
      assert h1.taken == h.taken + H.HeadsTaken(h.queue);
    }
  }

  lemma FollowsSame(n: Net, l: Link, h: H.HandlerState, h': H.HandlerState, g: H.HandlerState, g': H.HandlerState,
                    steps: seq<Step>)
    requires Follows(n, l, h, h', steps) && g.queue == h.queue && g.taken == h.taken
    requires g'.queue == h'.queue && g'.taken == h'.taken && H.Sound(g) && H.Sound(g')
    ensures Follows(n, l, g, g', steps)
  {
    hide NetValid, Run, H.Sound, OnLink;
  }

  /** A disabling takes along what a run of dropped heads loses; any other event leaves link and network alone. */
  lemma EventIsSteps(n: Net, l: Link, h: H.HandlerState, event: H.ConnectionEvent) returns (steps: seq<Step>)
    requires NetValid(n) && At(n, l, h) && (event.IsOutbound() && h.status == H.Enabled ==> h.establishing)
    ensures Follows(n, l, h, H.OnEvent(h, event), steps)
    ensures R.Disables(h, event) || steps == []
  {
    hide NetValid, Run, Follows, At, H.Sound, ReceiverGone, H.HeadsTaken;
    var h' := H.OnEvent(h, event);
    AtSound(n, l, h);
    EventSound(h, event);
    if R.Disables(h, event) {
      steps := ReceiverIsSteps(n, l, h);
      var gone := h.(queue := ReceiverGone(h.queue), taken := h.taken + H.HeadsTaken(h.queue));
      FollowsSame(n, l, h, gone, h, h', steps);
    } else {
      steps := [];
      NoSteps(n, l, h, h');
    }
  }

  lemma EventSound(h: H.HandlerState, event: H.ConnectionEvent)
    requires H.Sound(h) && (event.IsOutbound() && h.status == H.Enabled ==> h.establishing)
    ensures H.Sound(H.OnEvent(h, event))
  {
    hide SendQueue.Valid, H.HeadsTaken, ReceiverGone;
    H.SoundMeans(h);
    ReceiverGoneValid(h.queue);
  }
}

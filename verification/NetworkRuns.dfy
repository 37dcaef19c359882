/** Every step keeps the network well formed, so runs of any length can be taken. */
module NetworkRuns {
  import opened Types
  import opened TimeCache
  import opened Routing
  import opened SendQueues
  import opened Nodes
  import opened NodeFacts
  import opened Networks

  /** The message `out` has for the link, if `v` is its sender. */
  function SaidOn(v: PeerId, out: map<PeerId, RpcOut>, l: Link): Option<RpcOut> {
    if l.from == v then Said(out, l.to) else None
  }

  lemma SpokeNodeValid(node: Node, node': Node, v: PeerId, all: set<PeerId>, out: map<PeerId, RpcOut>)
    requires NodeValid(node, v, all) && node'.Own() == v && Consistent(node'.cache)
    requires Spoke(node.peers, node'.peers, out)
    ensures NodeValid(node', v, all)
  {
    hide Consistent, SendQueue.Valid;
  }

  lemma SamePeersSymmetric(n: Net, n': Net)
    requires Symmetric(n) && n'.nodes.Keys == n.nodes.Keys
    requires forall v :: v in n.nodes ==> n'.nodes[v].peers.Keys == n.nodes[v].peers.Keys
    ensures Symmetric(n')
  {
    forall l {:trigger Connected(n', l)} | Connected(n', l) && l.to in n'.nodes
      ensures Connected(n', Back(l))
    {
      assert Connected(n, l);
    }
  }

  lemma ActValid(n: Net, v: PeerId, node': Node, out: map<PeerId, RpcOut>)
    requires NetValid(n) && v in n.nodes && node'.Own() == v && Consistent(node'.cache)
    requires Spoke(n.nodes[v].peers, node'.peers, out)
    ensures NetValid(Act(n, v, node', out))
  {
    hide NodeValid, Consistent, Took, Symmetric;
    SpokeNodeValid(n.nodes[v], node', v, n.nodes.Keys, out);
    assert Act(n, v, node', out).nodes.Keys == n.nodes.Keys;
    SamePeersSymmetric(n, Act(n, v, node', out));
  }

  lemma QueueNodeValid(node: Node, v: PeerId, all: set<PeerId>, p: PeerId, q: SendQueue)
    requires NodeValid(node, v, all) && p in node.peers && q.Valid() && !q.closed
    ensures NodeValid(node.(peers := node.peers[p := node.peers[p].(queue := q)]), v, all)
  {
    hide Consistent, SendQueue.Valid;
  }

  lemma SetQueueValid(n: Net, l: Link, q: SendQueue)
    requires NetValid(n) && Connected(n, l) && q.Valid() && !q.closed
    ensures NetValid(SetQueue(n, l, q))
  {
    hide NodeValid, SendQueue.Valid, Symmetric;
    QueueNodeValid(n.nodes[l.from], l.from, n.nodes.Keys, l.to, q);
    assert SetQueue(n, l, q).nodes.Keys == n.nodes.Keys;
    SamePeersSymmetric(n, SetQueue(n, l, q));
  }

  lemma NodeFactsOf(n: Net, v: PeerId)
    requires NetValid(n) && v in n.nodes
    ensures Consistent(n.nodes[v].cache) && Calm(n.nodes[v]) && n.nodes[v].Own() == v
  {}

  lemma PublishValid(n: Net, v: PeerId, data: Bytes, order: seq<PeerId>)
    requires NetValid(n) && Enabled(n, PublishAt(v, data, order)) && Consistent(n.nodes[v].cache)
    ensures NetValid(DoPublish(n, v, data, order))
  {
    hide PublishData, Inserted, Spoke, Built, NodeValid, Consistent, Calm, IsOrderOf, Withhold, PublishOut, NetValid;
    NodeFactsOf(n, v);
    var node := n.nodes[v];
    PublishFacts(node, n.clock, data, order);
    SpokeNothing(node.peers);
    var node' := PublishData(node, n.clock, data, order).0.node;
    var out := if PublishesNew(node, data) then PublishOut(node, n.clock, Built(node, data).value, order) else map[];
    ActValid(n, v, node', out);
    SameNodesValid(Act(n, v, node', out), DoPublish(n, v, data, order));
  }

  /** What being handed one message does to a node. */
  ghost predicate Handed(node: Node, node': Node, now: nat, m: RpcOut, source: PeerId, pick: nat,
                         out: map<PeerId, RpcOut>)
    requires Consistent(node.cache)
  {
    && node' == node.(peers := node'.peers, router := node'.router, controller := node'.controller,
                      cache := node'.cache)
    && Consistent(node'.cache)
    && Spoke(node.peers, node'.peers, out)
    && CreditsMove(node.router, node'.router, out)
    && node'.router.disabled == RoutesAfter(node, m, source, pick)
    && node'.cache == (if TransactionId(node, m).Some?
                       then Inserted(node.cache, now, TransactionId(node, m).value, source).0 else node.cache)
  }

  /** The id of a transaction the node looks at. */
  ghost function TransactionId(node: Node, m: RpcOut): Option<TxId> {
    if !m.IsControl() && LooksAtTransactions(node.cfg) then node.cfg.RawId(m.tx) else None
  }

  function RoutesAfter(node: Node, m: RpcOut, source: PeerId, pick: nat): seq<Route> {
    match m
    case HaveTx(id) => RouteCut(node, id, source).disabled
    case ResetRoute => EnableRoute(node.router, source, pick).0.disabled
    case _ => node.router.disabled
  }

  lemma HandedControl(node: Node, now: nat, m: RpcOut, source: PeerId, order: seq<PeerId>, pick: nat)
    requires Consistent(node.cache) && m.IsControl()
    ensures Handed(node, ReceiveRpc(node, now, AsRpc(m), source, order, pick).node, now, m, source, pick,
                   DeliverOut(node, now, m, source, order))
  {
    hide ReceiveRpc, Consistent, EnableRoute, Inserted, Spoke;
    DeliverControl(node, now, m, source, order, pick);
    SpokeNothing(node.peers);
    if m.ResetRoute? {
      EnableRemovesOne(node.router, source, pick);
    }
  }

  lemma HandedTransaction(node: Node, now: nat, m: RpcOut, source: PeerId, order: seq<PeerId>, pick: nat)
    requires Consistent(node.cache) && Calm(node) && source in node.peers && IsOrderOf(order, node.peers.Keys)
    requires !m.IsControl()
    ensures Handed(node, ReceiveRpc(node, now, AsRpc(m), source, order, pick).node, now, m, source, pick,
                   DeliverOut(node, now, m, source, order))
  {
    hide ReceiveTransaction, ReceiveRpc, Consistent, Calm, IsOrderOf, ReceiveOut, Inserted, Spoke;
    DeliverTransaction(node, now, m, source, order, pick);
    if LooksAtTransactions(node.cfg) {
      ReceiveFacts(node, now, m.tx, source, order);
    } else {
      SpokeNothing(node.peers);
    }
  }

  lemma DeliverFacts(n: Net, l: Link, order: seq<PeerId>, pick: nat)
    requires NetValid(n) && Enabled(n, Deliver(l, order, pick)) && Consistent(n.nodes[l.to].cache)
    ensures var node, m := n.nodes[l.to], n.wire[l][0];
            Handed(node, ReceiveRpc(node, n.clock, AsRpc(m), l.from, order, pick).node, n.clock, m, l.from, pick,
                   DeliverOut(node, n.clock, m, l.from, order))
  {
    hide ReceiveRpc, Handed, Consistent, Calm, IsOrderOf, DeliverOut;
    NodeFactsOf(n, l.to);
    var node, m := n.nodes[l.to], n.wire[l][0];
    if m.IsControl() {
      HandedControl(node, n.clock, m, l.from, order, pick);
    } else {
      HandedTransaction(node, n.clock, m, l.from, order, pick);
    }
  }

  lemma DeliverValid(n: Net, l: Link, order: seq<PeerId>, pick: nat)
    requires NetValid(n) && Enabled(n, Deliver(l, order, pick)) && Consistent(n.nodes[l.to].cache)
    ensures NetValid(DoDeliver(n, l, order, pick))
  {
    hide ReceiveRpc, Inserted, Spoke, DeliverOut, RoutesAfter, NodeValid, Consistent, IsOrderOf, FirstTime, Withhold,
         CreditsMove, AllLinks, AsRpc, Symmetric;
    NodeFactsOf(n, l.to);
    var node, m := n.nodes[l.to], n.wire[l][0];
    DeliverFacts(n, l, order, pick);
    var n1 := n.(wire := n.wire[l := n.wire[l][1..]]);
    assert n1.wire.Keys == n.wire.Keys;
    SameNodesValid(n, n1);
    var node' := ReceiveRpc(node, n.clock, AsRpc(m), l.from, order, pick).node;
    var out := DeliverOut(node, n.clock, m, l.from, order);
    ActValid(n1, l.to, node', out);
    SameNodesValid(Act(n1, l.to, node', out), DoDeliver(n, l, order, pick));
  }

  lemma TickValid(n: Net, v: PeerId, choice: Option<PeerId>)
    requires NetValid(n) && Enabled(n, Tick(v, choice))
    ensures NetValid(DoTick(n, v, choice))
  {
    hide AdjustRedundancy, Spoke, AdjustOut, NodeValid, Consistent, Calm;
    NodeFactsOf(n, v);
    AdjustFacts(n.nodes[v], choice);
    ActValid(n, v, AdjustRedundancy(n.nodes[v], choice).node, AdjustOut(n.nodes[v], choice));
  }

  lemma ConnectValid(n: Net, l: Link, c1: ConnectionId, c2: ConnectionId)
    requires NetValid(n) && Enabled(n, Connect(l, c1, c2))
    ensures NetValid(DoConnect(n, l, c1, c2))
  {
    hide NodeValid, Consistent, Established, AllLinks, Symmetric;
    EstablishedValid(n.nodes[l.from], l.from, n.nodes.Keys, l.to, c1);
    EstablishedValid(n.nodes[l.to], l.to, n.nodes.Keys, l.from, c2);
    LinkHasWire(n, l);
    assert DoConnect(n, l, c1, c2).nodes.Keys == n.nodes.Keys;
    assert DoConnect(n, l, c1, c2).wire.Keys == n.wire.Keys;
    ConnectedSymmetric(n, DoConnect(n, l, c1, c2), l);
  }

  lemma ConnectedSymmetric(n: Net, n': Net, l: Link)
    requires Symmetric(n) && Between(n, l) && n'.nodes.Keys == n.nodes.Keys
    requires forall v :: v in n.nodes && v != l.from && v != l.to ==> n'.nodes[v] == n.nodes[v]
    requires n'.nodes[l.from].peers.Keys == n.nodes[l.from].peers.Keys + {l.to}
    requires n'.nodes[l.to].peers.Keys == n.nodes[l.to].peers.Keys + {l.from}
    ensures Symmetric(n')
  {
    forall k {:trigger Connected(n', k)} | Connected(n', k) && k.to in n'.nodes
      ensures Connected(n', Back(k))
    {
      assert Connected(n, k) || k == l || k == Back(l);
    }
  }

  lemma EstablishedValid(node: Node, v: PeerId, all: set<PeerId>, p: PeerId, c: ConnectionId)
    requires NodeValid(node, v, all) && p in all && p != v
    ensures NodeValid(Established(node, p, c), v, all)
    ensures Established(node, p, c).peers.Keys == node.peers.Keys + {p}
  {
    hide Consistent;
  }

  /** One side of a disconnect, told per peer. */
  lemma CloseFacts(node: Node, peer: PeerId, choice: Option<PeerId>)
    requires IsCreditorChoice(node.router, choice)
    ensures var node' := Closed(node, peer, ConnectionId(0), 0, choice).node;
            var rest := node.(router := ResetRoutesWith(node.router, peer).0, peers := node.peers - {peer});
            var out := AdjustOut(rest, choice);
            && Spoke(node.peers - {peer}, node'.peers, out) && peer !in out
            && CreditsMove(node.router, node'.router, out)
            && node' == node.(peers := node'.peers, router := node'.router, controller := node'.controller)
            && node'.router.disabled == Mentioning(node.router.disabled, peer, false)
  {
    hide Mentioning, AdjustRedundancy, AdjustOut;
    var rest := node.(router := ResetRoutesWith(node.router, peer).0, peers := node.peers - {peer});
    assert Creditors(rest.router) == Creditors(node.router);
    AdjustFacts(rest, choice);
  }

  lemma CloseSideValid(n: Net, l: Link, choice: Option<PeerId>)
    requires n.log.Keys == AllLinks(n.nodes.Keys)
    requires forall v :: v in n.nodes ==> NodeValid(n.nodes[v], v, n.nodes.Keys)
    requires Between(n, l) && IsCreditorChoice(n.nodes[l.from].router, choice)
    ensures var n' := CloseSide(n, l, choice);
            && n'.wire == n.wire && n'.log.Keys == AllLinks(n.nodes.Keys)
            && n'.nodes.Keys == n.nodes.Keys
            && (forall v :: v in n'.nodes ==> NodeValid(n'.nodes[v], v, n'.nodes.Keys))
            && (forall v :: v in n'.nodes && v != l.from ==> n'.nodes[v] == n.nodes[v])
            && n'.nodes[l.from].peers.Keys == n.nodes[l.from].peers.Keys - {l.to}
  {
    hide Closed, AdjustOut, CreditsMove, Mentioning, NodeValid, IsCreditorChoice, Took;
    CloseFacts(n.nodes[l.from], l.to, choice);
    CloseNodeValid(n.nodes[l.from], l.from, n.nodes.Keys, l.to, choice);
    assert CloseSide(n, l, choice).nodes.Keys == n.nodes.Keys;
  }

  lemma CloseNodeValid(node: Node, v: PeerId, all: set<PeerId>, peer: PeerId, choice: Option<PeerId>)
    requires NodeValid(node, v, all) && IsCreditorChoice(node.router, choice)
    ensures NodeValid(Closed(node, peer, ConnectionId(0), 0, choice).node, v, all)
  {
    hide Closed, AdjustOut, CreditsMove, Mentioning, Consistent, SendQueue.Valid;
    CloseFacts(node, peer, choice);
    var rest := node.(peers := node.peers - {peer});
    SpokeNodeValid(rest, Closed(node, peer, ConnectionId(0), 0, choice).node, v, all,
                   AdjustOut(node.(router := ResetRoutesWith(node.router, peer).0, peers := node.peers - {peer}),
                             choice));
  }

  lemma NetValidParts(n: Net)
    requires NetValid(n)
    ensures n.wire.Keys == AllLinks(n.nodes.Keys) && n.log.Keys == AllLinks(n.nodes.Keys) && Symmetric(n)
    ensures forall v :: v in n.nodes ==> NodeValid(n.nodes[v], v, n.nodes.Keys)
  {
    hide NodeValid, AllLinks, Symmetric;
  }

  lemma StillSymmetric(n: Net, n': Net, l: Link)
    requires Symmetric(n) && Between(n, l) && n'.nodes.Keys == n.nodes.Keys
    requires forall v :: v in n.nodes && v != l.from && v != l.to ==> n'.nodes[v] == n.nodes[v]
    requires n'.nodes[l.from].peers.Keys == n.nodes[l.from].peers.Keys - {l.to}
    requires n'.nodes[l.to].peers.Keys == n.nodes[l.to].peers.Keys - {l.from}
    ensures Symmetric(n')
  {
    forall k {:trigger Connected(n', k)} | Connected(n', k) && k.to in n'.nodes
      ensures Connected(n', Back(k))
    {
      assert Connected(n, k) && k != l && k != Back(l);
    }
  }

  lemma DisconnectValid(n: Net, l: Link, choiceFrom: Option<PeerId>, choiceTo: Option<PeerId>)
    requires NetValid(n) && Enabled(n, Disconnect(l, choiceFrom, choiceTo))
    ensures NetValid(DoDisconnect(n, l, choiceFrom, choiceTo))
  {
    hide CloseSide, IsCreditorChoice, NodeValid, AllLinks, Symmetric;
    NetValidParts(n);
    CloseSideValid(n, l, choiceFrom);
    CloseSideValid(CloseSide(n, l, choiceFrom), Back(l), choiceTo);
    LinkHasWire(n, l);
    var n' := DoDisconnect(n, l, choiceFrom, choiceTo);
    assert n'.wire.Keys == n.wire.Keys;
    StillSymmetric(n, n', l);
  }

  lemma LinkHasWire(n: Net, l: Link)
    requires NetValid(n) && l.from in n.nodes && l.to in n.nodes
    ensures l in n.wire && Back(l) in n.wire && l in n.log && Back(l) in n.log
  {}

  lemma AllConsistent(n: Net)
    requires NetValid(n)
    ensures forall v :: v in n.nodes ==> Consistent(n.nodes[v].cache)
  {}

  lemma DoValid(n: Net, s: Step)
    requires NetValid(n)
    ensures (forall v :: v in n.nodes ==> Consistent(n.nodes[v].cache)) && NetValid(Do(n, s))
  {
    hide DoPublish, DoDeliver, DoTick, DoConnect, DoDisconnect, SetQueue, CopiesLost, NodeValid, Consistent, NetValid,
         PollNext, PollStale, DoDropPeeked;
    AllConsistent(n);
    if Enabled(n, s) {
      match s
      case PublishAt(v, data, order) => PublishValid(n, v, data, order);
      case Deliver(l, order, pick) => DeliverValid(n, l, order, pick);
      case Tick(v, choice) => TickValid(n, v, choice);
      case Transmit(l) => TransmitValid(n, l);
      case DropStale(l) => DropStaleValid(n, l);
      case Peek(l) =>
        QueueStepsValid(n, l);
        SetQueueValid(n, l, PollIsEmpty(n.nodes[l.from].peers[l.to].queue).0);
      case DropPeeked(l, priority) => DropPeekedValid(n, l, priority);
      case Lose(l, index) => SameNodesValid(n, Do(n, s));
      case Advance(d) => SameNodesValid(n, Do(n, s));
      case Connect(l, c1, c2) => ConnectValid(n, l, c1, c2);
      case Disconnect(l, choiceFrom, choiceTo) => DisconnectValid(n, l, choiceFrom, choiceTo);
    }
  }

  lemma TransmitValid(n: Net, l: Link)
    requires NetValid(n) && Enabled(n, Transmit(l))
    ensures NetValid(DoTransmit(n, l))
  {
    hide NodeValid, PollNext, NetValid, SetQueue, CopiesLost;
    QueueStepsValid(n, l);
    var q := PollNext(n.nodes[l.from].peers[l.to].queue).0;
    SetQueueValid(n, l, q);
    assert SetQueue(n, l, q).wire == n.wire by { SetQueueKeepsWire(n, l, q); }
    SameNodesValid(SetQueue(n, l, q), DoTransmit(n, l));
  }

  lemma SetQueueKeepsWire(n: Net, l: Link, q: SendQueue)
    requires Connected(n, l)
    ensures SetQueue(n, l, q) == n.(nodes := SetQueue(n, l, q).nodes)
  {}

  lemma DropStaleValid(n: Net, l: Link)
    requires NetValid(n) && Connected(n, l)
    ensures NetValid(DoDropStale(n, l))
  {
    hide NodeValid, PollStale, NetValid, CopiesLost;
    QueueStepsValid(n, l);
    var q := PollStale(n.nodes[l.from].peers[l.to].queue, n.clock).0;
    SetQueueValid(n, l, q);
    SameNodesValid(SetQueue(n, l, q), DoDropStale(n, l));
  }

  lemma DropPeekedValid(n: Net, l: Link, priority: bool)
    requires NetValid(n) && Enabled(n, DropPeeked(l, priority))
    ensures NetValid(DoDropPeeked(n, l, priority))
  {
    hide NodeValid, NetValid, CopiesLost, SetQueue;
    QueueFactsOf(n, l);
    var q := n.nodes[l.from].peers[l.to].queue;
    DropHeadValid(q, priority);
    SetQueueValid(n, l, DropHead(q, priority));
    SetQueueKeepsWire(n, l, DropHead(q, priority));
    SameNodesValid(SetQueue(n, l, DropHead(q, priority)), DoDropPeeked(n, l, priority));
  }

  lemma SameNodesValid(n: Net, n': Net)
    requires NetValid(n) && n'.nodes == n.nodes && n'.wire.Keys == n.wire.Keys && n'.log.Keys == n.log.Keys
    ensures NetValid(n')
  {
    hide NodeValid, Symmetric;
    SamePeersSymmetric(n, n');
  }

  lemma QueueFactsOf(n: Net, l: Link)
    requires NetValid(n) && Connected(n, l)
    ensures n.nodes[l.from].peers[l.to].queue.Valid() && !n.nodes[l.from].peers[l.to].queue.closed
    ensures Between(n, l)
  {
    hide Consistent, SendQueue.Valid;
    assert NodeValid(n.nodes[l.from], l.from, n.nodes.Keys);
  }

  lemma QueueStepsValid(n: Net, l: Link)
    requires NetValid(n) && Connected(n, l)
    ensures var q := n.nodes[l.from].peers[l.to].queue;
            && !q.closed && q.Valid()
            && PollNext(q).0.Valid() && !PollNext(q).0.closed
            && PollStale(q, n.clock).0.Valid() && !PollStale(q, n.clock).0.closed
            && PollIsEmpty(q).0.Valid() && !PollIsEmpty(q).0.closed
  {
    hide NetValid;
    QueueFactsOf(n, l);
    var q := n.nodes[l.from].peers[l.to].queue;
    PollNextValid(q);
    PollStaleValid(q, n.clock);
  }

  /** The network after a run. Steps that are not enabled do nothing. */
  ghost function Run(n: Net, steps: seq<Step>): (n': Net)
    requires NetValid(n)
    ensures NetValid(n')
  {
    if steps == [] then n
    else
      var before := Run(n, steps[..|steps| - 1]);
      DoValid(before, steps[|steps| - 1]);
      Do(before, steps[|steps| - 1])
  }

  /** No node ever appears or goes. */
  lemma DoNodes(n: Net, s: Step)
    requires forall v :: v in n.nodes ==> Consistent(n.nodes[v].cache)
    ensures Do(n, s).nodes.Keys == n.nodes.Keys
  {
    hide Consistent, PublishData, ReceiveRpc, AdjustRedundancy, AdjustOut, Closed, Established, PollNext, PollStale,
         PollIsEmpty, DropHead, CopiesLost, Withhold, PublishOut, DeliverOut, FirstTime, PublishesNew, IsOrderOf,
         IsCreditorChoice;
    if IsLinkStep(s) {
      LinkStepNodes(n, s);
    }
  }

  lemma LinkStepNodes(n: Net, s: Step)
    requires IsLinkStep(s) && forall v :: v in n.nodes ==> Consistent(n.nodes[v].cache)
    ensures Do(n, s).nodes.Keys == n.nodes.Keys
  {
    hide PollNext, PollStale, PollIsEmpty, DropHead, CopiesLost, SetQueue, Consistent;
    if Enabled(n, s) && !s.Lose? {
      var l := s.link;
      var q := n.nodes[l.from].peers[l.to].queue;
      match s
      case Transmit(_) => SetQueueNodes(n, l, PollNext(q).0);
      case DropStale(_) => SetQueueNodes(n, l, PollStale(q, n.clock).0);
      case Peek(_) => SetQueueNodes(n, l, PollIsEmpty(q).0);
      case DropPeeked(_, priority) => SetQueueNodes(n, l, DropHead(q, priority));
      case _ =>
    }
  }

  lemma SetQueueNodes(n: Net, l: Link, q: SendQueue)
    requires Connected(n, l)
    ensures SetQueue(n, l, q).nodes.Keys == n.nodes.Keys
  {}

  lemma {:induction false} RunNodes(n: Net, steps: seq<Step>)
    requires NetValid(n)
    ensures Run(n, steps).nodes.Keys == n.nodes.Keys
  {
    hide NetValid, Do;
    if steps != [] {
      var k := |steps| - 1;
      RunNodes(n, steps[..k]);
      DoValid(Run(n, steps[..k]), steps[k]);
      DoNodes(Run(n, steps[..k]), steps[k]);
    }
  }

  /** Nodes as `new` and the handshakes leave them: connected in any symmetric way, nothing sent. */
  ghost predicate Initial(n: Net) {
    && NetValid(n)
    && (forall v :: v in n.nodes ==>
          && n.nodes[v].cache == Cache(0, map[], [], n.nodes[v].cfg.cacheTime)
          && n.nodes[v].router == RouterState([], map[])
          && n.nodes[v].controller ==
               NewController(n.nodes[v].cfg.targetRedundancy, n.nodes[v].cfg.redundancyDeltaPercent)
          && forall p :: p in n.nodes[v].peers ==> n.nodes[v].peers[p].queue == NewQueue(n.nodes[v].cfg.queueLen))
    && (forall l :: l in n.wire ==> n.wire[l] == [])
    && (forall l :: l in n.log ==> n.log[l] == [])
    && n.withheld == map[] && n.lost == {}
  }

  lemma InitialIsValid(n: Net)
    requires Initial(n)
    ensures NetValid(n)
  {
    hide NodeValid;
  }

  lemma InitialInFlight(n: Net, l: Link)
    requires Initial(n)
    ensures InFlight(n, l) == []
  {
    hide NodeValid, NetValid;
  }
}

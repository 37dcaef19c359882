/** The credit a node keeps for a neighbour against the routes that neighbour has disabled. */
module Credit {
  import opened Types
  import opened TimeCache
  import opened Routing
  import opened SendQueues
  import opened Nodes
  import opened NodeFacts
  import opened Networks
  import opened NetworkRuns

  /** The number of disabled routes after a message has been worked off, for a receiver that
      disables a route at every HaveTx. */
  function Apply(k: nat, m: RpcOut): nat {
    match m
    case HaveTx(_) => k + 1
    case ResetRoute => if k > 0 then k - 1 else 0
    case _ => k
  }

  /** The same for everything on a link, head first. */
  function Settle(k: nat, s: seq<RpcOut>): nat {
    if s == [] then k else Apply(Settle(k, s[..|s| - 1]), s[|s| - 1])
  }

  lemma {:induction false} SettleConcat(k: nat, a: seq<RpcOut>, b: seq<RpcOut>)
    ensures Settle(k, a + b) == Settle(Settle(k, a), b)
  {
    if b == [] {
      assert a + b == a;
    } else {
      SettleConcat(k, a, b[..|b| - 1]);
      assert (a + b)[..|a + b| - 1] == a + b[..|b| - 1];
    }
  }

  lemma SettleOne(k: nat, m: RpcOut)
    ensures Settle(k, [m]) == Apply(k, m)
  {
    assert [m][..0] == [];
  }

  lemma {:induction false} SettleTransactions(k: nat, s: seq<RpcOut>)
    requires forall m :: m in s ==> !m.IsControl()
    ensures Settle(k, s) == k
  {
    if s != [] {
      var i := |s| - 1;
      assert s[i] in s;
      assert forall m :: m in s[..i] ==> m in s;
      SettleTransactions(k, s[..i]);
    }
  }

  lemma {:induction false} SettleMonotone(j: nat, k: nat, s: seq<RpcOut>)
    requires j <= k
    ensures Settle(j, s) <= Settle(k, s)
  {
    if s != [] {
      SettleMonotone(j, k, s[..|s| - 1]);
    }
  }

  /** A queue that takes a message settles it last: what follows in the non-priority channel are
      transactions. */
  lemma SettleTook(k: nat, w: seq<RpcOut>, q: SendQueue, q': SendQueue, m: Option<RpcOut>)
    requires q.Valid() && Took(q, q', m)
    ensures Settle(k, w + (q'.priority + q'.nonPriority)) ==
            if m.Some? then Apply(Settle(k, w + (q.priority + q.nonPriority)), m.value)
            else Settle(k, w + (q.priority + q.nonPriority))
  {
    hide PublishCount, Settle;
    var base := w + q.priority;
    assert w + (q.priority + q.nonPriority) == base + q.nonPriority;
    SettleConcat(k, base, q.nonPriority);
    SettleTransactions(Settle(k, base), q.nonPriority);
    if m.Some? {
      SettleConcat(k, base, [m.value]);
      SettleOne(Settle(k, base), m.value);
      if m.value.IsPriority() {
        assert w + (q'.priority + q'.nonPriority) == (base + [m.value]) + q.nonPriority;
        SettleConcat(k, base + [m.value], q.nonPriority);
        SettleTransactions(Settle(k, base + [m.value]), q.nonPriority);
      } else {
        assert w + (q'.priority + q'.nonPriority) == base + q'.nonPriority;
        SettleConcat(k, base, q'.nonPriority);
        SettleTransactions(Settle(k, base), q'.nonPriority);
      }
    } else {
      assert q'.priority == q.priority && q'.nonPriority == q.nonPriority;
    }
  }

  // ---- The invariant ----

  /** Every disabled route leads to a connected peer that is not its own source. */
  ghost predicate TargetsConnected(node: Node) {
    forall route :: route in node.router.disabled ==> route.target in node.peers && route.source != route.target
  }

  /** The routes to `l.from` that `l.to` has disabled, and will have disabled once the link is
      worked off, are covered by the credit `l.from` keeps for `l.to`. */
  ghost predicate Covered(n: Net, l: Link)
    requires Connected(n, l) && l.to in n.nodes
  {
    Settle(CountTo(n.nodes[l.to].router.disabled, l.from), InFlight(n, l)) <= Credit(n.nodes[l.from].router, l.to)
  }

  ghost predicate CreditInvariant(n: Net) {
    && (forall v :: v in n.nodes ==> TargetsConnected(n.nodes[v]))
    && (forall l :: Connected(n, l) && Between(n, l) ==> Covered(n, l))
  }

  /** A node acts. `c0` bounds what its receiver end counts for the link afterwards. */
  lemma ActCovered(n: Net, v: PeerId, node': Node, out: map<PeerId, RpcOut>, l: Link, c0: nat)
    requires NetValid(n) && v in n.nodes && Connected(n, l) && Between(n, l)
    requires Spoke(n.nodes[v].peers, node'.peers, out) && CreditsMove(n.nodes[v].router, node'.router, out)
    requires Settle(c0, InFlight(n, l)) <= Credit(n.nodes[l.from].router, l.to)
    requires CountTo((if l.to == v then node' else n.nodes[l.to]).router.disabled, l.from) <= c0
    ensures Connected(Act(n, v, node', out), l) && Covered(Act(n, v, node', out), l)
  {
    hide NodeValid, Took, SendQueue.Valid, Settle, CountTo, NetValid;
    var n' := Act(n, v, node', out);
    var count := CountTo(n'.nodes[l.to].router.disabled, l.from);
    if l.from == v {
      QueueFactsOf(n, l);
      var w := if l in n.wire then n.wire[l] else [];
      var q, q' := n.nodes[v].peers[l.to].queue, node'.peers[l.to].queue;
      SettleTook(count, w, q, q', Said(out, l.to));
      assert Said(out, l.to) == Said(out, l.to);
    }
    SettleMonotone(count, c0, InFlight(n, l));
  }

  lemma SpokeTargets(node: Node, node': Node, out: map<PeerId, RpcOut>)
    requires TargetsConnected(node) && Spoke(node.peers, node'.peers, out)
    requires node'.router.disabled == node.router.disabled
    ensures TargetsConnected(node')
  {
    hide Took;
  }

  /** A step at one node that leaves its disabled routes alone keeps the invariant. */
  lemma ActKeeps(n: Net, v: PeerId, node': Node, out: map<PeerId, RpcOut>)
    requires NetValid(n) && CreditInvariant(n) && v in n.nodes
    requires Spoke(n.nodes[v].peers, node'.peers, out) && CreditsMove(n.nodes[v].router, node'.router, out)
    requires node'.router.disabled == n.nodes[v].router.disabled
    ensures CreditInvariant(Act(n, v, node', out))
  {
    hide NetValid, NodeValid, Spoke, CreditsMove, TargetsConnected, Covered, Settle, CountTo;
    var n' := Act(n, v, node', out);
    SpokeTargets(n.nodes[v], node', out);
    forall l | Connected(n', l) && Between(n', l)
      ensures Covered(n', l)
    {
      assert Connected(n, l) by { SpokeKeys(n.nodes[v].peers, node'.peers, out); }
      assert Covered(n, l);
      CoveredMeans(n, l);
      ActCovered(n, v, node', out, l, CountTo(n.nodes[l.to].router.disabled, l.from));
    }
  }

  lemma SpokeKeys(peers: map<PeerId, Peer>, peers': map<PeerId, Peer>, out: map<PeerId, RpcOut>)
    requires Spoke(peers, peers', out)
    ensures peers'.Keys == peers.Keys
  {}

  lemma CoveredMeans(n: Net, l: Link)
    requires Connected(n, l) && l.to in n.nodes && Covered(n, l)
    ensures Settle(CountTo(n.nodes[l.to].router.disabled, l.from), InFlight(n, l)) <=
              Credit(n.nodes[l.from].router, l.to)
  {}

  lemma PublishKeeps(n: Net, v: PeerId, data: Bytes, order: seq<PeerId>)
    requires NetValid(n) && CreditInvariant(n) && Enabled(n, PublishAt(v, data, order)) && Consistent(n.nodes[v].cache)
    ensures CreditInvariant(DoPublish(n, v, data, order))
  {
    hide PublishData, Inserted, Spoke, Built, NodeValid, Consistent, Calm, IsOrderOf, Withhold, PublishOut, NetValid,
         CreditInvariant;
    NodeFactsOf(n, v);
    var node := n.nodes[v];
    PublishFacts(node, n.clock, data, order);
    SpokeNothing(node.peers);
    var node' := PublishData(node, n.clock, data, order).0.node;
    var out := if PublishesNew(node, data) then PublishOut(node, n.clock, Built(node, data).value, order) else map[];
    ActKeeps(n, v, node', out);
    SameFlightKeeps(Act(n, v, node', out), DoPublish(n, v, data, order));
  }

  lemma TickKeeps(n: Net, v: PeerId, choice: Option<PeerId>)
    requires NetValid(n) && CreditInvariant(n) && Enabled(n, Tick(v, choice))
    ensures CreditInvariant(DoTick(n, v, choice))
  {
    hide AdjustRedundancy, Spoke, AdjustOut, NodeValid, Consistent, Calm, CreditInvariant, NetValid;
    AdjustFacts(n.nodes[v], choice);
    ActKeeps(n, v, AdjustRedundancy(n.nodes[v], choice).node, AdjustOut(n.nodes[v], choice));
  }

  lemma SameFlightKeeps(n: Net, n': Net)
    requires CreditInvariant(n) && n'.nodes == n.nodes
    requires forall l :: Connected(n, l) && Between(n, l) ==>
               forall k: nat :: Settle(k, InFlight(n', l)) <= Settle(k, InFlight(n, l))
    ensures CreditInvariant(n')
  {
    hide Settle, CountTo, TargetsConnected;
    forall l | Connected(n', l) && Between(n', l)
      ensures Covered(n', l)
    {
      assert Covered(n, l);
    }
  }

  // ---- Delivery ----

  lemma {:induction false} CountAfterCut(node: Node, id: TxId, source: PeerId, p: PeerId)
    ensures CountTo(RouteCut(node, id, source).disabled, p) <= CountTo(node.router.disabled, p) + if p == source then 1
              else 0
  {
    if id in node.cache.values {
      var route := Route(node.cache.values[id], source);
      CountToAppend(node.router.disabled, [route], p);
      CountToOne(route, p);
    }
  }

  /** Working off one message: the receiver's count for the sender moves at most as `Apply` says,
      and its count for anybody else does not grow. */
  lemma CountAfterMessage(node: Node, m: RpcOut, source: PeerId, pick: nat, p: PeerId)
    ensures CountTo(RoutesAfter(node, m, source, pick), p) <=
            if p == source then Apply(CountTo(node.router.disabled, p), m) else CountTo(node.router.disabled, p)
  {
    match m
    case HaveTx(id) => CountAfterCut(node, id, source, p);
    case ResetRoute => EnableRemovesOne(node.router, source, pick);
    case _ =>
  }

  lemma TargetsAfterMessage(node: Node, m: RpcOut, source: PeerId, pick: nat)
    requires TargetsConnected(node) && source in node.peers
    ensures forall route :: route in RoutesAfter(node, m, source, pick) ==>
              route.target in node.peers && route.source != route.target
  {
    if m.ResetRoute? {
      EnableRemovesOne(node.router, source, pick);
      var (r, route) := EnableRoute(node.router, source, pick);
      forall x | x in r.disabled
        ensures x in node.router.disabled
      {
        assert multiset(r.disabled)[x] > 0;
      }
    }
  }

  lemma HandedTargets(node: Node, node': Node, now: nat, m: RpcOut, source: PeerId, pick: nat, out: map<PeerId, RpcOut>)
    requires Consistent(node.cache) && Handed(node, node', now, m, source, pick, out)
    requires TargetsConnected(node) && source in node.peers
    ensures TargetsConnected(node')
  {
    hide Consistent, Inserted, RoutesAfter, CreditsMove, Took;
    TargetsAfterMessage(node, m, source, pick);
  }

  /** The head of a link settles first. */
  lemma HeadSettles(n: Net, l: Link, k: nat)
    requires l in n.wire && n.wire[l] != []
    ensures Settle(k, InFlight(n, l)) ==
              Settle(Apply(k, n.wire[l][0]), InFlight(n.(wire := n.wire[l := n.wire[l][1..]]), l))
  {
    hide Settle, Apply;
    var n1 := n.(wire := n.wire[l := n.wire[l][1..]]);
    assert InFlight(n, l) == [n.wire[l][0]] + InFlight(n1, l);
    SettleConcat(k, [n.wire[l][0]], InFlight(n1, l));
    SettleOne(k, n.wire[l][0]);
  }

  lemma DeliverCovered(n: Net, l: Link, node': Node, out: map<PeerId, RpcOut>, pick: nat, k: Link)
    requires NetValid(n) && CreditInvariant(n) && Between(n, l) && l in n.wire && n.wire[l] != []
    requires Spoke(n.nodes[l.to].peers, node'.peers, out) && CreditsMove(n.nodes[l.to].router, node'.router, out)
    requires node'.router.disabled == RoutesAfter(n.nodes[l.to], n.wire[l][0], l.from, pick)
    requires Connected(n, k) && Between(n, k)
    ensures var n' := Act(n.(wire := n.wire[l := n.wire[l][1..]]), l.to, node', out);
            Connected(n', k) && Covered(n', k)
  {
    hide NodeValid, Spoke, CreditsMove, TargetsConnected, Settle, Apply, CountTo, RoutesAfter, Act;
    var n1 := n.(wire := n.wire[l := n.wire[l][1..]]);
    SameNodesValid(n, n1) by { assert n1.wire.Keys == n.wire.Keys; }
    CoveredMeans(n, k);
    var count := CountTo(n.nodes[k.to].router.disabled, k.from);
    CountAfterMessage(n.nodes[l.to], n.wire[l][0], l.from, pick, k.from);
    if k == l {
      HeadSettles(n, l, count);
      ActCovered(n1, l.to, node', out, k, Apply(count, n.wire[l][0]));
    } else {
      assert InFlight(n1, k) == InFlight(n, k);
      ActCovered(n1, l.to, node', out, k, count);
    }
  }

  lemma DeliverKeeps(n: Net, l: Link, order: seq<PeerId>, pick: nat)
    requires NetValid(n) && CreditInvariant(n) && Enabled(n, Deliver(l, order, pick)) && Consistent(n.nodes[l.to].cache)
    ensures CreditInvariant(DoDeliver(n, l, order, pick))
  {
    hide ReceiveRpc, DeliverOut, RoutesAfter, NodeValid, Consistent, IsOrderOf, FirstTime, Withhold, CreditsMove,
         NetValid, Covered, Spoke, TargetsConnected, Inserted;
    var node, m := n.nodes[l.to], n.wire[l][0];
    DeliverFacts(n, l, order, pick);
    var node' := ReceiveRpc(node, n.clock, AsRpc(m), l.from, order, pick).node;
    var out := DeliverOut(node, n.clock, m, l.from, order);
    HandedTargets(node, node', n.clock, m, l.from, pick, out);
    SpokeKeys(node.peers, node'.peers, out);
    var n' := DoDeliver(n, l, order, pick);
    forall k | Connected(n', k) && Between(n', k)
      ensures Covered(n', k)
    {
      assert Connected(n, k);
      DeliverCovered(n, l, node', out, pick, k);
      SameCovered(Act(n.(wire := n.wire[l := n.wire[l][1..]]), l.to, node', out), n', k);
    }
  }

  lemma SameCovered(n: Net, n': Net, l: Link)
    requires n'.nodes == n.nodes && n'.wire == n.wire && Connected(n, l) && l.to in n.nodes && Covered(n, l)
    ensures Covered(n', l)
  {
    hide Settle, CountTo;
  }

  // ---- Queue and wire ----

  /** The message a transmission takes, and what stays queued. */
  ghost function Taken(n: Net, l: Link): Option<RpcOut>
    requires Connected(n, l)
  {
    var q := n.nodes[l.from].peers[l.to].queue;
    if q.priority != [] then Some(q.priority[0]) else if q.nonPriority != [] then Some(q.nonPriority[0]) else None
  }

  lemma NextIsTaken(q: SendQueue)
    requires !q.closed && PollNext(q).1 != Pending
    ensures var (q', polled) := PollNext(q);
            && polled.Ready? && polled.value.Some?
            && polled.value.value == (if q.priority != [] then q.priority[0] else q.nonPriority[0])
            && q.priority + q.nonPriority == [polled.value.value] + (q'.priority + q'.nonPriority)
  {}

  /** Taking the head of a queue: it goes on the wire, or its time is up and it is dropped. */
  lemma TransmitShape(n: Net, l: Link) returns (m: RpcOut, rest: seq<RpcOut>)
    requires NetValid(n) && Enabled(n, Transmit(l))
    ensures Taken(n, l) == Some(m)
    ensures InFlight(n, l) == n.wire[l] + [m] + rest
    ensures InFlight(DoTransmit(n, l), l) == if m.TimedOut(n.clock) then n.wire[l] + rest else n.wire[l] + [m] + rest
    ensures DoTransmit(n, l).lost == if m.TimedOut(n.clock) then n.lost + CopiesLost(n.nodes[l.from].cfg, l, [m])
              else n.lost
  {
    hide NetValid, SendQueue.Valid, SetQueue, InFlight, CopiesLost, PollNext;
    QueueFactsOf(n, l);
    var q := n.nodes[l.from].peers[l.to].queue;
    NextIsTaken(q);
    var q' := PollNext(q).0;
    m := PollNext(q).1.value.value;
    rest := q'.priority + q'.nonPriority;
    QueueInFlight(n, l, q);
    QueueInFlight(n, l, q');
    SetQueueKeepsWire(n, l, q');
    TransmitInFlight(n, l);
    assert n.wire[l] + ([m] + rest) == n.wire[l] + [m] + rest;
  }

  lemma TransmitInFlight(n: Net, l: Link)
    requires Enabled(n, Transmit(l))
    ensures var (q', polled) := PollNext(n.nodes[l.from].peers[l.to].queue);
            var sent := if polled.Ready? && polled.value.Some? && !polled.value.value.TimedOut(n.clock)
                then [polled.value.value] else [];
            InFlight(DoTransmit(n, l), l) == (n.wire[l] + sent) + Queued(SetQueue(n, l, q'), l)
    ensures Queued(SetQueue(n, l, PollNext(n.nodes[l.from].peers[l.to].queue).0), l)
            == PollNext(n.nodes[l.from].peers[l.to].queue).0.priority
                + PollNext(n.nodes[l.from].peers[l.to].queue).0.nonPriority
  {
    hide PollNext, CopiesLost;
  }

  lemma TransmitSettles(n: Net, l: Link, k: nat)
    requires NetValid(n) && Enabled(n, Transmit(l))
    ensures Settle(k, InFlight(DoTransmit(n, l), l)) == Settle(k, InFlight(n, l))
  {
    hide NetValid, Settle, Apply, InFlight, DoTransmit, Queued;
    var m, rest := TransmitShape(n, l);
    var w := n.wire[l];
    if m.TimedOut(n.clock) {
      SettleConcat(k, w, [m]);
      SettleTransactions(Settle(k, w), [m]);
      SettleConcat(k, w + [m], rest);
      SettleConcat(k, w, rest);
    }
  }

  /** Removing one message other than a ResetRoute never raises what is settled. */
  lemma RemovalSettles(k: nat, a: seq<RpcOut>, m: RpcOut, b: seq<RpcOut>)
    requires m != ResetRoute
    ensures Settle(k, a + b) <= Settle(k, a + [m] + b)
  {
    hide Settle;
    SettleConcat(k, a, b);
    SettleConcat(k, a + [m], b);
    SettleConcat(k, a, [m]);
    SettleOne(Settle(k, a), m);
    SettleMonotone(Settle(k, a), Settle(k, a + [m]), b);
  }

  lemma QueueInFlight(n: Net, l: Link, q: SendQueue)
    requires Connected(n, l)
    ensures InFlight(SetQueue(n, l, q), l) == (if l in n.wire then n.wire[l] else []) + (q.priority + q.nonPriority)
    ensures q == n.nodes[l.from].peers[l.to].queue ==> InFlight(SetQueue(n, l, q), l) == InFlight(n, l)
    ensures forall k :: Connected(n, k) && k != l ==> InFlight(SetQueue(n, l, q), k) == InFlight(n, k)
  {}

  /** `poll_stale` takes at most one message, the head of one channel, and it is a transaction. */
  lemma StaleShape(q: SendQueue, now: nat)
    ensures var (q', r) := PollStale(q, now);
            || (q'.priority == q.priority && q'.nonPriority == q.nonPriority && !(r.Ready? && r.value.Some?))
            || (q.priority != [] && q.priority[0].Publish? && q.priority[0].TimedOut(now) &&
                r == Ready(Some(q.priority[0]))
                && q'.priority == q.priority[1..] && q'.nonPriority == q.nonPriority)
            || (q.nonPriority != [] && q.nonPriority[0].Forward? && q.nonPriority[0].TimedOut(now) &&
                r == Ready(Some(q.nonPriority[0]))
                && q'.priority == q.priority && q'.nonPriority == q.nonPriority[1..])
  {}

  lemma DropStaleSettles(n: Net, l: Link, k: nat)
    requires NetValid(n) && Connected(n, l)
    ensures Settle(k, InFlight(DoDropStale(n, l), l)) <= Settle(k, InFlight(n, l))
  {
    hide NetValid, Settle, Apply, SendQueue.Valid, CopiesLost, PollStale, SetQueue, InFlight;
    var q := n.nodes[l.from].peers[l.to].queue;
    var w := if l in n.wire then n.wire[l] else [];
    var q' := PollStale(q, n.clock).0;
    QueueInFlight(n, l, q');
    QueueInFlight(n, l, q);
    DroppedInFlight(n, l);
    StaleShape(q, n.clock);
    if q'.priority != q.priority {
      assert w + (q.priority + q.nonPriority) == w + [q.priority[0]] + (q'.priority + q'.nonPriority);
      RemovalSettles(k, w, q.priority[0], q'.priority + q'.nonPriority);
    } else if q'.nonPriority != q.nonPriority {
      assert w + (q.priority + q.nonPriority) == (w + q.priority) + [q.nonPriority[0]] + q'.nonPriority;
      assert w + (q'.priority + q'.nonPriority) == (w + q.priority) + q'.nonPriority;
      RemovalSettles(k, w + q.priority, q.nonPriority[0], q'.nonPriority);
    }
  }

  lemma DroppedInFlight(n: Net, l: Link)
    requires Connected(n, l)
    ensures InFlight(DoDropStale(n, l), l) ==
              InFlight(SetQueue(n, l, PollStale(n.nodes[l.from].peers[l.to].queue, n.clock).0), l)
  {
    hide PollStale, CopiesLost;
  }

  lemma LoseSettles(n: Net, l: Link, index: nat, k: nat)
    requires Enabled(n, Lose(l, index)) && n.wire[l][index] != ResetRoute
    ensures Settle(k, InFlight(DoLose(n, l, index), l)) <= Settle(k, InFlight(n, l))
  {
    hide Settle, CopiesLost;
    var w, rest := n.wire[l], Queued(n, l);
    RemovalSettles(k, w[..index], w[index], w[index + 1..] + rest);
    assert InFlight(n, l) == w[..index] + [w[index]] + (w[index + 1..] + rest);
    assert InFlight(DoLose(n, l, index), l) == w[..index] + (w[index + 1..] + rest);
  }

  /** A step that touches only what is between the ends of `l`. */
  lemma LinkStepKeeps(n: Net, n': Net, l: Link)
    requires NetValid(n) && CreditInvariant(n)
    requires n'.nodes.Keys == n.nodes.Keys
    requires forall v :: v in n.nodes ==>
               n'.nodes[v].router == n.nodes[v].router && n'.nodes[v].peers.Keys == n.nodes[v].peers.Keys
    requires forall k :: Connected(n, k) && k != l ==> InFlight(n', k) == InFlight(n, k)
    requires forall c: nat :: Settle(c, InFlight(n', l)) <= Settle(c, InFlight(n, l))
    ensures CreditInvariant(n')
  {
    hide NetValid, Settle, CountTo, InFlight;
    forall k | Connected(n', k) && Between(n', k)
      ensures Covered(n', k)
    {
      assert Connected(n, k);
      CoveredMeans(n, k);
    }
  }

  // ---- Connections ----

  lemma ConnectKeeps(n: Net, l: Link, c1: ConnectionId, c2: ConnectionId)
    requires NetValid(n) && CreditInvariant(n) && Enabled(n, Connect(l, c1, c2))
    ensures CreditInvariant(DoConnect(n, l, c1, c2))
  {
    hide NetValid, Settle, CountTo, NodeValid, Consistent;
    var n' := DoConnect(n, l, c1, c2);
    NotListedBack(n, l);
    forall k | Connected(n', k) && Between(n', k)
      ensures Covered(n', k)
    {
      if k == l || k == Back(l) {
        NewLinkCovered(n, l, c1, c2, k);
      } else {
        assert Connected(n, k) && InFlight(n', k) == InFlight(n, k);
        CoveredMeans(n, k);
      }
    }
  }

  lemma NotListedBack(n: Net, l: Link)
    requires NetValid(n) && Between(n, l) && !Connected(n, l)
    ensures !Connected(n, Back(l))
  {}

  /** Nothing is disabled for a peer that was not connected, and nothing is on its way yet. */
  lemma NewLinkCovered(n: Net, l: Link, c1: ConnectionId, c2: ConnectionId, k: Link)
    requires NetValid(n) && CreditInvariant(n) && Enabled(n, Connect(l, c1, c2)) && (k == l || k == Back(l))
    requires !Connected(n, Back(l))
    ensures Connected(DoConnect(n, l, c1, c2), k) && Covered(DoConnect(n, l, c1, c2), k)
  {
    hide NetValid, NodeValid, Consistent, CountTo;
    var n' := DoConnect(n, l, c1, c2);
    assert InFlight(n', k) == [];
    assert n'.nodes[k.to].router == n.nodes[k.to].router;
    assert TargetsConnected(n.nodes[k.to]);
    CountToZero(n.nodes[k.to].router.disabled, k.from);
  }

  lemma CloseTargets(node: Node, peer: PeerId, choice: Option<PeerId>)
    requires IsCreditorChoice(node.router, choice) && TargetsConnected(node)
    ensures TargetsConnected(Closed(node, peer, ConnectionId(0), 0, choice).node)
  {
    hide Closed, AdjustOut, CreditsMove, Took;
    CloseFacts(node, peer, choice);
  }

  /** After one side has closed, the links of that side to the other peers are still covered, and
      so are all the links that do not touch it. */
  lemma CloseSideCovered(n: Net, l: Link, choice: Option<PeerId>, k: Link)
    requires n.log.Keys == AllLinks(n.nodes.Keys)
    requires forall v :: v in n.nodes ==> NodeValid(n.nodes[v], v, n.nodes.Keys)
    requires Between(n, l) && IsCreditorChoice(n.nodes[l.from].router, choice)
    requires Connected(n, k) && Between(n, k) && k != l && Covered(n, k)
    ensures Connected(CloseSide(n, l, choice), k) && Covered(CloseSide(n, l, choice), k)
  {
    hide Closed, AdjustOut, ResetRoutesWith, Mentioning, NodeValid, Settle, Apply, CountTo, IsCreditorChoice, Took,
         Spoke, CreditsMove;
    var node := n.nodes[l.from];
    CloseFacts(node, l.to, choice);
    CloseSideValid(n, l, choice);
    CoveredMeans(n, k);
    var n' := CloseSide(n, l, choice);
    var rest := node.(router := ResetRoutesWith(node.router, l.to).0, peers := node.peers - {l.to});
    if k.from == l.from {
      ClosedSenderCovered(n, l, choice, k);
    } else {
      assert InFlight(n', k) == InFlight(n, k);
      if k.to == l.from {
        MentioningCount(node.router.disabled, l.to, k.from);
        SettleMonotone(CountTo(n'.nodes[k.to].router.disabled, k.from), CountTo(node.router.disabled, k.from),
                       InFlight(n, k));
      }
    }
  }

  lemma ClosedSenderCovered(n: Net, l: Link, choice: Option<PeerId>, k: Link)
    requires forall v :: v in n.nodes ==> NodeValid(n.nodes[v], v, n.nodes.Keys)
    requires Between(n, l) && IsCreditorChoice(n.nodes[l.from].router, choice)
    requires Connected(n, k) && Between(n, k) && k.from == l.from && k.to != l.to && Covered(n, k)
    ensures Connected(CloseSide(n, l, choice), k) && Covered(CloseSide(n, l, choice), k)
  {
    hide Closed, AdjustOut, Mentioning, Settle, CountTo, IsCreditorChoice, Consistent, Took, SendQueue.Valid;
    var node := n.nodes[l.from];
    CloseFacts(node, l.to, choice);
    var rest := node.(router := ResetRoutesWith(node.router, l.to).0, peers := node.peers - {l.to});
    var out := AdjustOut(rest, choice);
    var n' := CloseSide(n, l, choice);
    assert k.to in rest.peers && rest.peers[k.to] == node.peers[k.to];
    var q, q' := node.peers[k.to].queue, n'.nodes[k.from].peers[k.to].queue;
    assert Took(q, q', Said(out, k.to));
    SettleTook(CountTo(n.nodes[k.to].router.disabled, k.from), if k in n.wire then n.wire[k] else [], q, q',
               Said(out, k.to));
    assert Said(out, k.to) == Said(out, k.to);
  }

  lemma DisconnectKeeps(n: Net, l: Link, choiceFrom: Option<PeerId>, choiceTo: Option<PeerId>, n': Net)
    requires Enabled(n, Disconnect(l, choiceFrom, choiceTo)) && n' == DoDisconnect(n, l, choiceFrom, choiceTo)
    requires NetValid(n) && CreditInvariant(n)
    ensures CreditInvariant(n')
  {
    hide CloseSide, IsCreditorChoice, NodeValid, AllLinks, Covered, Connected, TargetsConnected, NetValid;
    NetValidMeans(n);
    CloseSideValid(n, l, choiceFrom);
    var n1 := CloseSide(n, l, choiceFrom);
    CloseSideValid(n1, Back(l), choiceTo);
    var n2 := CloseSide(n1, Back(l), choiceTo);
    forall v | v in n'.nodes
      ensures TargetsConnected(n'.nodes[v])
    {
      CloseSideTargets(n, l, choiceFrom, v);
      CloseSideTargets(n1, Back(l), choiceTo, v);
    }
    forall k | Connected(n', k) && Between(n', k)
      ensures Covered(n', k)
    {
      DisconnectedLinks(n, l, choiceFrom, choiceTo, k);
      CloseSideCovered(n, l, choiceFrom, k);
      CloseSideCovered(n1, Back(l), choiceTo, k);
      OtherWires(n2, n', l, k);
    }
  }

  lemma NetValidMeans(n: Net)
    requires NetValid(n)
    ensures n.log.Keys == AllLinks(n.nodes.Keys) &&
              (forall v :: v in n.nodes ==> NodeValid(n.nodes[v], v, n.nodes.Keys))
  {
    hide NodeValid;
  }

  lemma CloseSideTargets(n: Net, l: Link, choice: Option<PeerId>, v: PeerId)
    requires Between(n, l) && IsCreditorChoice(n.nodes[l.from].router, choice)
    requires v in n.nodes && TargetsConnected(n.nodes[v])
    ensures v in CloseSide(n, l, choice).nodes && TargetsConnected(CloseSide(n, l, choice).nodes[v])
  {
    hide Closed, TargetsConnected, AdjustOut;
    if v == l.from {
      CloseTargets(n.nodes[v], l.to, choice);
    }
  }

  lemma DisconnectedLinks(n: Net, l: Link, choiceFrom: Option<PeerId>, choiceTo: Option<PeerId>, k: Link)
    requires n.log.Keys == AllLinks(n.nodes.Keys)
    requires forall v :: v in n.nodes ==> NodeValid(n.nodes[v], v, n.nodes.Keys)
    requires Enabled(n, Disconnect(l, choiceFrom, choiceTo))
    requires IsCreditorChoice(CloseSide(n, l, choiceFrom).nodes[l.to].router, choiceTo)
    requires Connected(DoDisconnect(n, l, choiceFrom, choiceTo), k)
    ensures Connected(n, k) && k != l && k != Back(l)
  {
    hide CloseSide, NodeValid, IsCreditorChoice;
    CloseSideValid(n, l, choiceFrom);
    CloseSideValid(CloseSide(n, l, choiceFrom), Back(l), choiceTo);
  }

  lemma OtherWires(n: Net, n': Net, l: Link, k: Link)
    requires n' == n.(wire := n'.wire) && Connected(n, k) && k.to in n.nodes && Covered(n, k)
    requires (if k in n'.wire then n'.wire[k] else []) == (if k in n.wire then n.wire[k] else [])
    ensures Connected(n', k) && Covered(n', k)
  {
    hide Settle, CountTo;
  }

  // ---- Whole runs ----

  ghost predicate LosesReset(n: Net, s: Step) {
    && Enabled(n, s)
    && ((s.Lose? && n.wire[s.link][s.index] == ResetRoute)
        || (s.DropPeeked? && PeekedHead(n, s.link, s.priority) == Some(ResetRoute)))
  }

  /** No ResetRoute is lost on the wire or with a handler in the course of the run. */
  ghost predicate KeepsResets(n: Net, steps: seq<Step>)
    requires NetValid(n)
  {
    steps != [] ==>
      KeepsResets(n, steps[..|steps| - 1]) && !LosesReset(Run(n, steps[..|steps| - 1]), steps[|steps| - 1])
  }

  /** The queue a link step leaves. */
  function QueueAfter(n: Net, s: Step): SendQueue
    requires IsLinkStep(s) && !s.Lose? && s.link.from in n.nodes && s.link.to in n.nodes[s.link.from].peers
  {
    var q := n.nodes[s.link.from].peers[s.link.to].queue;
    match s
    case Transmit(_) => PollNext(q).0
    case DropStale(_) => PollStale(q, n.clock).0
    case Peek(_) => PollIsEmpty(q).0
    case DropPeeked(_, priority) => DropHead(q, priority)
    case _ => q
  }

  /** A peeked head that goes is one message less on the link. */
  lemma DropPeekedShape(n: Net, l: Link, priority: bool) returns (a: seq<RpcOut>, m: RpcOut, b: seq<RpcOut>)
    requires Enabled(n, DropPeeked(l, priority))
    ensures PeekedHead(n, l, priority) == Some(m)
    ensures InFlight(n, l) == a + [m] + b && InFlight(DoDropPeeked(n, l, priority), l) == a + b
    ensures DoDropPeeked(n, l, priority).lost == n.lost + CopiesLost(n.nodes[l.from].cfg, l, [m])
  {
    hide SetQueue, InFlight, CopiesLost;
    var q := n.nodes[l.from].peers[l.to].queue;
    var w := if l in n.wire then n.wire[l] else [];
    m := PeekedHead(n, l, priority).value;
    QueueInFlight(n, l, q);
    QueueInFlight(n, l, DropHead(q, priority));
    DropPeekedInFlight(n, l, priority);
    if priority {
      a, b := w, q.priority[1..] + q.nonPriority;
      assert w + (q.priority + q.nonPriority) == w + [m] + b;
    } else {
      a, b := w + q.priority, q.nonPriority[1..];
      assert w + (q.priority + q.nonPriority) == a + [m] + b;
      assert w + (q.priority + b) == a + b;
    }
  }

  lemma DropPeekedInFlight(n: Net, l: Link, priority: bool)
    requires Enabled(n, DropPeeked(l, priority))
    ensures InFlight(DoDropPeeked(n, l, priority), l) ==
            InFlight(SetQueue(n, l, DropHead(n.nodes[l.from].peers[l.to].queue, priority)), l)
  {
    hide CopiesLost;
  }

  lemma DropPeekedSettles(n: Net, l: Link, priority: bool, k: nat)
    requires Enabled(n, DropPeeked(l, priority)) && PeekedHead(n, l, priority) != Some(ResetRoute)
    ensures Settle(k, InFlight(DoDropPeeked(n, l, priority), l)) <= Settle(k, InFlight(n, l))
  {
    hide Settle, InFlight, DoDropPeeked;
    var a, m, b := DropPeekedShape(n, l, priority);
    RemovalSettles(k, a, m, b);
  }

  lemma OtherLinksUntouched(n: Net, s: Step)
    requires Enabled(n, s) && IsLinkStep(s)
    requires forall v :: v in n.nodes ==> Consistent(n.nodes[v].cache)
    ensures forall k :: Connected(n, k) && k != s.link ==> InFlight(Do(n, s), k) == InFlight(n, k)
    ensures Do(n, s).nodes.Keys == n.nodes.Keys
    ensures forall v :: v in n.nodes ==>
              Do(n, s).nodes[v].router == n.nodes[v].router && Do(n, s).nodes[v].peers.Keys == n.nodes[v].peers.Keys
  {
    hide PollNext, PollStale, CopiesLost, Consistent, SetQueue, InFlight;
    if s.Lose? {
      WireSame(n, Do(n, s), s.link);
    } else {
      var q := QueueAfter(n, s);
      SetQueueKeepsWire(n, s.link, q);
      ElsewhereSame(n, Do(n, s), s.link, q);
    }
  }

  lemma WireSame(n: Net, n': Net, l: Link)
    requires n'.nodes == n.nodes && forall k :: k != l ==>
               (k in n'.wire <==> k in n.wire) && (k in n.wire ==> n'.wire[k] == n.wire[k])
    ensures forall k :: k != l ==> InFlight(n', k) == InFlight(n, k)
  {}

  lemma ElsewhereSame(n: Net, n': Net, l: Link, q: SendQueue)
    requires Connected(n, l) && n'.nodes == SetQueue(n, l, q).nodes
    requires forall k :: k != l ==> (k in n'.wire <==> k in n.wire) && (k in n.wire ==> n'.wire[k] == n.wire[k])
    ensures forall k :: Connected(n, k) && k != l ==> InFlight(n', k) == InFlight(n, k)
    ensures n'.nodes.Keys == n.nodes.Keys
    ensures forall v :: v in n.nodes ==>
              n'.nodes[v].router == n.nodes[v].router && n'.nodes[v].peers.Keys == n.nodes[v].peers.Keys
  {}

  lemma QueueStepKeeps(n: Net, s: Step)
    requires NetValid(n) && CreditInvariant(n) && Enabled(n, s) && IsLinkStep(s)
    requires !LosesReset(n, s) && forall v :: v in n.nodes ==> Consistent(n.nodes[v].cache)
    ensures CreditInvariant(Do(n, s))
  {
    hide NetValid, CreditInvariant, Settle, CountTo, PollNext, PollStale, CopiesLost, Consistent, SetQueue;
    hide InFlight, Do, Enabled, LosesReset;
    OtherLinksUntouched(n, s);
    forall c: nat
      ensures Settle(c, InFlight(Do(n, s), s.link)) <= Settle(c, InFlight(n, s.link))
    {
      QueueStepSettles(n, s, c);
    }
    LinkStepKeeps(n, Do(n, s), s.link);
  }

  lemma QueueStepSettles(n: Net, s: Step, c: nat)
    requires NetValid(n) && Enabled(n, s) && IsLinkStep(s) && !LosesReset(n, s)
    ensures Settle(c, InFlight(Do(n, s), s.link)) <= Settle(c, InFlight(n, s.link))
  {
    hide NetValid, Settle, CountTo, PollNext, PollStale, CopiesLost, SetQueue;
    var l := s.link;
    match s
    case Transmit(_) => TransmitSettles(n, l, c);
    case DropStale(_) => DropStaleSettles(n, l, c);
    case Peek(_) => QueueInFlight(n, l, PollIsEmpty(n.nodes[l.from].peers[l.to].queue).0);
    case DropPeeked(_, priority) => DropPeekedSettles(n, l, priority, c);
    case Lose(_, index) => LoseSettles(n, l, index, c);
  }

  lemma StepKeeps(n: Net, s: Step)
    requires NetValid(n) && CreditInvariant(n) && !LosesReset(n, s)
    requires forall v :: v in n.nodes ==> Consistent(n.nodes[v].cache)
    ensures CreditInvariant(Do(n, s))
  {
    hide DoPublish, DoDeliver, DoTick, DoConnect, DoDisconnect, SetQueue, CopiesLost, NodeValid, Consistent, NetValid,
         PollNext, PollStale, CreditInvariant;
    if Enabled(n, s) {
      match s
      case PublishAt(v, data, order) => PublishKeeps(n, v, data, order);
      case Deliver(l, order, pick) => DeliverKeeps(n, l, order, pick);
      case Tick(v, choice) => TickKeeps(n, v, choice);
      case Transmit(_) => QueueStepKeeps(n, s);
      case DropStale(_) => QueueStepKeeps(n, s);
      case Peek(_) => QueueStepKeeps(n, s);
      case DropPeeked(_, _) => QueueStepKeeps(n, s);
      case Lose(_, _) => QueueStepKeeps(n, s);
      case Advance(d) => AdvanceKeeps(n, d);
      case Connect(l, c1, c2) => ConnectKeeps(n, l, c1, c2);
      case Disconnect(l, choiceFrom, choiceTo) => DisconnectKeeps(n, l, choiceFrom, choiceTo, Do(n, s));
    }
  }

  lemma AdvanceKeeps(n: Net, d: nat)
    requires CreditInvariant(n)
    ensures CreditInvariant(n.(clock := n.clock + d))
  {
    hide Settle, CountTo, TargetsConnected;
    var n' := n.(clock := n.clock + d);
    forall l | Connected(n', l) && Between(n', l)
      ensures Covered(n', l)
    {
      assert Connected(n, l) && Covered(n, l);
    }
  }

  lemma InitialCovered(n: Net)
    requires Initial(n)
    ensures CreditInvariant(n)
  {
    hide NetValid;
    forall l | Connected(n, l) && Between(n, l)
      ensures Covered(n, l)
    {
      InitialInFlight(n, l);
    }
  }

  /** In every run, with churn, expiry and losses of anything but a ResetRoute, the credit of every
      connected link covers what the other end has disabled and is about to disable. */
  lemma {:induction false} CreditCoversDisabledRoutes(n: Net, steps: seq<Step>)
    requires Initial(n) && KeepsResets(n, steps)
    ensures CreditInvariant(Run(n, steps))
  {
    hide CreditInvariant, Initial, NetValid, Do, LosesReset;
    assert NetValid(n) by { InitialIsValid(n); }
    if steps == [] {
      InitialCovered(n);
    } else {
      CreditCoversDisabledRoutes(n, steps[..|steps| - 1]);
      DoValid(Run(n, steps[..|steps| - 1]), steps[|steps| - 1]);
      StepKeeps(Run(n, steps[..|steps| - 1]), steps[|steps| - 1]);
    }
  }

  /** If a node finds nobody to ask for a route back while none of its control messages is on its
      way, then no neighbour has any route to it disabled. */
  lemma NobodyToAskMeansNothingDisabled(n: Net, steps: seq<Step>, l: Link, source: PeerId)
    requires Initial(n) && KeepsResets(n, steps)
    requires Connected(Run(n, steps), l) && Between(Run(n, steps), l)
    requires forall m :: m in InFlight(Run(n, steps), l) ==> !m.IsControl()
    requires Creditors(Run(n, steps).nodes[l.from].router) == {}
    ensures Valid(Run(n, steps).nodes[l.to].router, source, l.from)
  {
    hide Initial, NetValid, KeepsResets;
    InitialIsValid(n);
    CreditCoversDisabledRoutes(n, steps);
    var n' := Run(n, steps);
    var count := CountTo(n'.nodes[l.to].router.disabled, l.from);
    assert Covered(n', l);
    SettleTransactions(count, InFlight(n', l));
    assert l.to !in Creditors(n'.nodes[l.from].router);
    CountToZero(n'.nodes[l.to].router.disabled, l.from);
  }

  // ---- Targets of disabled routes ----

  ghost predicate AllTargetsConnected(n: Net) {
    forall v :: v in n.nodes ==> TargetsConnected(n.nodes[v])
  }

  lemma PublishTargets(n: Net, v: PeerId, data: Bytes, order: seq<PeerId>)
    requires NetValid(n) && AllTargetsConnected(n) && Enabled(n, PublishAt(v, data, order))
    requires Consistent(n.nodes[v].cache)
    ensures AllTargetsConnected(DoPublish(n, v, data, order))
  {
    hide PublishData, Inserted, Built, NodeValid, Consistent, Calm, IsOrderOf, Withhold, PublishOut, NetValid, Took;
    NodeFactsOf(n, v);
    PublishFacts(n.nodes[v], n.clock, data, order);
  }

  lemma DeliverTargets(n: Net, l: Link, order: seq<PeerId>, pick: nat)
    requires NetValid(n) && AllTargetsConnected(n) && Enabled(n, Deliver(l, order, pick))
    requires Consistent(n.nodes[l.to].cache)
    ensures AllTargetsConnected(DoDeliver(n, l, order, pick))
  {
    hide ReceiveRpc, DeliverOut, Handed, NodeValid, Consistent, IsOrderOf, FirstTime, Withhold, NetValid,
         TargetsConnected;
    var node, m := n.nodes[l.to], n.wire[l][0];
    DeliverFacts(n, l, order, pick);
    HandedTargets(node, ReceiveRpc(node, n.clock, AsRpc(m), l.from, order, pick).node, n.clock, m, l.from, pick,
                  DeliverOut(node, n.clock, m, l.from, order));
  }

  lemma StepTargets(n: Net, s: Step)
    requires NetValid(n) && AllTargetsConnected(n) && forall v :: v in n.nodes ==> Consistent(n.nodes[v].cache)
    ensures AllTargetsConnected(Do(n, s))
  {
    hide DoPublish, DoDeliver, AdjustRedundancy, AdjustOut, Closed, CopiesLost, NodeValid, Consistent, NetValid,
         PollNext, PollStale, CloseSide, TargetsConnected, Established;
    if Enabled(n, s) {
      match s
      case PublishAt(v, data, order) => PublishTargets(n, v, data, order);
      case Deliver(l, order, pick) => DeliverTargets(n, l, order, pick);
      case Tick(v, choice) => TickTargets(n.nodes[v], choice);
      case Transmit(l) => QueueTargets(n, l, PollNext(n.nodes[l.from].peers[l.to].queue).0);
      case DropStale(l) => QueueTargets(n, l, PollStale(n.nodes[l.from].peers[l.to].queue, n.clock).0);
      case Peek(l) => QueueTargets(n, l, PollIsEmpty(n.nodes[l.from].peers[l.to].queue).0);
      case DropPeeked(l, priority) => QueueTargets(n, l, DropHead(n.nodes[l.from].peers[l.to].queue, priority));
      case Lose(_, _) =>
      case Advance(_) =>
      case Connect(l, c1, c2) =>
        EstablishedTargets(n.nodes[l.from], l.to, c1);
        EstablishedTargets(n.nodes[l.to], l.from, c2);
      case Disconnect(l, choiceFrom, choiceTo) => DisconnectTargets(n, l, choiceFrom, choiceTo);
    }
  }

  lemma TickTargets(node: Node, choice: Option<PeerId>)
    requires TargetsConnected(node) && IsCreditorChoice(node.router, choice)
    ensures TargetsConnected(AdjustRedundancy(node, choice).node)
  {
    hide AdjustRedundancy, AdjustOut, TargetsConnected, CreditsMove, Spoke;
    AdjustFacts(node, choice);
    SpokeTargets(node, AdjustRedundancy(node, choice).node, AdjustOut(node, choice));
  }

  lemma QueueTargets(n: Net, l: Link, q: SendQueue)
    requires AllTargetsConnected(n) && Connected(n, l)
    ensures AllTargetsConnected(SetQueue(n, l, q))
  {}

  lemma EstablishedTargets(node: Node, peer: PeerId, c: ConnectionId)
    requires TargetsConnected(node)
    ensures TargetsConnected(Established(node, peer, c))
  {}

  lemma DisconnectTargets(n: Net, l: Link, choiceFrom: Option<PeerId>, choiceTo: Option<PeerId>)
    requires Enabled(n, Disconnect(l, choiceFrom, choiceTo)) && AllTargetsConnected(n)
    ensures AllTargetsConnected(DoDisconnect(n, l, choiceFrom, choiceTo))
  {
    hide Closed, TargetsConnected, AdjustOut;
    CloseTargets(n.nodes[l.from], l.to, choiceFrom);
    CloseTargets(n.nodes[l.to], l.from, choiceTo);
  }

  /** In every run every disabled route leads to a connected peer and never back to its source, so
      that a peer that has just connected is a valid target from every source. */
  lemma {:induction false} DisabledRoutesLeadToPeers(n: Net, steps: seq<Step>, v: PeerId)
    requires Initial(n) && v in Run(n, steps).nodes
    ensures forall route :: route in Run(n, steps).nodes[v].router.disabled ==>
              route.target in Run(n, steps).nodes[v].peers && route.source != route.target
    ensures forall p, source :: p !in Run(n, steps).nodes[v].peers ==> Valid(Run(n, steps).nodes[v].router, source, p)
  {
    hide Initial;
    InitialIsValid(n);
    RunTargets(n, steps);
    assert TargetsConnected(Run(n, steps).nodes[v]);
  }

  lemma {:induction false} RunTargets(n: Net, steps: seq<Step>)
    requires Initial(n)
    ensures AllTargetsConnected(Run(n, steps))
  {
    hide NetValid, Do, AllTargetsConnected;
    InitialIsValid(n);
    if steps == [] {
      InitialTargets(n);
    } else {
      RunTargets(n, steps[..|steps| - 1]);
      DoValid(Run(n, steps[..|steps| - 1]), steps[|steps| - 1]);
      StepTargets(Run(n, steps[..|steps| - 1]), steps[|steps| - 1]);
    }
  }

  lemma InitialTargets(n: Net)
    requires Initial(n)
    ensures AllTargetsConnected(n)
  {
    hide NetValid;
  }
}

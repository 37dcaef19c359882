/** Several messages in one RPC, several connections to one peer. */
module NodeLives {
  import opened Types
  import opened TimeCache
  import opened Routing
  import opened SendQueues
  import opened Nodes
  import opened NodeFacts
  import opened ControlBudget
  import opened NodeReports

  // ---- An RPC is its messages, one by one ----

  /** The node after RPCs with one message each. */
  ghost function OneByOne(n: Node, now: nat, msgs: seq<RpcOut>, source: PeerId, order: seq<PeerId>,
                          pick: nat): (n': Node)
    requires Consistent(n.cache)
    ensures Consistent(n'.cache)
  {
    if msgs == [] then n
    else
      ReceiveRpc(OneByOne(n, now, msgs[..|msgs| - 1], source, order, pick), now, AsRpc(msgs[|msgs| - 1]), source, order,
                 pick).node
  }

  function AsForwards(txs: seq<RawTransaction>): seq<RpcOut> {
    if txs == [] then [] else AsForwards(txs[..|txs| - 1]) + [RpcOut.Forward(txs[|txs| - 1], 0)]
  }

  function AsHaveTxs(msgs: seq<ControlAction>): seq<RpcOut> {
    if msgs == [] then []
    else
      var last := msgs[|msgs| - 1];
      AsHaveTxs(msgs[..|msgs| - 1]) + if last.HaveTxMsg? then [HaveTx(last.id)] else []
  }

  lemma OneMore(n: Node, now: nat, msgs: seq<RpcOut>, m: RpcOut, source: PeerId, order: seq<PeerId>, pick: nat)
    requires Consistent(n.cache)
    ensures OneByOne(n, now, msgs + [m], source, order, pick) ==
            ReceiveRpc(OneByOne(n, now, msgs, source, order, pick), now, AsRpc(m), source, order, pick).node
  {
    hide ReceiveRpc, Consistent;
    assert (msgs + [m])[..|msgs|] == msgs;
  }

  lemma {:induction false} OneByOneThen(n: Node, now: nat, a: seq<RpcOut>, b: seq<RpcOut>, source: PeerId,
                                        order: seq<PeerId>, pick: nat)
    requires Consistent(n.cache)
    ensures OneByOne(n, now, a + b, source, order, pick) ==
            OneByOne(OneByOne(n, now, a, source, order, pick), now, b, source, order, pick)
  {
    hide ReceiveRpc, Consistent;
    if b == [] {
      assert a + b == a;
    } else {
      var k := |b| - 1;
      OneByOneThen(n, now, a, b[..k], source, order, pick);
      assert (a + b)[..|a + b| - 1] == a + b[..k];
    }
  }

  lemma {:induction false} TransactionsOneByOne(n: Node, now: nat, txs: seq<RawTransaction>, source: PeerId,
                                                order: seq<PeerId>, pick: nat)
    requires Consistent(n.cache) && LooksAtTransactions(n.cfg)
    ensures var n' := ReceiveTransactions(n, now, txs, source, order).node;
            n' == OneByOne(n, now, AsForwards(txs), source, order, pick) && n'.cfg == n.cfg
  {
    hide ReceiveTransaction, ReceiveTransactions, ReceiveRpc, OneByOne, Consistent;
    if txs == [] {
      NothingReceived(n, now, source, order);
      NothingOneByOne(n, now, source, order, pick);
    } else {
      var k := |txs| - 1;
      var n1 := ReceiveTransactions(n, now, txs[..k], source, order).node;
      TransactionsOneByOne(n, now, txs[..k], source, order, pick);
      LastReceived(n, now, txs, source, order);
      ReceiveReports(n1, now, txs[k], source, order);
      DeliverTransaction(n1, now, RpcOut.Forward(txs[k], 0), source, order, pick);
      OneMore(n, now, AsForwards(txs[..k]), RpcOut.Forward(txs[k], 0), source, order, pick);
    }
  }

  lemma NothingOneByOne(n: Node, now: nat, source: PeerId, order: seq<PeerId>, pick: nat)
    requires Consistent(n.cache)
    ensures OneByOne(n, now, [], source, order, pick) == n
  {}

  /** The routes disabled by the HaveTx of an RPC, and nothing else. */
  lemma {:induction false} HaveTxOneByOne(n: Node, now: nat, msgs: seq<ControlAction>, source: PeerId,
                                          order: seq<PeerId>, pick: nat)
    requires Consistent(n.cache)
    ensures OneByOne(n, now, AsHaveTxs(msgs), source, order, pick) ==
            if n.cfg.ignoreHaveTx then n
            else n.(router := DisableRoutes(n.router, n.cache.values, HaveTxIds(msgs), source))
  {
    hide ReceiveRpc, OneByOne, Consistent;
    if msgs == [] {
      NothingOneByOne(n, now, source, order, pick);
    } else {
      var k := |msgs| - 1;
      HaveTxOneByOne(n, now, msgs[..k], source, order, pick);
      if msgs[k].HaveTxMsg? {
        var id := msgs[k].id;
        var n1 := OneByOne(n, now, AsHaveTxs(msgs[..k]), source, order, pick);
        OneMore(n, now, AsHaveTxs(msgs[..k]), HaveTx(id), source, order, pick);
        DeliverControl(n1, now, HaveTx(id), source, order, pick);
        assert (HaveTxIds(msgs[..k]) + [id])[..|HaveTxIds(msgs[..k])|] == HaveTxIds(msgs[..k]);
      } else {
        assert AsHaveTxs(msgs) == AsHaveTxs(msgs[..k]) && HaveTxIds(msgs) == HaveTxIds(msgs[..k]);
      }
    }
  }

  /** The routes that HaveTx messages from `source` cut: one for each id cached with another source. */
  function Cuts(values: map<TxId, PeerId>, ids: seq<TxId>, source: PeerId): seq<Route> {
    if ids == [] then []
    else
      var id := ids[|ids| - 1];
      Cuts(values, ids[..|ids| - 1], source)
      + if id in values && values[id] != source then [Route(values[id], source)] else []
  }

  /** They go to the end of the list, in the order of the messages. */
  lemma {:induction false} CutsComeLast(r: RouterState, values: map<TxId, PeerId>, ids: seq<TxId>, source: PeerId)
    ensures DisableRoutes(r, values, ids, source) == r.(disabled := r.disabled + Cuts(values, ids, source))
  {
    if ids == [] {
      assert r.disabled + [] == r.disabled;
    } else {
      CutsComeLast(r, values, ids[..|ids| - 1], source);
    }
  }

  /** An RPC does to a node what its messages do one by one: the transactions it is allowed to bring, every HaveTx
      in its order, and a single reset however many there are. */
  lemma RpcIsItsMessages(n: Node, now: nat, rpc: Rpc, source: PeerId, order: seq<PeerId>, pick: nat)
    requires Consistent(n.cache)
    ensures var limit := match n.cfg.maxTransactionsPerRpc case None => |rpc.transactions| case Some(m) => m;
            var seen := if limit < |rpc.transactions| then rpc.transactions[..limit] else rpc.transactions;
            ReceiveRpc(n, now, rpc, source, order, pick).node ==
            OneByOne(n, now,
                     AsForwards(seen) + AsHaveTxs(rpc.controlMsgs)
                     + (if ResetRouteMsg in rpc.controlMsgs then [ResetRoute] else []),
                     source, order, pick)
  {
    hide ReceiveTransactions, DisableRoutes, OneByOne, Consistent, EnableRoute, HaveTxIds, AsHaveTxs, AsForwards;
    var txs, msgs := Permitted(n.cfg, rpc.transactions), rpc.controlMsgs;
    var n1 := ReceiveTransactions(n, now, txs, source, order).node;
    if LooksAtTransactions(n.cfg) {
      TransactionsOneByOne(n, now, txs, source, order, pick);
    } else {
      NothingReceived(n, now, source, order);
      NothingOneByOne(n, now, source, order, pick);
      assert AsForwards([]) == [] by { NoForwards(); }
    }
    HaveTxOneByOne(n1, now, msgs, source, order, pick);
    NoneDisabled(n1.router, n1.cache.values, source);
    OneByOneThen(n, now, AsForwards(txs), AsHaveTxs(msgs), source, order, pick);
    var both := AsForwards(txs) + AsHaveTxs(msgs);
    var n2 := OneByOne(n, now, both, source, order, pick);
    if ResetRouteMsg in msgs {
      OneMore(n, now, both, ResetRoute, source, order, pick);
      DeliverControl(n2, now, ResetRoute, source, order, pick);
    } else {
      assert both + [] == both;
    }
  }

  lemma NoForwards()
    ensures AsForwards([]) == []
  {}

  lemma NoneDisabled(r: RouterState, values: map<TxId, PeerId>, source: PeerId)
    ensures DisableRoutes(r, values, [], source) == r
  {}

  // ---- Connections ----

  /** A further connection to a peer leaves its queue alone; the first one gives it a new queue; and no other peer
      is touched. */
  lemma ConnectingMeans(n: Node, peer: PeerId, connection: ConnectionId)
    ensures var n' := Established(n, peer, connection);
            && n' == n.(peers := n'.peers) && n'.peers.Keys == n.peers.Keys + {peer}
            && (forall p :: p in n.peers ==> n'.peers[p].queue == n.peers[p].queue)
            && (forall p :: p in n.peers && p != peer ==> n'.peers[p] == n.peers[p])
            && (peer !in n.peers ==> n'.peers[peer] == Peer([connection], NewQueue(n.cfg.queueLen)))
  {}

  lemma {:induction false} WithoutMeans<T>(s: seq<T>, x: T, y: T)
    ensures multiset(Without(s, x))[y] == if y == x then 0 else multiset(s)[y]
  {
    if s != [] {
      var k := |s| - 1;
      assert s == s[..k] + [s[k]];
      WithoutMeans(s[..k], x, y);
    }
  }

  /** The open connections to a peer, told from the calls: none once the last one has closed. */
  function OpenTo(calls: seq<Call>, peer: PeerId): Option<seq<ConnectionId>> {
    if calls == [] then None
    else
      var before := OpenTo(calls[..|calls| - 1], peer);
      match calls[|calls| - 1]
      case Connect(p, c) => if p == peer then Some((if before.Some? then before.value else []) + [c]) else before
      case Close(p, c, remaining, _) =>
        if p != peer then before
        else if remaining == 0 then None
        else if before.Some? then Some(Without(before.value, c))
        else before
      case _ => before
  }

  ghost predicate PeersAre(n: Node, calls: seq<Call>) {
    forall p :: (p in n.peers <==> OpenTo(calls, p).Some?)
                && (p in n.peers ==> n.peers[p].connections == OpenTo(calls, p).value)
  }

  ghost predicate SameConnections(peers: map<PeerId, Peer>, peers': map<PeerId, Peer>) {
    peers'.Keys == peers.Keys && forall p :: p in peers ==> peers'[p].connections == peers[p].connections
  }

  lemma {:induction false} OffersKeepConnections(peers: map<PeerId, Peer>, targets: seq<PeerId>, rpc: RpcOut)
    ensures SameConnections(peers, OfferAll(peers, targets, rpc))
  {
    hide TrySend;
    if targets != [] {
      OffersKeepConnections(peers, targets[..|targets| - 1], rpc);
    }
  }

  lemma OfferKeepsConnections(peers: map<PeerId, Peer>, p: PeerId, rpc: RpcOut)
    ensures SameConnections(peers, OfferTo(peers, p, rpc))
  {
    hide TrySend;
  }

  lemma ReceiveKeepsConnections(n: Node, now: nat, raw: RawTransaction, source: PeerId, order: seq<PeerId>)
    requires Consistent(n.cache)
    ensures SameConnections(n.peers, ReceiveTransaction(n, now, raw, source, order).node.peers)
  {
    hide Inserted, OfferAll, OfferTo, Accepts, SentEvents, FilterValid, ForwardCandidates, SameConnections;
    NoOffer(n.peers);
    if n.cfg.inbound(raw).Some? {
      OfferKeepsConnections(n.peers, source, HaveTx(n.cfg.transactionId(n.cfg.inbound(raw).value)));
      OffersKeepConnections(n.peers, FilterValid(n.router, source, ForwardCandidates(order, source, raw.from)),
                            RpcOut.Forward(raw, now + n.cfg.forwardDuration));
    }
  }

  lemma NoOffer(peers: map<PeerId, Peer>)
    ensures SameConnections(peers, peers)
  {}

  lemma {:induction false} ReceiveAllKeepsConnections(n: Node, now: nat, txs: seq<RawTransaction>, source: PeerId,
                                                      order: seq<PeerId>)
    requires Consistent(n.cache)
    ensures SameConnections(n.peers, ReceiveTransactions(n, now, txs, source, order).node.peers)
  {
    hide ReceiveTransaction, Consistent;
    if txs != [] {
      var k := |txs| - 1;
      ReceiveAllKeepsConnections(n, now, txs[..k], source, order);
      ReceiveKeepsConnections(ReceiveTransactions(n, now, txs[..k], source, order).node, now, txs[k], source, order);
    }
  }

  lemma RpcKeepsConnections(n: Node, now: nat, rpc: Rpc, source: PeerId, order: seq<PeerId>, pick: nat)
    requires Consistent(n.cache)
    ensures SameConnections(n.peers, ReceiveRpc(n, now, rpc, source, order, pick).node.peers)
  {
    hide ReceiveTransactions, DisableRoutes, HaveTxReceivedEvents, EnableRoute, HaveTxIds, Permitted, Consistent,
         SameConnections;
    ReceiveAllKeepsConnections(n, now, Permitted(n.cfg, rpc.transactions), source, order);
  }

  lemma PublishKeepsConnections(n: Node, now: nat, data: Bytes, order: seq<PeerId>)
    requires Consistent(n.cache)
    ensures SameConnections(n.peers, PublishData(n, now, data, order).0.node.peers)
  {
    hide Inserted, OfferAll, SentEvents, AnyAccepts, FilterValid, SameConnections;
    NoOffer(n.peers);
    var targets := FilterValid(n.router, n.Own(), order);
    forall rpc: RpcOut
      ensures SameConnections(n.peers, OfferAll(n.peers, targets, rpc))
    {
      OffersKeepConnections(n.peers, targets, rpc);
    }
  }

  lemma AdjustKeepsConnections(n: Node, choice: Option<PeerId>)
    ensures SameConnections(n.peers, AdjustRedundancy(n, choice).node.peers)
  {
    hide Evaluate, OfferTo, Accepts, SameConnections;
    NoOffer(n.peers);
    if choice.Some? {
      OfferKeepsConnections(n.peers, choice.value, ResetRoute);
    }
  }

  lemma CallConnections(n: Node, calls: seq<Call>, call: Call)
    requires Consistent(n.cache) && PeersAre(n, calls) && Possible(n, call)
    ensures PeersAre(Answer(n, call).node, calls + [call])
  {
    hide PublishData, ReceiveRpc, AdjustRedundancy, Mentioning, Consistent, NewQueue, Without, IsCreditorChoice;
    assert (calls + [call])[..|calls|] == calls;
    match call
    case Publish(now, data, order) => PublishKeepsConnections(n, now, data, order);
    case Receive(now, rpc, source, order, pick) => RpcKeepsConnections(n, now, rpc, source, order, pick);
    case Adjust(choice) => AdjustKeepsConnections(n, choice);
    case Close(peer, connection, remaining, choice) =>
      if remaining == 0 {
        AdjustKeepsConnections(n.(router := ResetRoutesWith(n.router, peer).0, peers := n.peers - {peer}), choice);
      }
    case _ =>
  }

  /** The random outcomes of a life are possible ones. */
  ghost predicate AllPossible(cfg: Config, publishConfig: PublishConfig, calls: seq<Call>) {
    forall i :: 0 <= i < |calls| ==> Possible(After(cfg, publishConfig, calls[..i]).0, calls[i])
  }

  /** Over any life the connected peers are those with an open connection, each with its open connections. */
  lemma {:induction false} ConnectionsAreOpen(cfg: Config, publishConfig: PublishConfig, calls: seq<Call>)
    requires AllPossible(cfg, publishConfig, calls)
    ensures PeersAre(After(cfg, publishConfig, calls).0, calls)
  {
    hide Answer, Entered, Possible, PeersAre;
    if calls == [] {
      NobodyYet(cfg, publishConfig);
    } else {
      var k := |calls| - 1;
      forall i | 0 <= i < k
        ensures Possible(After(cfg, publishConfig, calls[..k][..i]).0, calls[..k][i])
      {
        assert calls[..k][..i] == calls[..i];
      }
      ConnectionsAreOpen(cfg, publishConfig, calls[..k]);
      assert Possible(After(cfg, publishConfig, calls[..k]).0, calls[k]);
      CallConnections(After(cfg, publishConfig, calls[..k]).0, calls[..k], calls[k]);
      assert calls[..k] + [calls[k]] == calls;
    }
  }

  lemma NobodyYet(cfg: Config, publishConfig: PublishConfig)
    ensures PeersAre(NewNode(cfg, publishConfig), [])
  {}
}

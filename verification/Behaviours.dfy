/** The behaviour object of behaviour.rs. Its methods keep the branches, the early returns and the
    loops of the source and are proved against the functions of Nodes. The iteration order of the
    peer map, the clock and the outcome of each random choice are parameters. */
module Behaviours {
  import opened Types
  import opened TimeCache
  import opened Routing
  import opened SendQueues
  import opened Nodes

  lemma {:induction false} OfferAllKeepsKeys(peers: map<PeerId, Peer>, targets: seq<PeerId>, rpc: RpcOut)
    ensures OfferAll(peers, targets, rpc).Keys == peers.Keys
    ensures |OfferAll(peers, targets, rpc)| == |peers|
  {
    if targets != [] {
      OfferAllKeepsKeys(peers, targets[..|targets| - 1], rpc);
    }
    assert |OfferAll(peers, targets, rpc)| == |OfferAll(peers, targets, rpc).Keys| && |peers| == |peers.Keys|;
  }

  lemma ReceiveOneMore(n: Node, now: nat, txs: seq<RawTransaction>, k: nat, source: PeerId, order: seq<PeerId>)
    requires Consistent(n.cache) && k < |txs|
    ensures var e := ReceiveTransactions(n, now, txs[..k], source, order);
            var e' := ReceiveTransaction(e.node, now, txs[k], source, order);
            ReceiveTransactions(n, now, txs[..k + 1], source, order) == Effect(e'.node, e.events + e'.events)
  {
    assert txs[..k + 1][..k] == txs[..k];
  }

  lemma NothingOffered(peers: map<PeerId, Peer>, rpc: RpcOut, id: TxId, tx: Transaction)
    ensures OfferAll(peers, [], rpc) == peers && SentEvents(peers, [], rpc, id, tx) == []
  {}

  class Behaviour {
    const config: Config
    var events: seq<Event>
    var publishConfig: PublishConfig
    var connectedPeers: map<PeerId, Peer>
    const controller: Controller
    const router: Router
    const cache: DuplicateCache<TxId, PeerId>

    ghost function State(): Node
      reads this, controller, router, cache
    {
      Node(config, publishConfig, connectedPeers, controller.State(), router.State(), cache.State())
    }

    ghost predicate Valid()
      reads this, controller, router, cache
    {
      Consistent(cache.State())
    }

    constructor (config: Config, publishConfig: PublishConfig)
      ensures Valid() && fresh(controller) && fresh(router) && fresh(cache)
      ensures State() == NewNode(config, publishConfig) && events == []
    {
      this.config, this.publishConfig := config, publishConfig;
      events, connectedPeers := [], map[];
      controller := new Controller(config.targetRedundancy, config.redundancyDeltaPercent);
      router := new Router();
      cache := new DuplicateCache<TxId, PeerId>(config.cacheTime);
    }

    method SendTransaction(peer: PeerId, rpc: RpcOut) returns (sent: bool)
      modifies this`connectedPeers
      ensures connectedPeers == OfferTo(old(connectedPeers), peer, rpc)
      ensures sent == Accepts(old(connectedPeers), peer, rpc)
    {
      if peer !in connectedPeers {
        return false;
      }
      var (queue, ok) := TrySend(connectedPeers[peer].queue, rpc);
      connectedPeers := connectedPeers[peer := connectedPeers[peer].(queue := queue)];
      sent := ok;
    }

    /** The loop both `publish` and `forward_transaction` run over their recipients. */
    method SendToAll(recipients: seq<PeerId>, rpc: RpcOut, id: TxId, tx: Transaction) returns (anySent: bool)
      modifies this`connectedPeers, this`events
      ensures connectedPeers == OfferAll(old(connectedPeers), recipients, rpc)
      ensures events == old(events) + SentEvents(old(connectedPeers), recipients, rpc, id, tx)
      ensures anySent <==> AnyAccepts(old(connectedPeers), recipients, rpc)
    {
      anySent := false;
      for i := 0 to |recipients|
        invariant connectedPeers == OfferAll(old(connectedPeers), recipients[..i], rpc)
        invariant events == old(events) + SentEvents(old(connectedPeers), recipients[..i], rpc, id, tx)
        invariant anySent <==> AnyAccepts(old(connectedPeers), recipients[..i], rpc)
      {
        assert recipients[..i + 1][..i] == recipients[..i];
        var sent := SendTransaction(recipients[i], rpc);
        if sent {
          anySent := true;
          events := events + [TransactionSent(recipients[i], id, tx)];
        }
      }
      assert recipients[..|recipients|] == recipients;
    }

    /** `build_raw_transaction`, called with a sequence number left: the source panics without one. */
    method BuildRawTransaction(data: Bytes) returns (raw: Option<RawTransaction>)
      requires publishConfig.lastSeqno < MAX_U64
      modifies this`publishConfig
      ensures publishConfig == old(publishConfig).(lastSeqno := old(publishConfig).lastSeqno + 1)
      ensures raw == BuildRaw(State(), publishConfig.lastSeqno, data)
      ensures raw.Some? ==> raw.value.seqno == publishConfig.lastSeqno
    {
      publishConfig := publishConfig.(lastSeqno := publishConfig.lastSeqno + 1);
      match publishConfig {
        case Signing(author, inlineKey, seqno) =>
          var signature := config.sign(author, seqno, data);
          if signature.None? {
            return None;
          }
          return Some(RawTransaction(author, seqno, data, Some(signature.value), inlineKey));
        case Author(author, seqno) =>
          return Some(RawTransaction(author, seqno, data, None, None));
      }
    }

    method PublishTransaction(now: nat, data: Bytes, order: seq<PeerId>) returns (result: PublishResult)
      requires Valid()
      modifies this, router, cache
      ensures Valid()
      ensures var (effect, r) := PublishData(old(State()), now, data, order);
              State() == effect.node && events == old(events) + effect.events && result == r
    {
      hide Inserted, FilterValid, OfferAll, SentEvents, AnyAccepts, TrySend, BuildRaw, Consistent;
      var transformed := config.outbound(data);
      if transformed.None? {
        return TransformFailed;
      }
      if |transformed.value| > config.maxTransmitSize {
        return TransactionTooLarge;
      }
      if publishConfig.lastSeqno >= MAX_U64 {
        return SeqnoExhausted;
      }
      var built := BuildRawTransaction(transformed.value);
      if built.None? {
        return SigningError;
      }
      var raw := built.value;
      ghost var n1 := State();
      var tx := Transaction(raw.from, raw.seqno, data);
      var id := config.transactionId(tx);
      var known := cache.Contains(id);
      if known {
        return Duplicate;
      }
      var _ := cache.Insert(now, id, publishConfig.author);
      var recipients := router.FilterValidRoutes(publishConfig.author, order);
      var rpc := RpcOut.Publish(raw, now + config.publishDuration);
      var anySent := SendToAll(recipients, rpc, id, tx);
      assert State() == PublishNew(n1, now, raw, tx, id, order).0.node;
      if recipients == [] {
        return InsufficientPeers;
      }
      if !anySent {
        OfferAllKeepsKeys(n1.peers, recipients, rpc);
        return AllQueuesFull(|connectedPeers|);
      }
      return Published(id);
    }

    /** The connected peers a first-time transaction may go to. */
    method Candidates(order: seq<PeerId>, source: PeerId, author: PeerId) returns (candidates: seq<PeerId>)
      ensures candidates == ForwardCandidates(order, source, author)
    {
      candidates := [];
      for i := 0 to |order|
        invariant candidates == ForwardCandidates(order[..i], source, author)
      {
        assert order[..i + 1][..i] == order[..i];
        if order[i] != source && order[i] != author {
          candidates := candidates + [order[i]];
        }
      }
      assert order[..|order|] == order;
    }

    method ForwardToPeers(now: nat, id: TxId, raw: RawTransaction, source: PeerId, order: seq<PeerId>)
      returns (forwarded: bool)
      requires Valid()
      modifies this`connectedPeers, this`events
      ensures Valid()
      ensures var effect := ForwardTransaction(old(State()), now, id, raw, source, order);
              State() == effect.node && events == old(events) + effect.events
    {
      hide FilterValid, ForwardCandidates, OfferAll, SentEvents, Consistent;
      var candidates := Candidates(order, source, raw.from);
      var recipients := router.FilterValidRoutes(source, candidates);
      NothingOffered(connectedPeers, RpcOut.Forward(raw, now + config.forwardDuration), id,
                     Transaction(raw.from, raw.seqno, raw.data));
      if recipients == [] {
        return false;
      }
      var _ := SendToAll(recipients, RpcOut.Forward(raw, now + config.forwardDuration), id,
                         Transaction(raw.from, raw.seqno, raw.data));
      return true;
    }

    method HandleReceivedTransaction(now: nat, raw: RawTransaction, source: PeerId, order: seq<PeerId>)
      requires Valid()
      modifies this`connectedPeers, this`events, controller, router, cache
      ensures Valid()
      ensures var effect := ReceiveTransaction(old(State()), now, raw, source, order);
              State() == effect.node && events == old(events) + effect.events
    {
      hide Inserted, ForwardTransaction;
      var transformed := config.inbound(raw);
      if transformed.None? {
        return;
      }
      var id := config.transactionId(transformed.value);
      events := events + [TransactionReceived(source, id, transformed.value)];
      var added := cache.Insert(now, id, source);
      if !added {
        controller.IncrDuplicates();
        if !config.sendHaveTx {
          return;
        }
        if controller.isHaveTxBlocked {
          return;
        }
        var sent := SendTransaction(source, HaveTx(id));
        if sent {
          router.RegisterHaveTxSent(source);
          controller.BlockHaveTx();
          events := events + [HaveTxSent(source, id)];
        }
        return;
      }
      controller.IncrFirstTime();
      if config.forwardTransactions {
        var _ := ForwardToPeers(now, id, raw, source, order);
      }
    }

    method HandleHaveTx(ids: seq<TxId>, source: PeerId)
      requires Valid()
      modifies this`events, router
      ensures Valid()
      ensures var effect := ReceiveHaveTx(old(State()), ids, source);
              State() == effect.node && events == old(events) + effect.events
    {
      for i := 0 to |ids|
        invariant unchanged(cache) && unchanged(controller)
        invariant router.State() == DisableRoutes(old(router.State()), cache.values, ids[..i], source)
        invariant events == old(events) + HaveTxReceivedEvents(ids[..i], source)
      {
        assert ids[..i + 1][..i] == ids[..i];
        events := events + [HaveTxReceived(source, ids[i])];
        var cached := cache.Get(ids[i]);
        if cached.Some? {
          if cached.value == source {
            continue;
          }
          router.Disable(cached.value, source);
        }
      }
      assert ids[..|ids|] == ids;
      events := events + [RoutingUpdated(router.disabledRoutes)];
    }

    method HandleResetRoute(source: PeerId, pick: nat)
      requires Valid()
      modifies this`events, router
      ensures Valid()
      ensures var effect := ReceiveResetRoute(old(State()), source, pick);
              State() == effect.node && events == old(events) + effect.events
    {
      events := events + [ResetRouteReceived(source)];
      var route := router.EnableRandomRouteToPeer(source, pick);
      if route.Some? {
        events := events + [RoutingUpdated(router.disabledRoutes)];
      }
    }

    /** The RPC case of `on_connection_handler_event`. */
    method OnRpc(now: nat, rpc: Rpc, source: PeerId, order: seq<PeerId>, pick: nat)
      requires Valid()
      modifies this`connectedPeers, this`events, controller, router, cache
      ensures Valid()
      ensures var effect := ReceiveRpc(old(State()), now, rpc, source, order, pick);
              State() == effect.node && events == old(events) + effect.events
    {
      hide ReceiveTransactions, DisableRoutes, EnableRoute;
      ReceiveAll(now, rpc.transactions, source, order);
      var ids: seq<TxId> := [];
      var resetRoute := false;
      for i := 0 to |rpc.controlMsgs|
        invariant ids == HaveTxIds(rpc.controlMsgs[..i])
        invariant resetRoute <==> ResetRouteMsg in rpc.controlMsgs[..i]
      {
        assert rpc.controlMsgs[..i + 1][..i] == rpc.controlMsgs[..i];
        match rpc.controlMsgs[i] {
          case HaveTxMsg(id) => ids := ids + [id];
          case ResetRouteMsg => resetRoute := true;
        }
      }
      assert rpc.controlMsgs[..|rpc.controlMsgs|] == rpc.controlMsgs;
      if ids != [] && !config.ignoreHaveTx {
        HandleHaveTx(ids, source);
      }
      if resetRoute {
        HandleResetRoute(source, pick);
      }
    }

    /** The transaction loop of `on_connection_handler_event`. */
    method ReceiveAll(now: nat, transactions: seq<RawTransaction>, source: PeerId, order: seq<PeerId>)
      requires Valid()
      modifies this`connectedPeers, this`events, controller, router, cache
      ensures Valid()
      ensures var effect := ReceiveTransactions(old(State()), now, Permitted(config, transactions), source, order);
              State() == effect.node && events == old(events) + effect.events
    {
      hide ReceiveTransaction;
      var permitted := Permitted(config, transactions);
      ghost var n0, e := State(), Effect(State(), []);
      for count := 0 to |permitted|
        invariant Valid() && State() == e.node && events == old(events) + e.events
        invariant e == ReceiveTransactions(n0, now, permitted[..count], source, order)
      {
        HandleReceivedTransaction(now, permitted[count], source, order);
        ReceiveOneMore(n0, now, permitted, count, source, order);
        e := ReceiveTransactions(n0, now, permitted[..count + 1], source, order);
      }
      assert permitted[..|permitted|] == permitted;
    }

    method AdjustTheRedundancy(choice: Option<PeerId>)
      requires Valid() && IsCreditorChoice(router.State(), choice)
      modifies this`connectedPeers, this`events, controller, router
      ensures Valid()
      ensures var effect := AdjustRedundancy(old(State()), choice);
              State() == effect.node && events == old(events) + effect.events
    {
      var _, sendResetRoute := controller.EvaluateRedundancy();
      if sendResetRoute {
        match choice {
          case Some(peer) =>
            var sent := SendTransaction(peer, ResetRoute);
            if sent {
              router.RemoveHaveTxSent(peer);
              events := events + [ResetRouteSent(peer)];
            }
          case None =>
        }
      }
      controller.ClearCounters();
    }

    method OnConnectionEstablished(peer: PeerId, connection: ConnectionId)
      requires Valid()
      modifies this`connectedPeers
      ensures Valid() && State() == Established(old(State()), peer, connection)
    {
      if peer !in connectedPeers {
        connectedPeers := connectedPeers[peer := Peer([], NewQueue(config.queueLen))];
      }
      var entry := connectedPeers[peer];
      connectedPeers := connectedPeers[peer := entry.(connections := entry.connections + [connection])];
    }

    method OnConnectionClosed(peer: PeerId, connection: ConnectionId, remaining: nat, choice: Option<PeerId>)
      requires Valid() && IsCreditorChoice(router.State(), choice)
      modifies this`connectedPeers, this`events, controller, router
      ensures Valid()
      ensures var effect := Closed(old(State()), peer, connection, remaining, choice);
              State() == effect.node && events == old(events) + effect.events
    {
      if remaining != 0 {
        if peer in connectedPeers {
          var entry := connectedPeers[peer];
          connectedPeers := connectedPeers[peer := entry.(connections := Without(entry.connections, connection))];
        }
      } else {
        var removed := router.ResetRoutesWithPeer(peer);
        if removed != [] {
          events := events + [RoutingUpdated(router.disabledRoutes)];
        }
        connectedPeers := connectedPeers - {peer};
        AdjustTheRedundancy(choice);
      }
    }
  }
}

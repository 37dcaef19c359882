/** What each entry point of behaviour.rs does to a node, as functions on values. The class in
    Behaviours is proved against these functions and the network in Networks runs them. */
module Nodes {
  import opened Types
  import opened TimeCache
  import opened Routing
  import opened SendQueues

  datatype PublishConfig =
    | Signing(author: PeerId, inlineKey: Option<Bytes>, lastSeqno: nat)
    | Author(author: PeerId, lastSeqno: nat)

  datatype Peer = Peer(connections: seq<ConnectionId>, queue: SendQueue)

  datatype Node = Node(
    cfg: Config,
    publishConfig: PublishConfig,
    peers: map<PeerId, Peer>,
    controller: ControllerState,
    router: RouterState,
    cache: Cache<TxId, PeerId>)
  {
    function Own(): PeerId { publishConfig.author }

    ghost predicate Holds(id: TxId) { id in cache.values }
  }

  /** A node after a call, and the events the call queued for the application. */
  datatype Effect = Effect(node: Node, events: seq<Event>)

  function NewNode(cfg: Config, publishConfig: PublishConfig): Node {
    Node(cfg, publishConfig, map[], NewController(cfg.targetRedundancy, cfg.redundancyDeltaPercent),
         RouterState([], map[]), Cache(0, map[], [], cfg.cacheTime))
  }

  // ---- Sending ----

  /** The behaviour's `send_transaction` says true. */
  predicate Accepts(peers: map<PeerId, Peer>, p: PeerId, rpc: RpcOut) {
    p in peers && TrySend(peers[p].queue, rpc).1
  }

  /** One `send_transaction`; a peer that is not connected is passed over. */
  function OfferTo(peers: map<PeerId, Peer>, p: PeerId, rpc: RpcOut): map<PeerId, Peer> {
    if p in peers then peers[p := peers[p].(queue := TrySend(peers[p].queue, rpc).0)] else peers
  }

  /** `rpc` has been offered to the targets, one after the other. */
  function OfferAll(peers: map<PeerId, Peer>, targets: seq<PeerId>, rpc: RpcOut): map<PeerId, Peer> {
    if targets == [] then peers
    else OfferTo(OfferAll(peers, targets[..|targets| - 1], rpc), targets[|targets| - 1], rpc)
  }

  predicate LastAccepts(peers: map<PeerId, Peer>, targets: seq<PeerId>, rpc: RpcOut)
    requires targets != []
  {
    Accepts(OfferAll(peers, targets[..|targets| - 1], rpc), targets[|targets| - 1], rpc)
  }

  predicate AnyAccepts(peers: map<PeerId, Peer>, targets: seq<PeerId>, rpc: RpcOut) {
    targets != [] && (AnyAccepts(peers, targets[..|targets| - 1], rpc) || LastAccepts(peers, targets, rpc))
  }

  function SentEvents(peers: map<PeerId, Peer>, targets: seq<PeerId>, rpc: RpcOut, id: TxId,
                      tx: Transaction): seq<Event> {
    if targets == [] then []
    else
      SentEvents(peers, targets[..|targets| - 1], rpc, id, tx)
      + if LastAccepts(peers, targets, rpc) then [TransactionSent(targets[|targets| - 1], id, tx)] else []
  }

  // ---- Publishing ----

  /** `build_raw_transaction` after the sequence number has been taken. */
  function BuildRaw(n: Node, seqno: nat, data: Bytes): Option<RawTransaction> {
    match n.publishConfig
    case Signing(author, inlineKey, _) =>
      (match n.cfg.sign(author, seqno, data)
       case None => None
       case Some(signature) => Some(RawTransaction(author, seqno, data, Some(signature), inlineKey)))
    case Author(author, _) => Some(RawTransaction(author, seqno, data, None, None))
  }

  /** `publish`. `order` is the iteration order of the connected peers. The sequence number is used
      up by every call that gets as far as taking it, and an id stays in the cache also when nobody
      took the transaction. */
  ghost function PublishData(n: Node, now: nat, data: Bytes, order: seq<PeerId>): (Effect, PublishResult)
    requires Consistent(n.cache)
  {
    match n.cfg.outbound(data)
    case None => (Effect(n, []), TransformFailed)
    case Some(transformed) =>
      if |transformed| > n.cfg.maxTransmitSize then (Effect(n, []), TransactionTooLarge)
      else if n.publishConfig.lastSeqno >= MAX_U64 then (Effect(n, []), SeqnoExhausted)
      else
        var seqno := n.publishConfig.lastSeqno + 1;
        var n1 := n.(publishConfig := n.publishConfig.(lastSeqno := seqno));
        match BuildRaw(n1, seqno, transformed)
        case None => (Effect(n1, []), SigningError)
        case Some(raw) =>
          var tx := Transaction(raw.from, seqno, data);
          var id := n.cfg.transactionId(tx);
          if id in n.cache.values then (Effect(n1, []), Duplicate)
          else PublishNew(n1, now, raw, tx, id, order)
  }

  ghost function PublishNew(n: Node, now: nat, raw: RawTransaction, tx: Transaction, id: TxId,
                            order: seq<PeerId>): (Effect, PublishResult)
    requires Consistent(n.cache)
  {
    var recipients := FilterValid(n.router, n.Own(), order);
    var rpc := RpcOut.Publish(raw, now + n.cfg.publishDuration);
    var n' := n.(cache := Inserted(n.cache, now, id, n.Own()).0, peers := OfferAll(n.peers, recipients, rpc));
    var result :=
      if recipients == [] then InsufficientPeers
      else if !AnyAccepts(n.peers, recipients, rpc) then AllQueuesFull(|n.peers|)
      else Published(id);
    (Effect(n', SentEvents(n.peers, recipients, rpc, id, tx)), result)
  }

  // ---- Receiving a transaction ----

  /** The connected peers a first-time transaction may go to, in iteration order. */
  function ForwardCandidates(order: seq<PeerId>, source: PeerId, author: PeerId): (s: seq<PeerId>)
    ensures forall p :: p in s <==> p in order && p != source && p != author
  {
    if order == [] then []
    else
      var k := |order| - 1;
      assert order == order[..k] + [order[k]];
      ForwardCandidates(order[..k], source, author)
      + if order[k] != source && order[k] != author then [order[k]] else []
  }

  function ForwardTransaction(n: Node, now: nat, id: TxId, raw: RawTransaction, source: PeerId,
                              order: seq<PeerId>): Effect {
    var recipients := FilterValid(n.router, source, ForwardCandidates(order, source, raw.from));
    var rpc := RpcOut.Forward(raw, now + n.cfg.forwardDuration);
    Effect(n.(peers := OfferAll(n.peers, recipients, rpc)),
           SentEvents(n.peers, recipients, rpc, id, Transaction(raw.from, raw.seqno, raw.data)))
  }

  /** The answer to a duplicate: one HaveTx to the peer it came from, unless HaveTx are blocked. */
  function AnswerDuplicate(n: Node, id: TxId, source: PeerId): Effect {
    if !n.cfg.sendHaveTx || n.controller.haveTxBlocked then Effect(n, [])
    else
      var n1 := n.(peers := OfferTo(n.peers, source, HaveTx(id)));
      if Accepts(n.peers, source, HaveTx(id)) then
        Effect(n1.(router := RegisterHaveTx(n.router, source), controller := n.controller.(haveTxBlocked := true)),
               [HaveTxSent(source, id)])
      else Effect(n1, [])
  }

  /** `handle_received_transaction`. */
  ghost function ReceiveTransaction(n: Node, now: nat, raw: RawTransaction, source: PeerId,
                                    order: seq<PeerId>): (e: Effect)
    requires Consistent(n.cache)
    ensures Consistent(e.node.cache)
  {
    match n.cfg.inbound(raw)
    case None => Effect(n, [])
    case Some(tx) =>
      var id := n.cfg.transactionId(tx);
      var (cache', isNew) := Inserted(n.cache, now, id, source);
      var e :=
        if !isNew then
          AnswerDuplicate(n.(cache := cache', controller := n.controller.(duplicates := n.controller.duplicates + 1)),
                          id, source)
        else
          var n1 := n.(cache := cache', controller := n.controller.(firstTime := n.controller.firstTime + 1));
          if n.cfg.forwardTransactions then ForwardTransaction(n1, now, id, raw, source, order) else Effect(n1, []);
      Effect(e.node, [TransactionReceived(source, id, tx)] + e.events)
  }

  // ---- Control messages ----

  /** The routes disabled by HaveTx messages from `source`: one for every id that is cached with
      another source. */
  function DisableRoutes(r: RouterState, values: map<TxId, PeerId>, ids: seq<TxId>, source: PeerId): RouterState {
    if ids == [] then r
    else
      var k := |ids| - 1;
      var r1 := DisableRoutes(r, values, ids[..k], source);
      if ids[k] in values && values[ids[k]] != source then DisableRoute(r1, values[ids[k]], source) else r1
  }

  function HaveTxReceivedEvents(ids: seq<TxId>, source: PeerId): seq<Event> {
    if ids == [] then []
    else HaveTxReceivedEvents(ids[..|ids| - 1], source) + [HaveTxReceived(source, ids[|ids| - 1])]
  }

  /** `handle_have_tx`. The look-up does not purge the cache. */
  function ReceiveHaveTx(n: Node, ids: seq<TxId>, source: PeerId): Effect {
    var r := DisableRoutes(n.router, n.cache.values, ids, source);
    Effect(n.(router := r), HaveTxReceivedEvents(ids, source) + [RoutingUpdated(r.disabled)])
  }

  /** `handle_reset_route`. */
  function ReceiveResetRoute(n: Node, source: PeerId, pick: nat): Effect {
    var (r, route) := EnableRoute(n.router, source, pick);
    Effect(n.(router := r), [ResetRouteReceived(source)] + if route.Some? then [RoutingUpdated(r.disabled)] else [])
  }

  function HaveTxIds(msgs: seq<ControlAction>): seq<TxId> {
    if msgs == [] then []
    else HaveTxIds(msgs[..|msgs| - 1]) + if msgs[|msgs| - 1].HaveTxMsg? then [msgs[|msgs| - 1].id] else []
  }

  ghost function ReceiveTransactions(n: Node, now: nat, txs: seq<RawTransaction>, source: PeerId,
                                     order: seq<PeerId>): (e: Effect)
    requires Consistent(n.cache)
    ensures Consistent(e.node.cache)
  {
    if txs == [] then Effect(n, [])
    else
      var e1 := ReceiveTransactions(n, now, txs[..|txs| - 1], source, order);
      var e2 := ReceiveTransaction(e1.node, now, txs[|txs| - 1], source, order);
      Effect(e2.node, e1.events + e2.events)
  }

  /** The transactions of an RPC that are looked at. */
  function Permitted(cfg: Config, txs: seq<RawTransaction>): seq<RawTransaction> {
    if cfg.maxTransactionsPerRpc.Some? && cfg.maxTransactionsPerRpc.value < |txs|
        then txs[..cfg.maxTransactionsPerRpc.value]
    else txs
  }

  /** `on_connection_handler_event` for a decoded RPC: first the transactions, then all HaveTx
      together, then one reset however many were asked for. */
  ghost function ReceiveRpc(n: Node, now: nat, rpc: Rpc, source: PeerId, order: seq<PeerId>, pick: nat): (e: Effect)
    requires Consistent(n.cache)
    ensures Consistent(e.node.cache)
  {
    var e1 := ReceiveTransactions(n, now, Permitted(n.cfg, rpc.transactions), source, order);
    var ids := HaveTxIds(rpc.controlMsgs);
    var e2 := if ids != [] && !n.cfg.ignoreHaveTx then ReceiveHaveTx(e1.node, ids, source) else Effect(e1.node, []);
    var e3 := if ResetRouteMsg in rpc.controlMsgs then ReceiveResetRoute(e2.node, source, pick)
        else Effect(e2.node, []);
    Effect(e3.node, e1.events + e2.events + e3.events)
  }

  // ---- Redundancy and connections ----

  /** `adjust_redundancy`. `choice` is the random peer among those with a positive credit; the
      credit goes down only if that peer takes the message. */
  function AdjustRedundancy(n: Node, choice: Option<PeerId>): Effect {
    var (c, _, askForRoute) := Evaluate(n.controller);
    var n1 := n.(controller := ResetCounters(c));
    if askForRoute && choice.Some? then
      var n2 := n1.(peers := OfferTo(n.peers, choice.value, ResetRoute));
      if Accepts(n.peers, choice.value, ResetRoute) then
        Effect(n2.(router := RemoveHaveTx(n.router, choice.value)), [ResetRouteSent(choice.value)])
      else Effect(n2, [])
    else Effect(n1, [])
  }

  /** Both `handle_established_*` functions: the first connection to a peer makes its queue. */
  function Established(n: Node, peer: PeerId, connection: ConnectionId): Node {
    var entry := if peer in n.peers then n.peers[peer] else Peer([], NewQueue(n.cfg.queueLen));
    n.(peers := n.peers[peer := entry.(connections := entry.connections + [connection])])
  }

  function Without<T(==)>(s: seq<T>, x: T): seq<T> {
    if s == [] then [] else Without(s[..|s| - 1], x) + if s[|s| - 1] != x then [s[|s| - 1]] else []
  }

  /** `on_connection_closed`. The credits stay; the disabled routes that mention the peer go. */
  function Closed(n: Node, peer: PeerId, connection: ConnectionId, remaining: nat, choice: Option<PeerId>): Effect {
    if remaining != 0 then
      if peer in n.peers then
        var entry := n.peers[peer];
        Effect(n.(peers := n.peers[peer := entry.(connections := Without(entry.connections, connection))]), [])
      else Effect(n, [])
    else
      var (r, removed) := ResetRoutesWith(n.router, peer);
      var e := AdjustRedundancy(n.(router := r, peers := n.peers - {peer}), choice);
      Effect(e.node, (if removed != [] then [RoutingUpdated(r.disabled)] else []) + e.events)
  }
}

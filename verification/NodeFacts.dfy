/** What one call on a node changes, told per peer: the vocabulary the network proofs use. */
module NodeFacts {
  import opened Types
  import opened TimeCache
  import opened Routing
  import opened SendQueues
  import opened Nodes

  /** `q'` is `q` after it has taken `m`, or taken nothing. */
  ghost predicate Took(q: SendQueue, q': SendQueue, m: Option<RpcOut>) {
    && q'.cap == q.cap && q'.closed == q.closed && q'.forwardPeeked == q.forwardPeeked
    && q'.priorityPeeked == q.priorityPeeked && q'.len <= q.len + 1
    && q'.priority == q.priority + (if m.Some? && m.value.IsPriority() then [m.value] else [])
    && q'.nonPriority == q.nonPriority + (if m.Some? && !m.value.IsPriority() then [m.value] else [])
    && (q.Valid() && !q.closed ==> q'.Valid())
  }

  function Said(out: map<PeerId, RpcOut>, p: PeerId): Option<RpcOut> {
    if p in out then Some(out[p]) else None
  }

  /** Every peer's queue took the message `out` has for it, and nothing else. */
  ghost predicate Spoke(peers: map<PeerId, Peer>, peers': map<PeerId, Peer>, out: map<PeerId, RpcOut>) {
    && peers'.Keys == peers.Keys && out.Keys <= peers.Keys
    && forall p :: p in peers ==> Took(peers[p].queue, peers'[p].queue, Said(out, p))
  }

  lemma TrySendTook(q: SendQueue, m: RpcOut)
    ensures var (q', ok) := TrySend(q, m); Took(q, q', if ok then Some(m) else None)
    ensures !q.closed && m.IsControl() ==> TrySend(q, m).1
  {
    if q.Valid() && !q.closed {
      TrySendValid(q, m);
    }
  }

  lemma TookNothing(q: SendQueue)
    ensures Took(q, q, None)
  {}

  lemma SpokeNothing(peers: map<PeerId, Peer>)
    ensures Spoke(peers, peers, map[])
  {}

  lemma OfferToSpoke(peers: map<PeerId, Peer>, p: PeerId, m: RpcOut)
    ensures Spoke(peers, OfferTo(peers, p, m), if Accepts(peers, p, m) then map[p := m] else map[])
  {
    if p in peers {
      TrySendTook(peers[p].queue, m);
    }
    var out: map<PeerId, RpcOut> := if Accepts(peers, p, m) then map[p := m] else map[];
    forall x | x in peers
      ensures Took(peers[x].queue, OfferTo(peers, p, m)[x].queue, Said(out, x))
    {
      TookNothing(peers[x].queue);
    }
  }

  /** Which of the targets take an offer. */
  ghost function Takers(peers: map<PeerId, Peer>, targets: seq<PeerId>, m: RpcOut): map<PeerId, RpcOut> {
    map p | p in peers && p in targets && Accepts(peers, p, m) :: m
  }

  /** Offering to distinct targets one after the other is offering to each of them alone. */
  lemma {:induction false} OfferAllPointwise(peers: map<PeerId, Peer>, targets: seq<PeerId>, m: RpcOut)
    requires NoDuplicates(targets)
    ensures var peers' := OfferAll(peers, targets, m);
            && peers'.Keys == peers.Keys
            && forall p :: p in peers ==> peers'[p] == if p in targets then OfferTo(peers, p, m)[p] else peers[p]
  {
    if targets != [] {
      var k := |targets| - 1;
      OfferAllPointwise(peers, targets[..k], m);
      assert targets == targets[..k] + [targets[k]];
      assert targets[k] !in targets[..k];
    }
  }

  lemma OfferAllSpoke(peers: map<PeerId, Peer>, targets: seq<PeerId>, m: RpcOut)
    requires NoDuplicates(targets)
    ensures Spoke(peers, OfferAll(peers, targets, m), Takers(peers, targets, m))
  {
    OfferAllPointwise(peers, targets, m);
    forall p | p in peers
      ensures Took(peers[p].queue, OfferAll(peers, targets, m)[p].queue, Said(Takers(peers, targets, m), p))
    {
      TrySendTook(peers[p].queue, m);
      TookNothing(peers[p].queue);
    }
  }

  lemma {:induction false} FilterKeepsDistinct(r: RouterState, source: PeerId, targets: seq<PeerId>)
    requires NoDuplicates(targets)
    ensures NoDuplicates(FilterValid(r, source, targets))
  {
    if targets != [] {
      var k := |targets| - 1;
      FilterKeepsDistinct(r, source, targets[..k]);
      assert targets[k] !in targets[..k];
    }
  }

  lemma {:induction false} CandidatesDistinct(order: seq<PeerId>, source: PeerId, author: PeerId)
    requires NoDuplicates(order)
    ensures NoDuplicates(ForwardCandidates(order, source, author))
  {
    if order != [] {
      var k := |order| - 1;
      CandidatesDistinct(order[..k], source, author);
      assert order[k] !in order[..k];
    }
  }

  // ---- Calls ----

  ghost predicate Calm(n: Node) {
    n.Own() !in n.peers && forall p :: p in n.peers ==> !n.peers[p].queue.closed
  }

  /** Why a peer that could have been sent a transaction was not. */
  datatype Reason = RouteDisabled | QueueFull | NotForwarding

  function ReasonFor(n: Node, source: PeerId, p: PeerId): Reason {
    if source != n.Own() && !n.cfg.forwardTransactions then NotForwarding
    else if !Valid(n.router, source, p) then RouteDisabled
    else QueueFull
  }

  ghost predicate Refuses(peers: map<PeerId, Peer>, p: PeerId) {
    p in peers && (peers[p].queue.len >= peers[p].queue.cap || peers[p].queue.ForwardsInChannel() >= peers[p].queue.cap)
  }

  /** No peer is passed over without one of the three reasons. */
  ghost predicate ReasonsHold(n: Node, source: PeerId, author: PeerId, out: map<PeerId, RpcOut>) {
    forall p :: p in n.peers && p !in out && p != source && p != author ==>
      match ReasonFor(n, source, p)
      case NotForwarding => !n.cfg.forwardTransactions && source != n.Own()
      case RouteDisabled => Route(source, p) in n.router.disabled
      case QueueFull => Refuses(n.peers, p)
  }

  ghost function PublishOut(n: Node, now: nat, raw: RawTransaction, order: seq<PeerId>): map<PeerId, RpcOut> {
    Takers(n.peers, FilterValid(n.router, n.Own(), order), RpcOut.Publish(raw, now + n.cfg.publishDuration))
  }

  /** The transaction that `publish` makes out of `data`, if it gets that far. */
  ghost function Built(n: Node, data: Bytes): Option<RawTransaction> {
    match n.cfg.outbound(data)
    case None => None
    case Some(transformed) =>
      if |transformed| > n.cfg.maxTransmitSize || n.publishConfig.lastSeqno >= MAX_U64 then None
      else BuildRaw(n, n.publishConfig.lastSeqno + 1, transformed)
  }

  /** Whether `publish` goes on to file and send the transaction it built. */
  ghost predicate PublishesNew(n: Node, data: Bytes) {
    Built(n, data).Some? &&
        n.cfg.transactionId(Transaction(Built(n, data).value.from, Built(n, data).value.seqno, data)) !in n.cache.values
  }

  /** `publish` of a new id files it under the node itself and sends it; any other call of
      `publish` touches neither cache nor peers. */
  lemma PublishFacts(n: Node, now: nat, data: Bytes, order: seq<PeerId>)
    requires Consistent(n.cache) && Calm(n) && IsOrderOf(order, n.peers.Keys)
    ensures var n' := PublishData(n, now, data, order).0.node;
            && n' == n.(publishConfig := n'.publishConfig, cache := n'.cache, peers := n'.peers) && n'.Own() == n.Own()
            && (!PublishesNew(n, data) ==> n'.cache == n.cache && n'.peers == n.peers)
            && (PublishesNew(n, data) ==>
                  var raw := Built(n, data).value;
                  var out := PublishOut(n, now, raw, order);
                  && raw.from == n.Own()
                  && n'.cache == Inserted(n.cache, now, n.cfg.transactionId(Transaction(raw.from, raw.seqno, data)),
                                          n.Own()).0
                  && Spoke(n.peers, n'.peers, out)
                  && (forall p :: p in out ==>
                      out[p] == RpcOut.Publish(raw, now + n.cfg.publishDuration) && p != n.Own() &&
                          Valid(n.router, n.Own(), p))
                  && ReasonsHold(n, n.Own(), n.Own(), out))
  {
    hide Inserted, OfferAll, SentEvents, AnyAccepts, Spoke;
    if PublishesNew(n, data) {
      PublishNewFacts(n, now, Built(n, data).value, order);
    }
  }

  /** Offering to the valid ones among some candidates: whoever is passed over has a reason. */
  lemma OfferReasons(n: Node, source: PeerId, author: PeerId, candidates: seq<PeerId>, rpc: RpcOut,
                     out: map<PeerId, RpcOut>)
    requires out == Takers(n.peers, FilterValid(n.router, source, candidates), rpc) && !rpc.IsControl()
    requires source != n.Own() ==> n.cfg.forwardTransactions
    requires forall p :: p in n.peers && p != source && p != author ==> p in candidates
    requires forall p :: p in n.peers ==> !n.peers[p].queue.closed
    ensures ReasonsHold(n, source, author, out)
    ensures forall p :: p in out ==> out[p] == rpc && p in n.peers && p in candidates && Valid(n.router, source, p)
  {
    hide FilterValid, Refuses;
    forall p | p in n.peers && p !in out && p != source && p != author && Valid(n.router, source, p)
      ensures Refuses(n.peers, p)
    {
      RefusedMeans(n.peers, p, rpc);
    }
  }

  lemma RefusedMeans(peers: map<PeerId, Peer>, p: PeerId, rpc: RpcOut)
    requires p in peers && !peers[p].queue.closed && !rpc.IsControl() && !Accepts(peers, p, rpc)
    ensures Refuses(peers, p)
  {}

  lemma PublishNewFacts(n: Node, now: nat, raw: RawTransaction, order: seq<PeerId>)
    requires IsOrderOf(order, n.peers.Keys) && n.Own() !in n.peers && raw.from == n.Own()
    requires forall p :: p in n.peers ==> !n.peers[p].queue.closed
    ensures var rpc := RpcOut.Publish(raw, now + n.cfg.publishDuration);
            var out := PublishOut(n, now, raw, order);
            && Spoke(n.peers, OfferAll(n.peers, FilterValid(n.router, n.Own(), order), rpc), out)
            && (forall p :: p in out ==> out[p] == rpc && p != n.Own() && Valid(n.router, n.Own(), p))
            && ReasonsHold(n, n.Own(), n.Own(), out)
  {
    hide OfferAll, FilterValid, Spoke, Takers, ReasonsHold, Accepts;
    var rpc := RpcOut.Publish(raw, now + n.cfg.publishDuration);
    FilterKeepsDistinct(n.router, n.Own(), order);
    OfferAllSpoke(n.peers, FilterValid(n.router, n.Own(), order), rpc);
    OfferReasons(n, n.Own(), n.Own(), order, rpc, PublishOut(n, now, raw, order));
  }

  ghost function ForwardOut(n: Node, now: nat, raw: RawTransaction, source: PeerId,
                            order: seq<PeerId>): map<PeerId, RpcOut> {
    if n.cfg.forwardTransactions then
      Takers(n.peers, FilterValid(n.router, source, ForwardCandidates(order, source, raw.from)),
             RpcOut.Forward(raw, now + n.cfg.forwardDuration))
    else map[]
  }

  lemma ForwardFacts(n: Node, now: nat, raw: RawTransaction, source: PeerId, order: seq<PeerId>)
    requires IsOrderOf(order, n.peers.Keys) && source != n.Own()
    requires forall p :: p in n.peers ==> !n.peers[p].queue.closed
    ensures var rpc := RpcOut.Forward(raw, now + n.cfg.forwardDuration);
            var out := ForwardOut(n, now, raw, source, order);
            && (n.cfg.forwardTransactions ==>
                  Spoke(n.peers,
                        OfferAll(n.peers,
                                 FilterValid(n.router, source, ForwardCandidates(order, source, raw.from)), rpc),
                        out))
            && (!n.cfg.forwardTransactions ==> Spoke(n.peers, n.peers, out))
            && (forall p :: p in out ==> out[p] == rpc && p != source && p != raw.from && Valid(n.router, source, p))
            && ReasonsHold(n, source, raw.from, out)
  {
    hide OfferAll, FilterValid, ForwardCandidates, Spoke, Takers, Accepts, Refuses;
    var rpc, candidates := RpcOut.Forward(raw, now + n.cfg.forwardDuration), ForwardCandidates(order, source, raw.from);
    CandidatesDistinct(order, source, raw.from);
    FilterKeepsDistinct(n.router, source, candidates);
    OfferAllSpoke(n.peers, FilterValid(n.router, source, candidates), rpc);
    SpokeNothing(n.peers);
    if n.cfg.forwardTransactions {
      OfferReasons(n, source, raw.from, candidates, rpc, ForwardOut(n, now, raw, source, order));
    }
  }

  /** What a call sends is what it books: a HaveTx said to a peer raises that peer's credit by one,
      a ResetRoute needs a positive credit and lowers it by one, nothing else moves a credit. */
  ghost predicate CreditsMove(r: RouterState, r': RouterState, out: map<PeerId, RpcOut>) {
    forall p {:trigger Credit(r', p)} {:trigger Said(out, p)} ::
      match Said(out, p)
      case Some(HaveTx(_)) => Credit(r', p) == Credit(r, p) + 1
      case Some(ResetRoute) => Credit(r, p) > 0 && Credit(r', p) == Credit(r, p) - 1
      case _ => Credit(r', p) == Credit(r, p)
  }

  lemma AnswerFacts(n: Node, id: TxId, source: PeerId)
    ensures var n' := AnswerDuplicate(n, id, source).node;
            var out: map<PeerId, RpcOut> :=
                if n.cfg.sendHaveTx && !n.controller.haveTxBlocked && Accepts(n.peers, source, HaveTx(id))
                                            then map[source := HaveTx(id)] else map[];
            && Spoke(n.peers, n'.peers, out) && CreditsMove(n.router, n'.router, out)
            && n' == n.(peers := n'.peers, router := n'.router, controller := n'.controller)
            && n'.router.disabled == n.router.disabled
            && n'.controller == n.controller.(haveTxBlocked := n.controller.haveTxBlocked || out != map[])
  {
    hide Spoke, Accepts, OfferTo;
    OfferToSpoke(n.peers, source, HaveTx(id));
    SpokeNothing(n.peers);
  }

  /** What receiving a transaction makes a node send. */
  ghost function ReceiveOut(n: Node, now: nat, raw: RawTransaction, source: PeerId,
                            order: seq<PeerId>): map<PeerId, RpcOut>
    requires Consistent(n.cache)
  {
    match n.cfg.RawId(raw)
    case None => map[]
    case Some(id) =>
      if Inserted(n.cache, now, id, source).1 then ForwardOut(n, now, raw, source, order)
      else if n.cfg.sendHaveTx && !n.controller.haveTxBlocked && Accepts(n.peers, source, HaveTx(id))
          then map[source := HaveTx(id)]
      else map[]
  }

  /** Receiving a transaction, whatever the cache answers. */
  lemma ReceiveFacts(n: Node, now: nat, raw: RawTransaction, source: PeerId, order: seq<PeerId>)
    requires Consistent(n.cache) && Calm(n) && source in n.peers && IsOrderOf(order, n.peers.Keys)
    ensures var n' := ReceiveTransaction(n, now, raw, source, order).node;
            var out := ReceiveOut(n, now, raw, source, order);
            && Spoke(n.peers, n'.peers, out) && CreditsMove(n.router, n'.router, out)
            && n' == n.(peers := n'.peers, router := n'.router, controller := n'.controller, cache := n'.cache)
            && n'.router.disabled == n.router.disabled
            && (n.cfg.RawId(raw).None? ==> n'.cache == n.cache)
            && (n.cfg.RawId(raw).Some? ==> n'.cache == Inserted(n.cache, now, n.cfg.RawId(raw).value, source).0)
            && n'.Own() == n.Own()
  {
    hide Spoke, OfferAll, Inserted, AnswerDuplicate, FilterValid, ForwardCandidates, SentEvents, Accepts;
    SpokeNothing(n.peers);
    ForwardFacts(n, now, raw, source, order);
    if n.cfg.RawId(raw).Some? {
      var id := n.cfg.RawId(raw).value;
      var (cache', isNew) := Inserted(n.cache, now, id, source);
      AnswerFacts(n.(cache := cache', controller := n.controller.(duplicates := n.controller.duplicates + 1)), id,
                  source);
    }
  }

  // ---- One message of the wire ----

  /** A sent RPC as the receiving side decodes it. */
  function AsRpc(m: RpcOut): Rpc {
    match m
    case Publish(tx, _) => Rpc([tx], [])
    case Forward(tx, _) => Rpc([tx], [])
    case HaveTx(id) => Rpc([], [HaveTxMsg(id)])
    case ResetRoute => Rpc([], [ResetRouteMsg])
  }

  /** The route a HaveTx disables: from the cached source of the transaction to the sender, if the
      transaction is cached with another source. */
  function RouteCut(n: Node, id: TxId, source: PeerId): RouterState {
    if !n.cfg.ignoreHaveTx && id in n.cache.values && n.cache.values[id] != source
    then DisableRoute(n.router, n.cache.values[id], source) else n.router
  }

  ghost predicate LooksAtTransactions(cfg: Config) {
    cfg.maxTransactionsPerRpc != Some(0)
  }

  lemma DeliverTransaction(n: Node, now: nat, m: RpcOut, source: PeerId, order: seq<PeerId>, pick: nat)
    requires Consistent(n.cache) && !m.IsControl()
    ensures ReceiveRpc(n, now, AsRpc(m), source, order, pick).node ==
            if LooksAtTransactions(n.cfg) then ReceiveTransaction(n, now, m.tx, source, order).node else n
  {
    hide ReceiveTransaction;
    var txs := [m.tx];
    assert txs[..0] == [];
    assert ReceiveTransactions(n, now, txs, source, order).node == ReceiveTransaction(n, now, m.tx, source, order).node;
    assert Permitted(n.cfg, txs) == if LooksAtTransactions(n.cfg) then txs else [];
    assert HaveTxIds([]) == [];
  }

  lemma DeliverControl(n: Node, now: nat, m: RpcOut, source: PeerId, order: seq<PeerId>, pick: nat)
    requires Consistent(n.cache) && m.IsControl()
    ensures ReceiveRpc(n, now, AsRpc(m), source, order, pick).node ==
            n.(router := if m.HaveTx? then RouteCut(n, m.id, source) else EnableRoute(n.router, source, pick).0)
  {
    hide ReceiveTransaction, EnableRoute;
    var msgs := AsRpc(m).controlMsgs;
    assert msgs[..0] == [];
    assert ReceiveTransactions(n, now, Permitted(n.cfg, []), source, order).node == n;
    if m.HaveTx? {
      var ids := [m.id];
      assert HaveTxIds(msgs) == ids;
      assert ids[..0] == [];
      assert ResetRouteMsg !in msgs;
      assert DisableRoutes(n.router, n.cache.values, ids[..0], source) == n.router;
    } else {
      assert HaveTxIds(msgs) == [];
      assert msgs[0] == ResetRouteMsg;
    }
  }

  function AdjustOut(n: Node, choice: Option<PeerId>): map<PeerId, RpcOut> {
    if Evaluate(n.controller).2 && choice.Some? && Accepts(n.peers, choice.value, ResetRoute)
    then map[choice.value := ResetRoute] else map[]
  }

  lemma AdjustFacts(n: Node, choice: Option<PeerId>)
    requires IsCreditorChoice(n.router, choice)
    ensures var n' := AdjustRedundancy(n, choice).node;
            && Spoke(n.peers, n'.peers, AdjustOut(n, choice)) && CreditsMove(n.router, n'.router, AdjustOut(n, choice))
            && n' == n.(peers := n'.peers, router := n'.router, controller := n'.controller)
            && n'.router.disabled == n.router.disabled
  {
    hide Spoke, Accepts, OfferTo, Evaluate;
    SpokeNothing(n.peers);
    if choice.Some? {
      OfferToSpoke(n.peers, choice.value, ResetRoute);
    }
  }
}

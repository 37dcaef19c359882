/** What a node answers its application: the result of a publication, and the events of a call. */
module NodeAnswers {
  import opened Types
  import opened TimeCache
  import opened Routing
  import opened Nodes
  import opened NodeFacts

  // ---- Who is told to have been sent a transaction ----

  /** One TransactionSent for each peer of `out`, in iteration order. */
  function Announced(order: seq<PeerId>, out: map<PeerId, RpcOut>, id: TxId, tx: Transaction): seq<Event> {
    if order == [] then []
    else
      var p := order[|order| - 1];
      Announced(order[..|order| - 1], out, id, tx) + if p in out then [TransactionSent(p, id, tx)] else []
  }

  lemma AcceptsAlone(peers: map<PeerId, Peer>, targets: seq<PeerId>, rpc: RpcOut)
    requires NoDuplicates(targets) && targets != []
    ensures LastAccepts(peers, targets, rpc) <==> Accepts(peers, targets[|targets| - 1], rpc)
  {
    var k := |targets| - 1;
    OfferAllPointwise(peers, targets[..k], rpc);
    assert targets[k] !in targets[..k];
  }

  lemma {:induction false} SentAre(peers: map<PeerId, Peer>, targets: seq<PeerId>, rpc: RpcOut, id: TxId,
                                   tx: Transaction,
                                   out: map<PeerId, RpcOut>)
    requires NoDuplicates(targets)
    requires forall p :: p in targets ==> (p in out <==> Accepts(peers, p, rpc))
    ensures SentEvents(peers, targets, rpc, id, tx) == Announced(targets, out, id, tx)
    ensures AnyAccepts(peers, targets, rpc) <==> exists p :: p in targets && p in out
  {
    hide OfferAll, Accepts, LastAccepts;
    if targets != [] {
      var k := |targets| - 1;
      assert targets == targets[..k] + [targets[k]];
      SentAre(peers, targets[..k], rpc, id, tx, out);
      AcceptsAlone(peers, targets, rpc);
      assert targets[k] in targets;
    }
  }

  /** Candidates that are left out take nothing. */
  lemma {:induction false} FilteredAnnounced(r: RouterState, source: PeerId, targets: seq<PeerId>,
                                             out: map<PeerId, RpcOut>, id: TxId, tx: Transaction)
    requires forall p :: p in targets && p in out ==> Valid(r, source, p)
    ensures Announced(FilterValid(r, source, targets), out, id, tx) == Announced(targets, out, id, tx)
  {
    hide FilterValid, Valid;
    if targets == [] {
      NothingFiltered(r, source);
    } else {
      var k := |targets| - 1;
      var p := targets[k];
      assert targets == targets[..k] + [p];
      FilteredAnnounced(r, source, targets[..k], out, id, tx);
      FilterOneMore(r, source, targets[..k], p);
      AnnouncedOne(FilterValid(r, source, targets[..k]), p, out, id, tx);
      AnnouncedOne(targets[..k], p, out, id, tx);
      assert Announced(targets[..k], out, id, tx) + [] == Announced(targets[..k], out, id, tx);
      assert p in targets;
      assert FilterValid(r, source, targets[..k]) + [] == FilterValid(r, source, targets[..k]);
    }
  }

  lemma AnnouncedOne(order: seq<PeerId>, p: PeerId, out: map<PeerId, RpcOut>, id: TxId, tx: Transaction)
    ensures Announced(order + [p], out, id, tx) ==
              Announced(order, out, id, tx) + if p in out then [TransactionSent(p, id, tx)] else []
  {
    assert (order + [p])[..|order|] == order;
  }

  lemma {:induction false} CandidatesAnnounced(order: seq<PeerId>, source: PeerId, author: PeerId,
                                               out: map<PeerId, RpcOut>, id: TxId, tx: Transaction)
    requires source !in out && author !in out
    ensures Announced(ForwardCandidates(order, source, author), out, id, tx) == Announced(order, out, id, tx)
  {
    if order != [] {
      var k := |order| - 1;
      CandidatesAnnounced(order[..k], source, author, out, id, tx);
      if order[k] != source && order[k] != author {
        AnnouncedOne(ForwardCandidates(order[..k], source, author), order[k], out, id, tx);
      }
      assert ForwardCandidates(order[..k], source, author) + [] == ForwardCandidates(order[..k], source, author);
      assert Announced(order[..k], out, id, tx) + [] == Announced(order[..k], out, id, tx);
    }
  }

  /** Offering a transaction to the valid ones of `order`: who takes it is told so, and someone takes it if and
      only if someone would. */
  lemma OfferTells(n: Node, source: PeerId, order: seq<PeerId>, rpc: RpcOut, id: TxId, tx: Transaction)
    requires NoDuplicates(order)
    ensures var targets := FilterValid(n.router, source, order);
            var out := Takers(n.peers, targets, rpc);
            && SentEvents(n.peers, targets, rpc, id, tx) == Announced(order, out, id, tx)
            && (AnyAccepts(n.peers, targets, rpc) <==> out != map[])
            && (targets == [] <==> !exists p :: p in order && Valid(n.router, source, p))
            && (targets == [] ==> out == map[])
  {
    hide FilterValid, Valid, Accepts;
    var targets := FilterValid(n.router, source, order);
    var out := Takers(n.peers, targets, rpc);
    FilterKeepsDistinct(n.router, source, order);
    AcceptsMeans(n.peers, rpc);
    SentAre(n.peers, targets, rpc, id, tx, out);
    FilteredAnnounced(n.router, source, order, out, id, tx);
    if targets != [] {
      assert targets[0] in targets;
    }
    if p :| p in out {
      assert p in targets && p in out;
    }
  }

  lemma AcceptsMeans(peers: map<PeerId, Peer>, rpc: RpcOut)
    ensures forall p :: Accepts(peers, p, rpc) ==> p in peers
  {}

  // ---- The result of a publication ----

  /** The data can be sent at all. */
  ghost predicate Fits(n: Node, data: Bytes) {
    n.cfg.outbound(data).Some? && |n.cfg.outbound(data).value| <= n.cfg.maxTransmitSize
  }

  /** What `publish` makes of the data when nothing stops it: the node is the author, the number is the next one,
      and what is sent and signed is the data after the transform. */
  lemma BuiltMeans(n: Node, data: Bytes)
    ensures Built(n, data).Some? <==>
              && Fits(n, data) && n.publishConfig.lastSeqno < MAX_U64
              && (n.publishConfig.Signing? ==>
                    n.cfg.sign(n.Own(), n.publishConfig.lastSeqno + 1, n.cfg.outbound(data).value).Some?)
    ensures Built(n, data).Some? ==>
              var raw := Built(n, data).value;
              && raw.from == n.Own() && raw.seqno == n.publishConfig.lastSeqno + 1
              && raw.data == n.cfg.outbound(data).value
              && raw.signature == (if n.publishConfig.Signing? then n.cfg.sign(n.Own(), raw.seqno, raw.data) else None)
              && raw.key == (if n.publishConfig.Signing? then n.publishConfig.inlineKey else None)
  {}

  ghost function PublishId(n: Node, data: Bytes): TxId {
    n.cfg.transactionId(Transaction(n.Own(), n.publishConfig.lastSeqno + 1, data))
  }

  lemma NewMeans(n: Node, data: Bytes)
    ensures PublishesNew(n, data) <==> Built(n, data).Some? && PublishId(n, data) !in n.cache.values
  {
    BuiltMeans(n, data);
  }

  /** Some connected peer is a valid target of what the node publishes. */
  ghost predicate HasTarget(n: Node) {
    exists p :: p in n.peers && Valid(n.router, n.Own(), p)
  }

  /** Whom a publication goes to. */
  ghost function Reached(n: Node, now: nat, data: Bytes, order: seq<PeerId>): map<PeerId, RpcOut> {
    if PublishesNew(n, data) then PublishOut(n, now, Built(n, data).value, order) else map[]
  }

  /** Each result of `publish` is given exactly when it should be: each error for its own cause, and success if
      and only if the id is new and some peer takes the transaction. A number is used up unless the data does not
      fit or there is none left, and TransactionSent names exactly the peers that took it. */
  lemma PublishAnswers(n: Node, now: nat, data: Bytes, order: seq<PeerId>)
    requires Consistent(n.cache) && IsOrderOf(order, n.peers.Keys)
    ensures var (e, result) := PublishData(n, now, data, order);
            var out := Reached(n, now, data, order);
            && (result == TransformFailed <==> n.cfg.outbound(data) == None)
            && (result == TransactionTooLarge <==> n.cfg.outbound(data).Some? && !Fits(n, data))
            && (result == SeqnoExhausted <==> Fits(n, data) && n.publishConfig.lastSeqno >= MAX_U64)
            && (result == SigningError <==>
                Fits(n, data) && n.publishConfig.lastSeqno < MAX_U64 && Built(n, data).None?)
            && (result == Duplicate <==> Built(n, data).Some? && PublishId(n, data) in n.cache.values)
            && (result == InsufficientPeers <==> PublishesNew(n, data) && !HasTarget(n))
            && (result == AllQueuesFull(|n.peers|) <==> PublishesNew(n, data) && HasTarget(n) && out == map[])
            && (result == Published(PublishId(n, data)) <==> PublishesNew(n, data) && out != map[])
            && (result.AllQueuesFull? ==> result.attempted == |n.peers|)
            && (result.Published? ==> result.id == PublishId(n, data))
            && e.node.publishConfig == n.publishConfig.(lastSeqno :=
                 n.publishConfig.lastSeqno + if Fits(n, data) && n.publishConfig.lastSeqno < MAX_U64 then 1 else 0)
            && e.events == Announced(order, out, PublishId(n, data),
                                     Transaction(n.Own(), n.publishConfig.lastSeqno + 1, data))
  {
    hide FilterValid, OfferAll, SentEvents, AnyAccepts, Inserted, Valid, Takers, Built, PublishData, PublishNew,
         Announced, HasTarget, PublishesNew, PublishOut, Consistent;
    BuiltMeans(n, data);
    NewMeans(n, data);
    if PublishesNew(n, data) {
      PublishedNew(n, now, data, order);
    } else {
      NotPublished(n, now, data, order);
      NobodyAnnounced(order, PublishId(n, data), Transaction(n.Own(), n.publishConfig.lastSeqno + 1, data));
    }
  }

  lemma {:induction false} NobodyAnnounced(order: seq<PeerId>, id: TxId, tx: Transaction)
    ensures Announced(order, map[], id, tx) == []
  {
    if order != [] {
      NobodyAnnounced(order[..|order| - 1], id, tx);
    }
  }

  lemma NotPublished(n: Node, now: nat, data: Bytes, order: seq<PeerId>)
    requires Consistent(n.cache) && !PublishesNew(n, data)
    ensures var (e, result) := PublishData(n, now, data, order);
            && result == (if n.cfg.outbound(data).None? then TransformFailed
                          else if !Fits(n, data) then TransactionTooLarge
                          else if n.publishConfig.lastSeqno >= MAX_U64 then SeqnoExhausted
                          else if Built(n, data).None? then SigningError
                          else Duplicate)
            && e.events == []
            && e.node.publishConfig == n.publishConfig.(lastSeqno :=
                 n.publishConfig.lastSeqno + if Fits(n, data) && n.publishConfig.lastSeqno < MAX_U64 then 1 else 0)
  {
    hide PublishNew;
  }

  lemma PublishedNew(n: Node, now: nat, data: Bytes, order: seq<PeerId>)
    requires Consistent(n.cache) && PublishesNew(n, data) && IsOrderOf(order, n.peers.Keys)
    ensures var (e, result) := PublishData(n, now, data, order);
            var out := Reached(n, now, data, order);
            && result == (if !HasTarget(n) then InsufficientPeers
                          else if out == map[] then AllQueuesFull(|n.peers|)
                          else Published(PublishId(n, data)))
            && (!HasTarget(n) ==> out == map[])
            && e.events == Announced(order, out, PublishId(n, data),
                                     Transaction(n.Own(), n.publishConfig.lastSeqno + 1, data))
            && e.node.publishConfig == n.publishConfig.(lastSeqno := n.publishConfig.lastSeqno + 1)
  {
    hide FilterValid, OfferAll, SentEvents, AnyAccepts, Inserted, Valid, Takers, Announced;
    BuiltMeans(n, data);
    var raw := Built(n, data).value;
    OfferTells(n, n.Own(), order, RpcOut.Publish(raw, now + n.cfg.publishDuration), PublishId(n, data),
               Transaction(raw.from, raw.seqno, data));
  }

  // ---- The events of one transaction ----

  /** A transaction that passes the transform is reported with the peer it came from, its id and its content; then
      come the peers it was forwarded to, or the HaveTx it was answered with. */
  lemma ReceiveTells(n: Node, now: nat, raw: RawTransaction, source: PeerId, order: seq<PeerId>)
    requires Consistent(n.cache) && IsOrderOf(order, n.peers.Keys)
    ensures var events := ReceiveTransaction(n, now, raw, source, order).events;
            var out := ReceiveOut(n, now, raw, source, order);
            match n.cfg.inbound(raw)
            case None => events == [] && out == map[]
            case Some(tx) =>
              var id := n.cfg.transactionId(tx);
              var sent := Transaction(raw.from, raw.seqno, raw.data);
              events == [TransactionReceived(source, id, tx)]
                        + if Inserted(n.cache, now, id, source).1 then Announced(order, out, id, sent)
                          else if source in out then [HaveTxSent(source, id)]
                          else []
  {
    hide Inserted, FilterValid, ForwardCandidates, OfferAll, SentEvents, Takers, Announced, Accepts, OfferTo;
    if n.cfg.inbound(raw).Some? {
      var id := n.cfg.transactionId(n.cfg.inbound(raw).value);
      var tx := Transaction(raw.from, raw.seqno, raw.data);
      ForwardTells(n, now, id, raw, source, order);
      NobodyAnnounced(order, id, tx);
    }
  }

  lemma ForwardTells(n: Node, now: nat, id: TxId, raw: RawTransaction, source: PeerId, order: seq<PeerId>)
    requires IsOrderOf(order, n.peers.Keys)
    ensures var rpc := RpcOut.Forward(raw, now + n.cfg.forwardDuration);
            var candidates := ForwardCandidates(order, source, raw.from);
            var targets := FilterValid(n.router, source, candidates);
            var tx := Transaction(raw.from, raw.seqno, raw.data);
            SentEvents(n.peers, targets, rpc, id, tx) == Announced(order, Takers(n.peers, targets, rpc), id, tx)
  {
    hide FilterValid, ForwardCandidates, OfferAll, SentEvents, Announced, Accepts;
    var rpc := RpcOut.Forward(raw, now + n.cfg.forwardDuration);
    var candidates := ForwardCandidates(order, source, raw.from);
    var out := Takers(n.peers, FilterValid(n.router, source, candidates), rpc);
    var tx := Transaction(raw.from, raw.seqno, raw.data);
    CandidatesDistinct(order, source, raw.from);
    OfferTells(n, source, candidates, rpc, id, tx);
    CandidatesAnnounced(order, source, raw.from, out, id, tx);
  }
}

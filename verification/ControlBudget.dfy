/** How many control messages a node sends over its life, told from the events it reports and from
    which transactions were new to its cache. */
module ControlBudget {
  import opened Types
  import opened TimeCache
  import opened Routing
  import opened SendQueues
  import opened Nodes

  /** The entry points of the behaviour, and the handler's side of a send queue. */
  datatype Call =
    | Publish(now: nat, data: Bytes, order: seq<PeerId>)
    | Receive(now: nat, rpc: Rpc, source: PeerId, order: seq<PeerId>, pick: nat)
    | Adjust(choice: Option<PeerId>)
    | Connect(peer: PeerId, connection: ConnectionId)
    | Close(peer: PeerId, connection: ConnectionId, remaining: nat, choice: Option<PeerId>)
    | Dequeue(peer: PeerId, queue: SendQueue)

  predicate Adjusts(call: Call) { call.Adjust? || (call.Close? && call.remaining == 0) }

  /** Random outcomes have to be possible ones. */
  ghost predicate Possible(n: Node, call: Call) {
    && (Adjusts(call) ==> IsCreditorChoice(n.router, call.choice))
    && (call.Dequeue? ==> call.peer in n.peers)
  }

  ghost function Answer(n: Node, call: Call): (e: Effect)
    requires Consistent(n.cache)
    ensures Consistent(e.node.cache)
  {
    match call
    case Publish(now, data, order) => PublishData(n, now, data, order).0
    case Receive(now, rpc, source, order, pick) => ReceiveRpc(n, now, rpc, source, order, pick)
    case Adjust(choice) => AdjustRedundancy(n, choice)
    case Connect(peer, connection) => Effect(Established(n, peer, connection), [])
    case Close(peer, connection, remaining, choice) => Closed(n, peer, connection, remaining, choice)
    case Dequeue(peer, queue) =>
        Effect(if peer in n.peers then n.(peers := n.peers[peer := n.peers[peer].(queue := queue)]) else n, [])
  }

  // ---- Counting events ----

  datatype Kind = HaveTxTo(peer: PeerId) | AnyHaveTx | ResetTo(peer: PeerId) | AnyReset | AnyReceived

  predicate Is(kind: Kind, e: Event) {
    match kind
    case HaveTxTo(p) => e.HaveTxSent? && e.propagationTarget == p
    case AnyHaveTx => e.HaveTxSent?
    case ResetTo(p) => e.ResetRouteSent? && e.propagationTarget == p
    case AnyReset => e.ResetRouteSent?
    case AnyReceived => e.TransactionReceived?
  }

  function Count(kind: Kind, events: seq<Event>): nat {
    if events == [] then 0 else Count(kind, events[..|events| - 1]) + if Is(kind, events[|events| - 1]) then 1 else 0
  }

  lemma {:induction false} CountConcat(kind: Kind, a: seq<Event>, b: seq<Event>)
    ensures Count(kind, a + b) == Count(kind, a) + Count(kind, b)
  {
    if b == [] {
      assert a + b == a;
    } else {
      CountConcat(kind, a, b[..|b| - 1]);
      assert (a + b)[..|a + b| - 1] == a + b[..|b| - 1];
    }
  }

  lemma CountOne(kind: Kind, e: Event)
    ensures Count(kind, [e]) == if Is(kind, e) then 1 else 0
  {
    assert [e][..0] == [];
  }

  lemma {:induction false} CountNone(kind: Kind, events: seq<Event>)
    requires forall e :: e in events ==> !Is(kind, e)
    ensures Count(kind, events) == 0
  {
    if events != [] {
      var k := |events| - 1;
      assert events[k] in events && forall e :: e in events[..k] ==> e in events;
      CountNone(kind, events[..k]);
    }
  }

  function Flags(s: seq<bool>, flag: bool): nat {
    if s == [] then 0 else Flags(s[..|s| - 1], flag) + if s[|s| - 1] == flag then 1 else 0
  }

  lemma {:induction false} FlagsConcat(a: seq<bool>, b: seq<bool>, flag: bool)
    ensures Flags(a + b, flag) == Flags(a, flag) + Flags(b, flag)
  {
    if b == [] {
      assert a + b == a;
    } else {
      FlagsConcat(a, b[..|b| - 1], flag);
      assert (a + b)[..|a + b| - 1] == a + b[..|b| - 1];
    }
  }

  lemma {:induction false} FlagsSplit(s: seq<bool>)
    ensures Flags(s, true) + Flags(s, false) == |s|
  {
    if s != [] {
      FlagsSplit(s[..|s| - 1]);
    }
  }

  // ---- What arrives, told from the cache alone ----

  /** For every transaction that passes the transform, whether the cache had not seen it. */
  ghost function News(cfg: Config, cache: Cache<TxId, PeerId>, now: nat, txs: seq<RawTransaction>,
                      source: PeerId): (r: (seq<bool>, Cache<TxId, PeerId>))
    requires Consistent(cache)
    ensures Consistent(r.1)
  {
    if txs == [] then ([], cache)
    else
      var (news, c) := News(cfg, cache, now, txs[..|txs| - 1], source);
      match cfg.RawId(txs[|txs| - 1])
      case None => (news, c)
      case Some(id) => (news + [Inserted(c, now, id, source).1], Inserted(c, now, id, source).0)
  }

  ghost function CallNews(n: Node, call: Call): seq<bool>
    requires Consistent(n.cache)
  {
    match call
    case Receive(now, rpc, source, _, _) => News(n.cfg, n.cache, now, Permitted(n.cfg, rpc.transactions), source).0
    case _ => []
  }

  // ---- The ledger of a node ----

  /** There were first-time transactions, and the duplicates for each are more than the target by more than the
      percentage configured, or less by more than it. */
  predicate TooMuch(cfg: Config, news: seq<bool>) {
    && Flags(news, true) > 0
    && 100.0 * Flags(news, false) as real >
         cfg.targetRedundancy * (100 + cfg.redundancyDeltaPercent) as real * Flags(news, true) as real
  }

  predicate TooLittle(cfg: Config, news: seq<bool>) {
    && Flags(news, true) > 0
    && 100.0 * Flags(news, false) as real <
         cfg.targetRedundancy * (100 - cfg.redundancyDeltaPercent) as real * Flags(news, true) as real
  }

  /** The bounds are those of the configuration. */
  ghost predicate BoundsOf(n: Node) {
    var c := NewController(n.cfg.targetRedundancy, n.cfg.redundancyDeltaPercent);
    n.controller.lower == c.lower && n.controller.upper == c.upper
  }

  /** The controller decides by the target and the percentage. */
  lemma DecidesByTarget(n: Node, news: seq<bool>)
    requires BoundsOf(n) && n.cfg.targetRedundancy >= 0.0
    requires n.controller.firstTime == Flags(news, true) && n.controller.duplicates == Flags(news, false)
    ensures var (c', _, askForRoute) := Evaluate(n.controller);
            && (askForRoute <==> TooLittle(n.cfg, news))
            && (c'.haveTxBlocked <==> n.controller.haveTxBlocked && !TooMuch(n.cfg, news))
            && c' == n.controller.(haveTxBlocked := c'.haveTxBlocked)
  {
    hide Evaluate, Flags;
    var t, p: int := n.cfg.targetRedundancy, n.cfg.redundancyDeltaPercent;
    var f, d := Flags(news, true) as real, Flags(news, false) as real;
    BoundsInOrder(t, p);
    EvaluateMeans(n.controller);
    Hundredfold(n.controller.lower, t * (100 - p) as real, f, d) by { LowerBound(t, p); }
    Hundredfold(n.controller.upper, t * (100 + p) as real, f, d) by { UpperBound(t, p); }
  }

  lemma LowerBound(t: real, p: nat)
    ensures 100.0 * NewController(t, p).lower == t * (100 - p) as real
  {}

  lemma UpperBound(t: real, p: nat)
    ensures 100.0 * NewController(t, p).upper == t * (100 + p) as real
  {}

  lemma Hundredfold(bound: real, b: real, f: real, d: real)
    requires 100.0 * bound == b
    ensures d < bound * f <==> 100.0 * d < b * f
    ensures d > bound * f <==> 100.0 * d > b * f
  {
    assert 100.0 * (bound * f) == b * f;
  }

  /** Credits move with the events; a HaveTx needs, and uses up, the permission to send one. */
  ghost predicate Moves(n: Node, n': Node, events: seq<Event>, above: nat, below: nat) {
    && n'.cfg == n.cfg && n'.controller.lower == n.controller.lower && n'.controller.upper == n.controller.upper
    && (forall p {:trigger Credit(n'.router, p)} ::
          Credit(n'.router, p) + Count(ResetTo(p), events) == Credit(n.router, p) + Count(HaveTxTo(p), events))
    && Count(AnyHaveTx, events) + (if n.controller.haveTxBlocked then 1 else 0) <=
         above + (if n'.controller.haveTxBlocked then 1 else 0)
    && Count(AnyReset, events) <= below
  }

  lemma MovesThen(n: Node, n1: Node, n2: Node, e1: seq<Event>, e2: seq<Event>, a1: nat, a2: nat, b1: nat, b2: nat)
    requires Moves(n, n1, e1, a1, b1) && Moves(n1, n2, e2, a2, b2)
    ensures Moves(n, n2, e1 + e2, a1 + a2, b1 + b2)
  {
    hide Count, Credit;
    CountConcat(AnyHaveTx, e1, e2);
    CountConcat(AnyReset, e1, e2);
    forall p
      ensures Credit(n2.router, p) + Count(ResetTo(p), e1 + e2) == Credit(n.router, p) + Count(HaveTxTo(p), e1 + e2)
    {
      CountConcat(ResetTo(p), e1, e2);
      CountConcat(HaveTxTo(p), e1, e2);
      assert Credit(n1.router, p) + Count(ResetTo(p), e1) == Credit(n.router, p) + Count(HaveTxTo(p), e1);
    }
  }

  /** Events that announce no control message, and nothing else moves. */
  lemma MovesNothing(n: Node, n': Node, events: seq<Event>)
    requires n'.cfg == n.cfg && n'.controller.lower == n.controller.lower && n'.controller.upper == n.controller.upper
    requires n'.router.haveTxSent == n.router.haveTxSent && n'.controller.haveTxBlocked == n.controller.haveTxBlocked
    requires forall e :: e in events ==> !e.HaveTxSent? && !e.ResetRouteSent?
    ensures Moves(n, n', events, 0, 0)
  {
    hide Count;
    CountNone(AnyHaveTx, events);
    CountNone(AnyReset, events);
    forall p
      ensures Credit(n'.router, p) + Count(ResetTo(p), events) == Credit(n.router, p) + Count(HaveTxTo(p), events)
    {
      CountNone(ResetTo(p), events);
      CountNone(HaveTxTo(p), events);
    }
  }

  lemma {:induction false} SentEventsAreSent(peers: map<PeerId, Peer>, targets: seq<PeerId>, rpc: RpcOut, id: TxId,
                                             tx: Transaction)
    ensures forall e :: e in SentEvents(peers, targets, rpc, id, tx) ==> e.TransactionSent?
  {
    if targets != [] {
      SentEventsAreSent(peers, targets[..|targets| - 1], rpc, id, tx);
    }
  }

  lemma AnswerMoves(n: Node, id: TxId, source: PeerId)
    ensures var e := AnswerDuplicate(n, id, source);
            && Moves(n, e.node, e.events, 0, 0) && Count(AnyReceived, e.events) == 0
            && e.node.controller == n.controller.(haveTxBlocked := e.node.controller.haveTxBlocked)
            && e.node.cache == n.cache
  {
    hide OfferTo, Accepts;
    var e := AnswerDuplicate(n, id, source);
    if n.cfg.sendHaveTx && !n.controller.haveTxBlocked && Accepts(n.peers, source, HaveTx(id)) {
      forall kind: Kind
        ensures Count(kind, e.events) == if Is(kind, HaveTxSent(source, id)) then 1 else 0
      {
        CountOne(kind, HaveTxSent(source, id));
      }
    } else {
      MovesNothing(n, e.node, []);
    }
  }

  /** One transaction: the counters move with what the cache says of it. */
  lemma ReceiveMoves(n: Node, now: nat, raw: RawTransaction, source: PeerId, order: seq<PeerId>)
    requires Consistent(n.cache)
    ensures var e := ReceiveTransaction(n, now, raw, source, order);
            var id := n.cfg.RawId(raw);
            && Moves(n, e.node, e.events, 0, 0)
            && Count(AnyReceived, e.events) == (if id.Some? then 1 else 0)
            && (id.None? ==> e.node == n)
            && (id.Some? ==>
                  var (c, isNew) := Inserted(n.cache, now, id.value, source);
                  && e.node.cache == c
                  && e.node.controller.firstTime == n.controller.firstTime + (if isNew then 1 else 0)
                  && e.node.controller.duplicates == n.controller.duplicates + (if isNew then 0 else 1))
  {
    hide Inserted, AnswerDuplicate, Count, Moves, OfferAll, SentEvents, FilterValid, ForwardCandidates;
    var e := ReceiveTransaction(n, now, raw, source, order);
    match n.cfg.inbound(raw)
    case None =>
      MovesNothing(n, n, []);
      CountNone(AnyReceived, []);
    case Some(tx) =>
      var id := n.cfg.transactionId(tx);
      var (c, isNew) := Inserted(n.cache, now, id, source);
      var first := [TransactionReceived(source, id, tx)];
      CountOne(AnyReceived, first[0]);
      if isNew {
        var n1 := n.(cache := c, controller := n.controller.(firstTime := n.controller.firstTime + 1));
        ForwardQuiet(n1, now, id, raw, source, order);
        var rest := e.events[1..];
        assert e.events == first + rest;
        CountConcat(AnyReceived, first, rest);
        CountNone(AnyReceived, rest);
        MovesNothing(n, e.node, e.events);
      } else {
        var n1 := n.(cache := c, controller := n.controller.(duplicates := n.controller.duplicates + 1));
        var answer := AnswerDuplicate(n1, id, source);
        MovesNothing(n, n1, first);
        AnswerMoves(n1, id, source);
        MovesThen(n, n1, answer.node, first, answer.events, 0, 0, 0, 0);
        CountConcat(AnyReceived, first, answer.events);
      }
  }

  lemma ForwardQuiet(n: Node, now: nat, id: TxId, raw: RawTransaction, source: PeerId, order: seq<PeerId>)
    ensures var e := ForwardTransaction(n, now, id, raw, source, order);
            && e.node == n.(peers := e.node.peers)
            && forall x :: x in e.events ==> x.TransactionSent?
  {
    hide OfferAll, FilterValid, ForwardCandidates;
    SentEventsAreSent(n.peers, FilterValid(n.router, source, ForwardCandidates(order, source, raw.from)),
                      RpcOut.Forward(raw, now + n.cfg.forwardDuration), id, Transaction(raw.from, raw.seqno, raw.data));
  }

  /** The counters agree with what has arrived. */
  ghost predicate Counted(c: ControllerState, c': ControllerState, news: seq<bool>) {
    c'.firstTime == c.firstTime + Flags(news, true) && c'.duplicates == c.duplicates + Flags(news, false)
  }

  lemma {:induction false} ReceiveAllMoves(n: Node, now: nat, txs: seq<RawTransaction>, source: PeerId,
                                           order: seq<PeerId>)
    requires Consistent(n.cache)
    ensures var e := ReceiveTransactions(n, now, txs, source, order);
            var (news, c) := News(n.cfg, n.cache, now, txs, source);
            && Moves(n, e.node, e.events, 0, 0) && Count(AnyReceived, e.events) == |news|
            && e.node.cache == c && Counted(n.controller, e.node.controller, news)
  {
    hide ReceiveTransaction, ReceiveTransactions, News, Flags, Inserted, Moves, Count, Consistent;
    if txs == [] {
      NothingReceived(n, now, source, order);
      MovesNothing(n, n, []);
      CountNone(AnyReceived, []);
    } else {
      var k := |txs| - 1;
      ReceiveAllMoves(n, now, txs[..k], source, order);
      LastReceived(n, now, txs, source, order);
      var e1 := ReceiveTransactions(n, now, txs[..k], source, order);
      var e2 := ReceiveTransaction(e1.node, now, txs[k], source, order);
      ReceiveMoves(e1.node, now, txs[k], source, order);
      MovesThen(n, e1.node, e2.node, e1.events, e2.events, 0, 0, 0, 0);
      CountConcat(AnyReceived, e1.events, e2.events);
      SameConfig(n, e1.node, e1.events);
      var news := News(n.cfg, n.cache, now, txs[..k], source).0;
      FlagsOneMore(news, true);
      FlagsOneMore(news, false);
    }
  }

  lemma NothingReceived(n: Node, now: nat, source: PeerId, order: seq<PeerId>)
    requires Consistent(n.cache)
    ensures ReceiveTransactions(n, now, [], source, order) == Effect(n, [])
    ensures News(n.cfg, n.cache, now, [], source) == ([], n.cache)
    ensures Flags([], true) == 0 && Flags([], false) == 0
  {}

  /** The last transaction of several. */
  lemma LastReceived(n: Node, now: nat, txs: seq<RawTransaction>, source: PeerId, order: seq<PeerId>)
    requires Consistent(n.cache) && txs != []
    ensures var k := |txs| - 1;
            var e1 := ReceiveTransactions(n, now, txs[..k], source, order);
            var e2 := ReceiveTransaction(e1.node, now, txs[k], source, order);
            var (news, c) := News(n.cfg, n.cache, now, txs[..k], source);
            var id := n.cfg.RawId(txs[k]);
            && ReceiveTransactions(n, now, txs, source, order) == Effect(e2.node, e1.events + e2.events)
            && News(n.cfg, n.cache, now, txs, source) ==
                 if id.None? then (news, c)
                 else (news + [Inserted(c, now, id.value, source).1], Inserted(c, now, id.value, source).0)
  {
    hide ReceiveTransaction, Inserted, Consistent;
  }

  lemma FlagsOneMore(news: seq<bool>, flag: bool)
    ensures forall b :: Flags(news + [b], flag) == Flags(news, flag) + if b == flag then 1 else 0
  {
    forall b
      ensures Flags(news + [b], flag) == Flags(news, flag) + if b == flag then 1 else 0
    {
      assert (news + [b])[..|news|] == news;
    }
  }

  lemma SameConfig(n: Node, n': Node, events: seq<Event>)
    requires Moves(n, n', events, 0, 0)
    ensures n'.cfg == n.cfg
  {
    hide Count, Credit;
  }

  lemma {:induction false} DisableKeepsCredits(r: RouterState, values: map<TxId, PeerId>, ids: seq<TxId>,
                                               source: PeerId)
    ensures DisableRoutes(r, values, ids, source).haveTxSent == r.haveTxSent
  {
    if ids != [] {
      DisableKeepsCredits(r, values, ids[..|ids| - 1], source);
    }
  }

  lemma {:induction false} HaveTxReceivedOnly(ids: seq<TxId>, source: PeerId)
    ensures forall e :: e in HaveTxReceivedEvents(ids, source) ==> e.HaveTxReceived?
  {
    if ids != [] {
      HaveTxReceivedOnly(ids[..|ids| - 1], source);
    }
  }

  /** Control messages received move neither credits nor counters. */
  ghost predicate Silent(n: Node, n': Node, events: seq<Event>) {
    && n' == n.(router := n'.router) && n'.router.haveTxSent == n.router.haveTxSent
    && forall e :: e in events ==> e.HaveTxReceived? || e.ResetRouteReceived? || e.RoutingUpdated?
  }

  lemma HaveTxSilent(n: Node, ids: seq<TxId>, source: PeerId)
    ensures Silent(n, ReceiveHaveTx(n, ids, source).node, ReceiveHaveTx(n, ids, source).events)
  {
    hide DisableRoutes, HaveTxReceivedEvents;
    DisableKeepsCredits(n.router, n.cache.values, ids, source);
    HaveTxReceivedOnly(ids, source);
  }

  lemma ResetSilent(n: Node, source: PeerId, pick: nat)
    ensures Silent(n, ReceiveResetRoute(n, source, pick).node, ReceiveResetRoute(n, source, pick).events)
  {
    hide EnableRoute;
    EnableRemovesOne(n.router, source, pick);
  }

  lemma SilentMoves(n: Node, n1: Node, e1: seq<Event>, n2: Node, e2: seq<Event>)
    requires Moves(n, n1, e1, 0, 0) && Silent(n1, n2, e2)
    ensures Moves(n, n2, e1 + e2, 0, 0) && Count(AnyReceived, e1 + e2) == Count(AnyReceived, e1)
  {
    hide Moves, Count;
    MovesNothing(n1, n2, e2);
    MovesThen(n, n1, n2, e1, e2, 0, 0, 0, 0);
    CountConcat(AnyReceived, e1, e2);
    CountNone(AnyReceived, e2);
  }

  lemma RpcMoves(n: Node, now: nat, rpc: Rpc, source: PeerId, order: seq<PeerId>, pick: nat)
    requires Consistent(n.cache)
    ensures var e := ReceiveRpc(n, now, rpc, source, order, pick);
            var news := News(n.cfg, n.cache, now, Permitted(n.cfg, rpc.transactions), source).0;
            && Moves(n, e.node, e.events, 0, 0) && Count(AnyReceived, e.events) == |news|
            && Counted(n.controller, e.node.controller, news)
  {
    hide ReceiveTransactions, News, Moves, Count, HaveTxIds, Permitted, ReceiveHaveTx, ReceiveResetRoute, Consistent;
    var e1 := ReceiveTransactions(n, now, Permitted(n.cfg, rpc.transactions), source, order);
    ReceiveAllMoves(n, now, Permitted(n.cfg, rpc.transactions), source, order);
    var ids := HaveTxIds(rpc.controlMsgs);
    var e2 := if ids != [] && !n.cfg.ignoreHaveTx then ReceiveHaveTx(e1.node, ids, source) else Effect(e1.node, []);
    var e3 := if ResetRouteMsg in rpc.controlMsgs then ReceiveResetRoute(e2.node, source, pick)
        else Effect(e2.node, []);
    HaveTxSilent(e1.node, ids, source);
    ResetSilent(e2.node, source, pick);
    SameConfig(n, e1.node, e1.events);
    SilentMoves(n, e1.node, e1.events, e2.node, e2.events);
    SilentMoves(n, e2.node, e1.events + e2.events, e3.node, e3.events);
    assert ReceiveRpc(n, now, rpc, source, order, pick).events == e1.events + e2.events + e3.events;
  }

  /** An evaluation: what the controller decides, told from what has arrived since the last one. */
  lemma AdjustMoves(n: Node, choice: Option<PeerId>, news: seq<bool>)
    requires IsCreditorChoice(n.router, choice) && BoundsOf(n) && n.cfg.targetRedundancy >= 0.0
    requires n.controller.firstTime == Flags(news, true) && n.controller.duplicates == Flags(news, false)
    ensures var e := AdjustRedundancy(n, choice);
            && Moves(n, e.node, e.events, if TooMuch(n.cfg, news) then 1 else 0,
                     if TooLittle(n.cfg, news) then 1 else 0)
            && Count(AnyReceived, e.events) == 0
            && e.node.controller.firstTime == 0 && e.node.controller.duplicates == 0
            && (choice.Some? ==> Credit(n.router, choice.value) > 0)
            && e.node.cache == n.cache
  {
    hide Evaluate, OfferTo, Accepts, Flags;
    DecidesByTarget(n, news);
    var e := AdjustRedundancy(n, choice);
    if Evaluate(n.controller).2 && choice.Some? && Accepts(n.peers, choice.value, ResetRoute) {
      forall kind: Kind
        ensures Count(kind, e.events) == if Is(kind, ResetRouteSent(choice.value)) then 1 else 0
      {
        CountOne(kind, ResetRouteSent(choice.value));
      }
    } else {
      assert e.events == [];
    }
    assert Flags([], true) == 0 && Flags([], false) == 0 by { FlagsSplit([]); }
  }

  lemma CloseMoves(n: Node, peer: PeerId, connection: ConnectionId, remaining: nat, choice: Option<PeerId>,
                   news: seq<bool>)
    requires remaining == 0 && IsCreditorChoice(n.router, choice) && BoundsOf(n) && n.cfg.targetRedundancy >= 0.0
    requires n.controller.firstTime == Flags(news, true) && n.controller.duplicates == Flags(news, false)
    ensures var e := Closed(n, peer, connection, remaining, choice);
            && Moves(n, e.node, e.events, if TooMuch(n.cfg, news) then 1 else 0,
                     if TooLittle(n.cfg, news) then 1 else 0)
            && Count(AnyReceived, e.events) == 0
            && e.node.controller.firstTime == 0 && e.node.controller.duplicates == 0
  {
    hide AdjustRedundancy, Moves, Count, Mentioning, TooMuch, TooLittle, Flags;
    var (r, removed) := ResetRoutesWith(n.router, peer);
    var rest := n.(router := r, peers := n.peers - {peer});
    var first := if removed != [] then [RoutingUpdated(r.disabled)] else [];
    assert Creditors(r) == Creditors(n.router);
    MovesNothing(n, rest, first);
    CountNone(AnyReceived, first);
    AdjustMoves(rest, choice, news);
    var e := AdjustRedundancy(rest, choice);
    CountConcat(AnyReceived, first, e.events);
    MovesThen(n, rest, e.node, first, e.events, 0, if TooMuch(n.cfg, news) then 1 else 0, 0,
              if TooLittle(n.cfg, news) then 1 else 0);
  }

  lemma PublishMoves(n: Node, now: nat, data: Bytes, order: seq<PeerId>)
    requires Consistent(n.cache)
    ensures var e := PublishData(n, now, data, order).0;
            && Moves(n, e.node, e.events, 0, 0) && Count(AnyReceived, e.events) == 0
            && e.node.controller == n.controller
  {
    hide Inserted, OfferAll, SentEvents, AnyAccepts, FilterValid, Moves, Count;
    var e := PublishData(n, now, data, order).0;
    PublishedEvents(n, now, data, order);
    MovesNothing(n, e.node, e.events);
    CountNone(AnyReceived, e.events);
  }

  lemma PublishedEvents(n: Node, now: nat, data: Bytes, order: seq<PeerId>)
    requires Consistent(n.cache)
    ensures forall e :: e in PublishData(n, now, data, order).0.events ==> e.TransactionSent?
  {
    hide Inserted, OfferAll, SentEvents, AnyAccepts, FilterValid;
    forall peers, targets, rpc, id, tx
      ensures forall e :: e in SentEvents(peers, targets, rpc, id, tx) ==> e.TransactionSent?
    {
      SentEventsAreSent(peers, targets, rpc, id, tx);
    }
  }

  // ---- Runs ----

  /** What an onlooker can keep: the events, what has arrived since the last evaluation and the
      events since then, and how many evaluations were above and below the bounds. */
  datatype Ledger = Ledger(events: seq<Event>, news: seq<bool>, recent: seq<Event>, above: nat, below: nat)

  ghost function Entered(l: Ledger, n: Node, call: Call): Ledger
    requires Consistent(n.cache)
  {
    var events := Answer(n, call).events;
    if Adjusts(call) then
      Ledger(l.events + events, [], [],
             l.above + (if TooMuch(n.cfg, l.news) then 1 else 0),
                 l.below + (if TooLittle(n.cfg, l.news) then 1 else 0))
    else Ledger(l.events + events, l.news + CallNews(n, call), l.recent + events, l.above, l.below)
  }

  /** A node and its ledger after some calls; calls that are not possible do nothing. */
  ghost function After(cfg: Config, publishConfig: PublishConfig, calls: seq<Call>): (r: (Node, Ledger))
    ensures Consistent(r.0.cache)
  {
    if calls == [] then (NewNode(cfg, publishConfig), Ledger([], [], [], 0, 0))
    else
      var (n, l) := After(cfg, publishConfig, calls[..|calls| - 1]);
      var call := calls[|calls| - 1];
      if Possible(n, call) then (Answer(n, call).node, Entered(l, n, call)) else (n, l)
  }

  ghost predicate InBudget(start: Node, n: Node, l: Ledger) {
    && Moves(start, n, l.events, l.above, l.below)
    && n.controller.firstTime == Flags(l.news, true) && n.controller.duplicates == Flags(l.news, false)
    && |l.news| == Count(AnyReceived, l.recent)
  }

  lemma CallInBudget(start: Node, n: Node, l: Ledger, call: Call)
    requires InBudget(start, n, l) && Consistent(n.cache) && Possible(n, call)
    requires BoundsOf(start) && start.cfg.targetRedundancy >= 0.0
    ensures InBudget(start, Answer(n, call).node, Entered(l, n, call))
  {
    hide Moves, Count, Flags, TooMuch, TooLittle, PublishData, ReceiveRpc, AdjustRedundancy, Closed, Consistent,
         News, Established;
    var e := Answer(n, call);
    MovesBounds(start, n, l.events, l.above, l.below);
    FlagsConcat(l.news, CallNews(n, call), true);
    FlagsConcat(l.news, CallNews(n, call), false);
    CountConcat(AnyReceived, l.recent, e.events);
    Nothing(l.news, l.recent);
    match call
    case Publish(now, data, order) =>
      PublishMoves(n, now, data, order);
      MovesThen(start, n, e.node, l.events, e.events, l.above, 0, l.below, 0);
    case Receive(now, rpc, source, order, pick) =>
      RpcMoves(n, now, rpc, source, order, pick);
      MovesThen(start, n, e.node, l.events, e.events, l.above, 0, l.below, 0);
    case Adjust(choice) =>
      AdjustMoves(n, choice, l.news);
      MovesThen(start, n, e.node, l.events, e.events, l.above, if TooMuch(n.cfg, l.news) then 1 else 0,
                l.below, if TooLittle(n.cfg, l.news) then 1 else 0);
    case Close(peer, connection, remaining, choice) =>
      if remaining == 0 {
        CloseMoves(n, peer, connection, remaining, choice, l.news);
        MovesThen(start, n, e.node, l.events, e.events, l.above,
                  if TooMuch(n.cfg, l.news) then 1 else 0,
                  l.below, if TooLittle(n.cfg, l.news) then 1 else 0);
      } else {
        CloseOneOfMany(n, peer, connection, remaining, choice);
        MovesNothing(n, e.node, e.events);
        MovesThen(start, n, e.node, l.events, e.events, l.above, 0, l.below, 0);
      }
    case _ =>
      PeersOnly(n, call);
      MovesNothing(n, e.node, e.events);
      MovesThen(start, n, e.node, l.events, e.events, l.above, 0, l.below, 0);
  }

  lemma Nothing(news: seq<bool>, recent: seq<Event>)
    ensures news + [] == news && recent + [] == recent && Flags([], true) == 0 && Flags([], false) == 0 &&
              forall kind :: Count(kind, []) == 0
  {}

  lemma MovesBounds(n: Node, n': Node, events: seq<Event>, above: nat, below: nat)
    requires Moves(n, n', events, above, below)
    ensures n'.controller.lower == n.controller.lower && n'.controller.upper == n.controller.upper && n'.cfg == n.cfg
  {
    hide Count, Credit;
  }

  lemma CloseOneOfMany(n: Node, peer: PeerId, connection: ConnectionId, remaining: nat, choice: Option<PeerId>)
    requires remaining != 0
    ensures var e := Closed(n, peer, connection, remaining, choice);
            e.events == [] && e.node == n.(peers := e.node.peers)
  {}

  lemma PeersOnly(n: Node, call: Call)
    requires Consistent(n.cache) && (call.Connect? || call.Dequeue?)
    ensures Answer(n, call).events == [] && Answer(n, call).node == n.(peers := Answer(n, call).node.peers)
  {}

  lemma {:induction false} RunInBudget(cfg: Config, publishConfig: PublishConfig, calls: seq<Call>)
    requires cfg.targetRedundancy >= 0.0
    ensures InBudget(NewNode(cfg, publishConfig), After(cfg, publishConfig, calls).0,
                     After(cfg, publishConfig, calls).1)
  {
    hide Answer, Entered, Possible, Moves, Consistent, Flags, Count;
    var start := NewNode(cfg, publishConfig);
    Nothing([], []);
    if calls == [] {
      MovesNothing(start, start, []);
    } else {
      RunInBudget(cfg, publishConfig, calls[..|calls| - 1]);
      var (n, l) := After(cfg, publishConfig, calls[..|calls| - 1]);
      if Possible(n, calls[|calls| - 1]) {
        CallInBudget(start, n, l, calls[|calls| - 1]);
      }
    }
  }

  lemma BoundsInOrder(target: real, deltaPercent: nat)
    requires target >= 0.0
    ensures NewController(target, deltaPercent).lower <= NewController(target, deltaPercent).upper
  {}

  /** Over any life of a node: its credit for a peer is the HaveTx it reported sending there minus the
      ResetRoute; it sends at most one HaveTx more than there were evaluations above the upper bound,
      and at most as many ResetRoute as there were below the lower one; and what an evaluation
      judges are exactly the first-time and duplicate transactions reported since the last one. */
  lemma ControlMessagesAreBudgeted(cfg: Config, publishConfig: PublishConfig, calls: seq<Call>)
    requires cfg.targetRedundancy >= 0.0
    ensures var (n, l) := After(cfg, publishConfig, calls);
            && (forall p :: Credit(n.router, p) == Count(HaveTxTo(p), l.events) - Count(ResetTo(p), l.events))
            && Count(AnyHaveTx, l.events) <= 1 + l.above
            && Count(AnyReset, l.events) <= l.below
            && n.controller.firstTime == Flags(l.news, true) && n.controller.duplicates == Flags(l.news, false)
            && n.controller.firstTime + n.controller.duplicates == Count(AnyReceived, l.recent)
  {
    hide After, Count, Flags;
    RunInBudget(cfg, publishConfig, calls);
    FlagsSplit(After(cfg, publishConfig, calls).1.news);
    var (n, l) := After(cfg, publishConfig, calls);
    forall p
      ensures Credit(n.router, p) == Count(HaveTxTo(p), l.events) - Count(ResetTo(p), l.events)
    {
      assert Credit(n.router, p) + Count(ResetTo(p), l.events) ==
             Credit(NewNode(cfg, publishConfig).router, p) + Count(HaveTxTo(p), l.events);
    }
  }

  /** `remove_have_tx_sent` is called only for a peer with a positive credit: its guard against zero
      never decides anything. */
  lemma ZeroGuardNeverNeeded(n: Node, choice: Option<PeerId>)
    requires IsCreditorChoice(n.router, choice)
    ensures var e := AdjustRedundancy(n, choice);
            forall p :: ResetRouteSent(p) in e.events ==>
              Credit(n.router, p) > 0 &&
                  e.node.router == n.router.(haveTxSent := n.router.haveTxSent[p := Credit(n.router, p) - 1])
  {
    hide Evaluate, OfferTo, Accepts;
  }

  // ---- What an evaluation decides ----

  /** What an evaluation after `news` makes a node with these peers do. */
  ghost predicate Decided(n: Node, peers: map<PeerId, Peer>, e: Effect, choice: Option<PeerId>, news: seq<bool>) {
    && (forall p :: ResetRouteSent(p) in e.events <==>
          TooLittle(n.cfg, news) && choice == Some(p) && Accepts(peers, p, ResetRoute))
    && e.node.peers == (if TooLittle(n.cfg, news) &&
                        choice.Some? then OfferTo(peers, choice.value, ResetRoute) else peers)
    && (e.node.controller.haveTxBlocked <==> n.controller.haveTxBlocked && !TooMuch(n.cfg, news))
  }

  lemma AdjustDecides(n: Node, choice: Option<PeerId>, news: seq<bool>)
    requires BoundsOf(n) && n.cfg.targetRedundancy >= 0.0
    requires n.controller.firstTime == Flags(news, true) && n.controller.duplicates == Flags(news, false)
    ensures Decided(n, n.peers, AdjustRedundancy(n, choice), choice, news)
  {
    hide Evaluate, OfferTo, Accepts, Flags, TooMuch, TooLittle;
    DecidesByTarget(n, news);
  }

  lemma CloseDecides(n: Node, peer: PeerId, connection: ConnectionId, choice: Option<PeerId>, news: seq<bool>)
    requires BoundsOf(n) && n.cfg.targetRedundancy >= 0.0
    requires n.controller.firstTime == Flags(news, true) && n.controller.duplicates == Flags(news, false)
    ensures Decided(n, n.peers - {peer}, Closed(n, peer, connection, 0, choice), choice, news)
  {
    hide AdjustRedundancy, OfferTo, Accepts, Flags, TooMuch, TooLittle, Mentioning, BoundsOf;
    var (r, removed) := ResetRoutesWith(n.router, peer);
    var rest := n.(router := r, peers := n.peers - {peer});
    assert BoundsOf(rest) by { SameBounds(n, rest); }
    AdjustDecides(rest, choice, news);
  }

  lemma SameBounds(n: Node, n': Node)
    requires BoundsOf(n) && n'.cfg == n.cfg && n'.controller == n.controller
    ensures BoundsOf(n')
  {}

  /** Over any life an evaluation goes by the target and the percentage of the configuration and by what has
      arrived since the last one: a chosen creditor is offered a reset if and only if the redundancy was too
      little, it is told if and only if the offer is taken, and HaveTx are unblocked if and only if it was too
      much. */
  lemma RedundancyGoesByTheTarget(cfg: Config, publishConfig: PublishConfig, calls: seq<Call>, peer: PeerId,
                                  connection: ConnectionId, choice: Option<PeerId>)
    requires cfg.targetRedundancy >= 0.0
    ensures var (n, l) := After(cfg, publishConfig, calls);
            && n.cfg == cfg
            && Decided(n, n.peers, AdjustRedundancy(n, choice), choice, l.news)
            && Decided(n, n.peers - {peer}, Closed(n, peer, connection, 0, choice), choice, l.news)
  {
    hide After, AdjustRedundancy, Closed, Decided, Moves, BoundsOf;
    var start := NewNode(cfg, publishConfig);
    var (n, l) := After(cfg, publishConfig, calls);
    RunInBudget(cfg, publishConfig, calls);
    MovesBounds(start, n, l.events, l.above, l.below);
    NewBounds(cfg, publishConfig, n);
    AdjustDecides(n, choice, l.news);
    CloseDecides(n, peer, connection, choice, l.news);
  }

  lemma NewBounds(cfg: Config, publishConfig: PublishConfig, n: Node)
    requires var start := NewNode(cfg, publishConfig).controller;
             n.cfg == cfg && n.controller.lower == start.lower && n.controller.upper == start.upper
    ensures BoundsOf(n)
  {}
}

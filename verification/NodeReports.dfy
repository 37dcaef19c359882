/** What a node reports of what arrives, over its whole life. */
module NodeReports {
  import opened Types
  import opened TimeCache
  import opened Routing
  import opened Nodes
  import opened ControlBudget

  // ---- What an RPC is reported as ----

  /** The events that tell what has arrived. */
  datatype Arrival = Transactions | HaveTxs | Resets

  predicate Tells(kind: Arrival, e: Event) {
    match kind
    case Transactions => e.TransactionReceived?
    case HaveTxs => e.HaveTxReceived?
    case Resets => e.ResetRouteReceived?
  }

  function Only(kind: Arrival, events: seq<Event>): seq<Event> {
    if events == [] then []
    else Only(kind, events[..|events| - 1]) + if Tells(kind, events[|events| - 1]) then [events[|events| - 1]] else []
  }

  lemma {:induction false} OnlyConcat(kind: Arrival, a: seq<Event>, b: seq<Event>)
    ensures Only(kind, a + b) == Only(kind, a) + Only(kind, b)
  {
    if b == [] {
      assert a + b == a;
    } else {
      OnlyConcat(kind, a, b[..|b| - 1]);
      assert (a + b)[..|a + b| - 1] == a + b[..|b| - 1];
    }
  }

  lemma {:induction false} OnlyNone(kind: Arrival, events: seq<Event>)
    requires forall e :: e in events ==> !Tells(kind, e)
    ensures Only(kind, events) == []
  {
    if events != [] {
      var k := |events| - 1;
      assert events[k] in events && forall e :: e in events[..k] ==> e in events;
      OnlyNone(kind, events[..k]);
    }
  }

  lemma OnlyOne(kind: Arrival, events: seq<Event>, e: Event)
    ensures Only(kind, events + [e]) == Only(kind, events) + if Tells(kind, e) then [e] else []
  {
    assert (events + [e])[..|events|] == events;
  }

  /** One report for each transaction that passes the transform. */
  function Reports(cfg: Config, txs: seq<RawTransaction>, source: PeerId): seq<Event> {
    if txs == [] then []
    else
      Reports(cfg, txs[..|txs| - 1], source)
      + match cfg.inbound(txs[|txs| - 1])
        case None => []
        case Some(tx) => [TransactionReceived(source, cfg.transactionId(tx), tx)]
  }

  function HaveTxReports(msgs: seq<ControlAction>, source: PeerId): seq<Event> {
    if msgs == [] then []
    else
      var last := msgs[|msgs| - 1];
      HaveTxReports(msgs[..|msgs| - 1], source) + if last.HaveTxMsg? then [HaveTxReceived(source, last.id)] else []
  }

  /** What an RPC from `source` has to be reported as. */
  function Arrived(cfg: Config, rpc: Rpc, source: PeerId, kind: Arrival): seq<Event> {
    match kind
    case Transactions =>
      var limit := match cfg.maxTransactionsPerRpc case None => |rpc.transactions| case Some(m) => m;
      Reports(cfg, if limit < |rpc.transactions| then rpc.transactions[..limit] else rpc.transactions, source)
    case HaveTxs => if cfg.ignoreHaveTx then [] else HaveTxReports(rpc.controlMsgs, source)
    case Resets => if ResetRouteMsg in rpc.controlMsgs then [ResetRouteReceived(source)] else []
  }

  /** Before HaveTx messages come the transactions and what was sent for them; a reset comes last. */
  function Stage(e: Event): nat {
    match e
    case HaveTxReceived(_, _) => 1
    case ResetRouteReceived(_) => 2
    case _ => 0
  }

  ghost predicate Staged(events: seq<Event>) {
    forall i, j :: 0 <= i < j < |events| && !events[i].RoutingUpdated? && !events[j].RoutingUpdated? ==>
      Stage(events[i]) <= Stage(events[j])
  }

  /** The disabled routes as last reported. */
  function LastRouting(start: seq<Route>, events: seq<Event>): seq<Route> {
    if events == [] then start
    else if events[|events| - 1].RoutingUpdated? then events[|events| - 1].disabledRoutes
    else LastRouting(start, events[..|events| - 1])
  }

  lemma {:induction false} RoutingConcat(start: seq<Route>, a: seq<Event>, b: seq<Event>)
    ensures LastRouting(start, a + b) == LastRouting(LastRouting(start, a), b)
  {
    if b == [] {
      assert a + b == a;
    } else {
      RoutingConcat(start, a, b[..|b| - 1]);
      assert (a + b)[..|a + b| - 1] == a + b[..|b| - 1];
    }
  }

  lemma {:induction false} RoutingNone(start: seq<Route>, events: seq<Event>)
    requires forall e :: e in events ==> !e.RoutingUpdated?
    ensures LastRouting(start, events) == start
  {
    if events != [] {
      var k := |events| - 1;
      assert events[k] in events && forall e :: e in events[..k] ==> e in events;
      RoutingNone(start, events[..k]);
    }
  }

  // ---- One RPC ----

  /** Events that tell of something sent. */
  predicate OfSending(e: Event) { e.TransactionSent? || e.HaveTxSent? || e.ResetRouteSent? }

  lemma SendingTellsNothing(kind: Arrival, start: seq<Route>, events: seq<Event>)
    requires forall e :: e in events ==> OfSending(e)
    ensures Only(kind, events) == [] && LastRouting(start, events) == start
    ensures forall e :: e in events ==> Stage(e) == 0
  {
    OnlyNone(kind, events);
    RoutingNone(start, events);
  }

  lemma AnswerSends(n: Node, id: TxId, source: PeerId)
    ensures var e := AnswerDuplicate(n, id, source);
            (forall x :: x in e.events ==> OfSending(x)) && e.node.router.disabled == n.router.disabled
              && e.node.cfg == n.cfg
  {
    hide OfferTo, Accepts;
  }

  lemma ReceiveReports(n: Node, now: nat, raw: RawTransaction, source: PeerId, order: seq<PeerId>)
    requires Consistent(n.cache)
    ensures var e := ReceiveTransaction(n, now, raw, source, order);
            && Only(Transactions, e.events) == Reports(n.cfg, [raw], source)
            && Only(HaveTxs, e.events) == [] && Only(Resets, e.events) == []
            && (forall x :: x in e.events ==> Stage(x) == 0 && !x.RoutingUpdated?)
            && e.node.router.disabled == n.router.disabled && e.node.cfg == n.cfg
  {
    hide Inserted, AnswerDuplicate, ForwardTransaction, Only, LastRouting;
    var e := ReceiveTransaction(n, now, raw, source, order);
    assert [raw][..0] == [];
    match n.cfg.inbound(raw)
    case None =>
      forall kind: Arrival {
        OnlyNone(kind, []);
      }
    case Some(tx) =>
      var id := n.cfg.transactionId(tx);
      var (c, isNew) := Inserted(n.cache, now, id, source);
      ForwardQuiet(n.(cache := c, controller := n.controller.(firstTime := n.controller.firstTime + 1)), now, id, raw,
                   source, order);
      AnswerSends(n.(cache := c, controller := n.controller.(duplicates := n.controller.duplicates + 1)), id, source);
      var first := TransactionReceived(source, id, tx);
      var rest := e.events[1..];
      assert e.events == [first] + rest && forall x :: x in rest ==> OfSending(x);
      forall kind: Arrival
        ensures Only(kind, e.events) == if kind == Transactions then [first] else []
      {
        OnlyConcat(kind, [first], rest);
        SendingTellsNothing(kind, [], rest);
        OnlyOne(kind, [], first);
        OnlyNone(kind, []);
        assert [] + [first] == [first];
      }
  }

  /** The call reports just these arrivals, and the routes it leaves are those last reported. */
  ghost predicate Telling(n: Node, e: Effect, txs: seq<Event>, haveTxs: seq<Event>, resets: seq<Event>) {
    && Only(Transactions, e.events) == txs && Only(HaveTxs, e.events) == haveTxs && Only(Resets, e.events) == resets
    && e.node.router.disabled == LastRouting(n.router.disabled, e.events)
    && e.node.cfg == n.cfg
  }

  lemma TellingThen(n: Node, e1: Effect, e2: Effect, txs1: seq<Event>, haveTxs1: seq<Event>, resets1: seq<Event>,
                    txs2: seq<Event>, haveTxs2: seq<Event>, resets2: seq<Event>)
    requires Telling(n, e1, txs1, haveTxs1, resets1) && Telling(e1.node, e2, txs2, haveTxs2, resets2)
    ensures Telling(n, Effect(e2.node, e1.events + e2.events), txs1 + txs2, haveTxs1 + haveTxs2, resets1 + resets2)
  {
    hide Only, LastRouting;
    OnlyConcat(Transactions, e1.events, e2.events);
    OnlyConcat(HaveTxs, e1.events, e2.events);
    OnlyConcat(Resets, e1.events, e2.events);
    RoutingConcat(n.router.disabled, e1.events, e2.events);
  }

  lemma TellingSending(n: Node, e: Effect)
    requires (forall x :: x in e.events ==> OfSending(x)) && e.node.router.disabled == n.router.disabled
    requires e.node.cfg == n.cfg
    ensures Telling(n, e, [], [], [])
  {
    hide Only, LastRouting;
    SendingTellsNothing(Transactions, n.router.disabled, e.events);
    SendingTellsNothing(HaveTxs, n.router.disabled, e.events);
    SendingTellsNothing(Resets, n.router.disabled, e.events);
  }

  lemma ReportsOne(cfg: Config, txs: seq<RawTransaction>, tx: RawTransaction, source: PeerId)
    ensures Reports(cfg, txs + [tx], source) == Reports(cfg, txs, source) + Reports(cfg, [tx], source)
  {
    assert (txs + [tx])[..|txs|] == txs && [tx][..0] == [];
  }

  lemma {:induction false} ReceiveAllReports(n: Node, now: nat, txs: seq<RawTransaction>, source: PeerId,
                                             order: seq<PeerId>)
    requires Consistent(n.cache)
    ensures var e := ReceiveTransactions(n, now, txs, source, order);
            && Telling(n, e, Reports(n.cfg, txs, source), [], [])
            && forall x :: x in e.events ==> Stage(x) == 0
  {
    hide ReceiveTransaction, ReceiveTransactions, Reports, Telling, Consistent;
    if txs == [] {
      NothingReceived(n, now, source, order);
      TellingSending(n, Effect(n, []));
      assert Reports(n.cfg, [], source) == [] by { NoReports(n.cfg, source); }
    } else {
      var k := |txs| - 1;
      ReceiveAllReports(n, now, txs[..k], source, order);
      LastReceived(n, now, txs, source, order);
      var e1 := ReceiveTransactions(n, now, txs[..k], source, order);
      var e2 := ReceiveTransaction(e1.node, now, txs[k], source, order);
      ReceiveReports(e1.node, now, txs[k], source, order);
      OneTelling(n, e1, e2, txs[k], source, txs[..k]);
      assert txs == txs[..k] + [txs[k]];
      ReportsOne(n.cfg, txs[..k], txs[k], source);
    }
  }

  lemma NoReports(cfg: Config, source: PeerId)
    ensures Reports(cfg, [], source) == []
  {}

  lemma OneTelling(n: Node, e1: Effect, e2: Effect, tx: RawTransaction, source: PeerId, before: seq<RawTransaction>)
    requires Telling(n, e1, Reports(n.cfg, before, source), [], [])
    requires Only(Transactions, e2.events) == Reports(e1.node.cfg, [tx], source)
    requires Only(HaveTxs, e2.events) == [] && Only(Resets, e2.events) == []
    requires forall x :: x in e2.events ==> !x.RoutingUpdated?
    requires e2.node.router.disabled == e1.node.router.disabled && e2.node.cfg == e1.node.cfg
    ensures Telling(n, Effect(e2.node, e1.events + e2.events),
                    Reports(n.cfg, before, source) + Reports(n.cfg, [tx], source), [], [])
  {
    hide Only, LastRouting, Reports;
    RoutingNone(e1.node.router.disabled, e2.events);
    TellingThen(n, e1, e2, Reports(n.cfg, before, source), [], [], Reports(n.cfg, [tx], source), [], []);
  }

  // ---- HaveTx and resets ----

  lemma {:induction false} HaveTxAre(msgs: seq<ControlAction>, source: PeerId)
    ensures HaveTxReceivedEvents(HaveTxIds(msgs), source) == HaveTxReports(msgs, source)
  {
    if msgs != [] {
      var k := |msgs| - 1;
      HaveTxAre(msgs[..k], source);
      if msgs[k].HaveTxMsg? {
        assert (HaveTxIds(msgs[..k]) + [msgs[k].id])[..|HaveTxIds(msgs[..k])|] == HaveTxIds(msgs[..k]);
      } else {
        assert HaveTxIds(msgs) == HaveTxIds(msgs[..k]);
      }
    }
  }

  lemma {:induction false} HaveTxOnly(ids: seq<TxId>, source: PeerId, kind: Arrival)
    ensures Only(kind, HaveTxReceivedEvents(ids, source)) ==
              if kind == HaveTxs then HaveTxReceivedEvents(ids, source) else []
  {
    if ids == [] {
    } else {
      var k := |ids| - 1;
      HaveTxOnly(ids[..k], source, kind);
      OnlyOne(kind, HaveTxReceivedEvents(ids[..k], source), HaveTxReceived(source, ids[k]));
    }
  }

  lemma HaveTxTelling(n: Node, ids: seq<TxId>, source: PeerId)
    ensures var e := ReceiveHaveTx(n, ids, source);
            && Telling(n, e, [], HaveTxReceivedEvents(ids, source), [])
            && e.events == HaveTxReceivedEvents(ids, source) + [RoutingUpdated(e.node.router.disabled)]
  {
    hide HaveTxReceivedEvents, DisableRoutes, Only;
    var heard := HaveTxReceivedEvents(ids, source);
    var last := RoutingUpdated(ReceiveHaveTx(n, ids, source).node.router.disabled);
    forall kind: Arrival
      ensures Only(kind, heard + [last]) == if kind == HaveTxs then heard else []
    {
      HaveTxOnly(ids, source, kind);
      OnlyOne(kind, heard, last);
      assert heard + [] == heard;
    }
  }

  lemma ResetTelling(n: Node, source: PeerId, pick: nat)
    ensures var e := ReceiveResetRoute(n, source, pick);
            && Telling(n, e, [], [], [ResetRouteReceived(source)])
            && e.events == [ResetRouteReceived(source)]
                          + if CountTo(n.router.disabled, source) > 0 then [RoutingUpdated(e.node.router.disabled)]
                            else []
  {
    hide EnableRoute, Only, CountTo;
    EnableRemovesOne(n.router, source, pick);
    var first := ResetRouteReceived(source);
    RoutingNone(n.router.disabled, [first]);
    var (r, route) := EnableRoute(n.router, source, pick);
    var e := ReceiveResetRoute(n, source, pick);
    if route.Some? {
      assert e.events == [first] + [RoutingUpdated(r.disabled)];
    } else {
      assert e.events == [first] + [] == [first];
    }
    forall kind: Arrival
      ensures Only(kind, e.events) == if kind == Resets then [first] else []
    {
      OnlyNone(kind, []);
      OnlyOne(kind, [], first);
      assert [] + [first] == [first];
      OnlyOne(kind, [first], RoutingUpdated(r.disabled));
    }
  }

  lemma StagedThree(a: seq<Event>, b: seq<Event>, c: seq<Event>)
    requires forall x :: x in a ==> Stage(x) == 0
    requires forall x :: x in b ==> x.HaveTxReceived? || x.RoutingUpdated?
    requires forall x :: x in c ==> x.ResetRouteReceived? || x.RoutingUpdated?
    ensures Staged(a + b + c)
  {
    var all := a + b + c;
    forall i, j | 0 <= i < j < |all| && !all[i].RoutingUpdated? && !all[j].RoutingUpdated?
      ensures Stage(all[i]) <= Stage(all[j])
    {
      assert all[i] == if i < |a| then a[i] else if i < |a| + |b| then b[i - |a|] else c[i - |a| - |b|];
      assert all[j] == if j < |a| then a[j] else if j < |a| + |b| then b[j - |a|] else c[j - |a| - |b|];
    }
  }

  lemma NothingTelling(n: Node)
    ensures Telling(n, Effect(n, []), [], [], [])
  {
    TellingSending(n, Effect(n, []));
  }

  /** An RPC is reported transaction by transaction, as far as they are looked at and pass the transform, then
      HaveTx by HaveTx unless these are ignored, then as one reset however many were asked for, always with the
      peer that sent the RPC; and the routes it leaves disabled are those last reported. */
  lemma RpcReports(n: Node, now: nat, rpc: Rpc, source: PeerId, order: seq<PeerId>, pick: nat)
    requires Consistent(n.cache)
    ensures var e := ReceiveRpc(n, now, rpc, source, order, pick);
            && Staged(e.events)
            && Telling(n, e, Arrived(n.cfg, rpc, source, Transactions), Arrived(n.cfg, rpc, source, HaveTxs),
                       Arrived(n.cfg, rpc, source, Resets))
  {
    hide ReceiveTransactions, HaveTxIds, HaveTxReports, Reports, ReceiveHaveTx, ReceiveResetRoute, HaveTxReceivedEvents,
         Telling, Consistent, Staged;
    var txs := Permitted(n.cfg, rpc.transactions);
    var ids := HaveTxIds(rpc.controlMsgs);
    var e1 := ReceiveTransactions(n, now, txs, source, order);
    ReceiveAllReports(n, now, txs, source, order);
    var e2 := if ids != [] && !n.cfg.ignoreHaveTx then ReceiveHaveTx(e1.node, ids, source) else Effect(e1.node, []);
    var e3 := if ResetRouteMsg in rpc.controlMsgs then ReceiveResetRoute(e2.node, source, pick)
        else Effect(e2.node, []);
    HaveTxTelling(e1.node, ids, source);
    HaveTxAre(rpc.controlMsgs, source);
    HaveTxReceivedOnly(ids, source);
    NothingTelling(e1.node);
    ResetTelling(e2.node, source, pick);
    NothingTelling(e2.node);
    NoHaveTx(source);
    var haveTxs := Arrived(n.cfg, rpc, source, HaveTxs);
    var resets := Arrived(n.cfg, rpc, source, Resets);
    assert Telling(e1.node, e2, [], haveTxs, []);
    assert Telling(e2.node, e3, [], [], resets);
    var reports := Reports(n.cfg, txs, source);
    TellingThen(n, e1, e2, reports, [], [], [], haveTxs, []);
    TellingThen(n, Effect(e2.node, e1.events + e2.events), e3, reports + [], [] + haveTxs, [] + [], [], [], resets);
    assert reports + [] + [] == reports && [] + haveTxs + [] == haveTxs && [] + [] + resets == resets;
    StagedThree(e1.events, e2.events, e3.events);
  }

  lemma NoHaveTx(source: PeerId)
    ensures HaveTxReceivedEvents([], source) == []
  {}

  // ---- Whole lives ----

  /** What the calls of a life have brought. */
  ghost function AllArrived(cfg: Config, calls: seq<Call>, kind: Arrival): seq<Event> {
    if calls == [] then []
    else
      var last := calls[|calls| - 1];
      AllArrived(cfg, calls[..|calls| - 1], kind)
      + if last.Receive? then Arrived(cfg, last.rpc, last.source, kind) else []
  }

  lemma OtherTelling(n: Node, call: Call)
    requires Consistent(n.cache) && !call.Receive?
    ensures Telling(n, Answer(n, call), [], [], [])
  {
    hide PublishData, AdjustRedundancy, Closed, Established, Telling, Consistent;
    var e := Answer(n, call);
    match call
    case Publish(now, data, order) =>
      PublishedEvents(n, now, data, order);
      PublishLeaves(n, now, data, order);
      TellingSending(n, e);
    case Adjust(choice) =>
      AdjustTelling(n, choice);
    case Close(peer, connection, remaining, choice) =>
      CloseTelling(n, peer, connection, remaining, choice);
    case _ =>
      PeersOnly(n, call);
      TellingSending(n, e);
  }

  lemma PublishLeaves(n: Node, now: nat, data: Bytes, order: seq<PeerId>)
    requires Consistent(n.cache)
    ensures var n' := PublishData(n, now, data, order).0.node; n'.router == n.router && n'.cfg == n.cfg
  {
    hide Inserted, OfferAll, SentEvents, AnyAccepts, FilterValid, BuildRaw;
  }

  lemma AdjustTelling(n: Node, choice: Option<PeerId>)
    ensures Telling(n, AdjustRedundancy(n, choice), [], [], [])
  {
    hide Evaluate, OfferTo, Accepts, Telling;
    TellingSending(n, AdjustRedundancy(n, choice));
  }

  lemma CloseTelling(n: Node, peer: PeerId, connection: ConnectionId, remaining: nat, choice: Option<PeerId>)
    ensures Telling(n, Closed(n, peer, connection, remaining, choice), [], [], [])
  {
    hide AdjustRedundancy, Telling, Mentioning, Without;
    var e := Closed(n, peer, connection, remaining, choice);
    if remaining != 0 {
      TellingSending(n, e);
    } else {
      var (r, removed) := ResetRoutesWith(n.router, peer);
      var rest := n.(router := r, peers := n.peers - {peer});
      var first := Effect(rest, if removed != [] then [RoutingUpdated(r.disabled)] else []);
      GoneTelling(n, peer);
      AdjustTelling(rest, choice);
      var e2 := AdjustRedundancy(rest, choice);
      var none: seq<Event> := [];
      TellingThen(n, first, e2, none, none, none, none, none, none);
      assert none + none == none;
      assert e.node == e2.node && e.events == first.events + e2.events;
    }
  }

  lemma GoneTelling(n: Node, peer: PeerId)
    ensures var (r, removed) := ResetRoutesWith(n.router, peer);
            var rest := n.(router := r, peers := n.peers - {peer});
            Telling(n, Effect(rest, if removed != [] then [RoutingUpdated(r.disabled)] else []), [], [], [])
  {
    var removed := ResetRoutesWith(n.router, peer).1;
    if removed == [] {
      NothingRemoved(n.router.disabled, peer);
    }
  }

  lemma {:induction false} NothingRemoved(disabled: seq<Route>, peer: PeerId)
    ensures Mentioning(disabled, peer, true) == [] ==> Mentioning(disabled, peer, false) == disabled
  {
    if disabled != [] {
      var k := |disabled| - 1;
      assert disabled == disabled[..k] + [disabled[k]];
      NothingRemoved(disabled[..k], peer);
    }
  }

  /** Closing the last connection reports the routes if and only if some mentioned the peer, before anything that is
      sent; closing another one reports nothing. */
  lemma CloseReports(n: Node, peer: PeerId, connection: ConnectionId, remaining: nat, choice: Option<PeerId>)
    ensures var e := Closed(n, peer, connection, remaining, choice);
            var mentioned := remaining == 0 && exists route :: route in n.router.disabled && Mentions(route, peer);
            var first := if mentioned then [RoutingUpdated(e.node.router.disabled)] else [];
            first <= e.events && forall x :: x in e.events[|first|..] ==> remaining == 0 && x.ResetRouteSent?
  {
    hide OfferTo, Accepts, Evaluate, Mentioning, Mentions, Without;
    if remaining == 0 {
      var (r, removed) := ResetRoutesWith(n.router, peer);
      if removed != [] {
        assert removed[0] in removed;
      }
      var e2 := AdjustRedundancy(n.(router := r, peers := n.peers - {peer}), choice);
      var first := if removed != [] then [RoutingUpdated(r.disabled)] else [];
      assert (first + e2.events)[|first|..] == e2.events;
    }
  }

  lemma {:induction false} LifeTelling(cfg: Config, publishConfig: PublishConfig, calls: seq<Call>)
    ensures var (n, l) := After(cfg, publishConfig, calls);
            Telling(NewNode(cfg, publishConfig), Effect(n, l.events), AllArrived(cfg, calls, Transactions),
                    AllArrived(cfg, calls, HaveTxs), AllArrived(cfg, calls, Resets))
  {
    hide Answer, Telling, Possible, Arrived;
    var start := NewNode(cfg, publishConfig);
    if calls == [] {
      NothingTelling(start);
    } else {
      var k := |calls| - 1;
      var call := calls[k];
      LifeTelling(cfg, publishConfig, calls[..k]);
      var (n, l) := After(cfg, publishConfig, calls[..k]);
      TellingConfig(start, Effect(n, l.events), AllArrived(cfg, calls[..k], Transactions),
                    AllArrived(cfg, calls[..k], HaveTxs), AllArrived(cfg, calls[..k], Resets));
      CallTelling(n, call);
      if Possible(n, call) {
        TellingThen(start, Effect(n, l.events), Answer(n, call), AllArrived(cfg, calls[..k], Transactions),
                    AllArrived(cfg, calls[..k], HaveTxs), AllArrived(cfg, calls[..k], Resets),
                    CallArrived(n.cfg, call, Transactions), CallArrived(n.cfg, call, HaveTxs),
                    CallArrived(n.cfg, call, Resets));
      } else {
        Impossible(n, call);
        forall kind: Arrival
          ensures AllArrived(cfg, calls, kind) == AllArrived(cfg, calls[..k], kind)
        {
          assert AllArrived(cfg, calls[..k], kind) + [] == AllArrived(cfg, calls[..k], kind);
        }
      }
    }
  }

  lemma Impossible(n: Node, call: Call)
    requires !Possible(n, call)
    ensures !call.Receive?
  {}

  ghost function CallArrived(cfg: Config, call: Call, kind: Arrival): seq<Event> {
    if call.Receive? then Arrived(cfg, call.rpc, call.source, kind) else []
  }

  lemma CallTelling(n: Node, call: Call)
    requires Consistent(n.cache)
    ensures Telling(n, Answer(n, call), CallArrived(n.cfg, call, Transactions), CallArrived(n.cfg, call, HaveTxs),
                    CallArrived(n.cfg, call, Resets))
  {
    hide Telling, ReceiveRpc, PublishData, AdjustRedundancy, Closed, Established, Arrived, Consistent;
    if call.Receive? {
      RpcReports(n, call.now, call.rpc, call.source, call.order, call.pick);
    } else {
      OtherTelling(n, call);
    }
  }

  lemma TellingConfig(n: Node, e: Effect, txs: seq<Event>, haveTxs: seq<Event>, resets: seq<Event>)
    requires Telling(n, e, txs, haveTxs, resets)
    ensures e.node.cfg == n.cfg
  {
    hide Only, LastRouting;
  }

  /** Over any life of a node: the transactions, HaveTx and resets it reports are, in order, exactly those that
      arrived, each with the peer it came from; and the routes it has disabled are those it last reported. */
  lemma ReportsWhatArrives(cfg: Config, publishConfig: PublishConfig, calls: seq<Call>)
    ensures var (n, l) := After(cfg, publishConfig, calls);
            && (forall kind :: Only(kind, l.events) == AllArrived(cfg, calls, kind))
            && n.router.disabled == LastRouting([], l.events)
  {
    hide After, Only, AllArrived, LastRouting;
    LifeTelling(cfg, publishConfig, calls);
    var l := After(cfg, publishConfig, calls).1;
    forall kind: Arrival
      ensures Only(kind, l.events) == AllArrived(cfg, calls, kind)
    {
      match kind
      case Transactions =>
      case HaveTxs =>
      case Resets =>
    }
  }
}

/** No node of an honest network is ever told that a transaction of its own is a duplicate: sequence
    numbers that have not been used are known nowhere. */
module OwnPublishes {
  import opened Types
  import opened TimeCache
  import opened Routing
  import opened SendQueues
  import opened Nodes
  import opened NodeFacts
  import opened Networks
  import opened NetworkRuns
  import opened Credit
  import opened FloodSpec
  import opened FloodRefinement
  import opened FloodTheorems
  import opened Withholding
  import opened TransactionIds

  /** Ids are default ids, and the texts of the known peers have one length and tell them apart. */
  ghost predicate DefaultIds(idOf: IdOf, text: PeerId -> Bytes, known: set<PeerId>) {
    && (forall raw {:trigger idOf(raw)} :: idOf(raw).Some? ==> idOf(raw).value == DefaultId(text(raw.from), raw.seqno))
    && (forall p, q {:trigger text(p), text(q)} ::
          p in known && q in known ==> |text(p)| == |text(q)| && (text(p) == text(q) ==> p == q))
  }

  lemma DefaultIdsTellApart(idOf: IdOf, text: PeerId -> Bytes, known: set<PeerId>, r1: RawTransaction,
                            r2: RawTransaction)
    requires DefaultIds(idOf, text, known) && idOf(r1).Some? && idOf(r1) == idOf(r2) && r1.from in known
    requires r2.from in known
    ensures r1.from == r2.from && r1.seqno == r2.seqno
  {
    hide DefaultId;
    DefaultIdIsInjective(text(r1.from), text(r2.from), r1.seqno, r2.seqno);
  }

  /** Default ids meet what the flood theorems ask of ids. */
  lemma DefaultIdsNameAuthors(idOf: IdOf, text: PeerId -> Bytes, known: set<PeerId>)
    requires DefaultIds(idOf, text, known)
    ensures NamesAuthor(idOf, known)
  {
    hide DefaultIds;
    forall r1: RawTransaction, r2: RawTransaction {:trigger idOf(r1), idOf(r2)} |
      idOf(r1).Some? && idOf(r1) == idOf(r2) && r1.from in known && r2.from in known
      ensures r1.from == r2.from
    {
      DefaultIdsTellApart(idOf, text, known, r1, r2);
    }
  }

  // ---- What is known was published ----

  type Numbers = map<PeerId, nat>

  ghost function LastNumbers(n: Net): Numbers {
    map v | v in n.nodes :: n.nodes[v].publishConfig.lastSeqno
  }

  /** The author is a node of the network and has used the transaction's number. */
  ghost predicate Used(last: Numbers, raw: RawTransaction) {
    raw.from in last && raw.seqno <= last[raw.from]
  }

  ghost predicate Filed(idOf: IdOf, last: Numbers, t: TxId) {
    exists raw: RawTransaction :: idOf(raw) == Some(t) && Used(last, raw)
  }

  /** Everything on its way or in a cache carries a number its author has used. */
  ghost predicate AllUsed(idOf: IdOf, a: Flood, last: Numbers) {
    && (forall l, m {:trigger m in a.flight[l]} :: l in a.flight && m in a.flight[l] && !m.IsControl() ==>
        Used(last, m.tx))
    && (forall v, t {:trigger a.Holds(v, t)} :: a.Holds(v, t) ==> Filed(idOf, last, t))
  }

  ghost predicate NumbersGrow(last: Numbers, last': Numbers) {
    last'.Keys == last.Keys && forall v :: v in last ==> last[v] <= last'[v]
  }

  lemma QuietUsed(idOf: IdOf, a: Flood, a': Flood, last: Numbers)
    requires AllUsed(idOf, a, last) && a'.know == a.know && a'.flight.Keys == a.flight.Keys
    requires forall l :: l in a.flight ==> forall m :: m in a'.flight[l] && !m.IsControl() ==> m in a.flight[l]
    ensures AllUsed(idOf, a', last)
  {
    hide Filed, Used;
    forall v, t | a'.Holds(v, t)
      ensures Filed(idOf, last, t)
    {
      assert a.Holds(v, t);
    }
  }

  lemma UsedGrows(last: Numbers, last': Numbers, raw: RawTransaction)
    requires Used(last, raw) && NumbersGrow(last, last')
    ensures Used(last', raw)
  {}

  lemma FiledGrows(idOf: IdOf, last: Numbers, last': Numbers, t: TxId)
    requires Filed(idOf, last, t) && NumbersGrow(last, last')
    ensures Filed(idOf, last', t)
  {
    var raw: RawTransaction :| idOf(raw) == Some(t) && Used(last, raw);
    UsedGrows(last, last', raw);
  }

  /** `node` may file `t` in addition to what it held, if `raw` of that id has a used number. */
  ghost predicate TakesUp(idOf: IdOf, values: map<TxId, PeerId>, values': map<TxId, PeerId>,
                          raw: Option<RawTransaction>) {
    forall t :: t in values' ==> t in values || (raw.Some? && idOf(raw.value) == Some(t))
  }

  ghost predicate SaysAtMost(out: map<PeerId, RpcOut>, raw: Option<RawTransaction>) {
    forall p :: p in out ==> out[p].IsControl() || (raw.Some? && out[p].tx == raw.value)
  }

  lemma ActUsed(idOf: IdOf, n: Net, v: PeerId, node': Node, out: map<PeerId, RpcOut>, raw: Option<RawTransaction>)
    requires n.wire.Keys == n.log.Keys && v in n.nodes && Spoke(n.nodes[v].peers, node'.peers, out)
    requires n.nodes[v].publishConfig.lastSeqno <= node'.publishConfig.lastSeqno
    requires TakesUp(idOf, n.nodes[v].cache.values, node'.cache.values, raw) && SaysAtMost(out, raw)
    requires AllUsed(idOf, Abs(n), LastNumbers(n))
    requires raw.Some? ==> Used(LastNumbers(n)[v := node'.publishConfig.lastSeqno], raw.value)
    ensures AllUsed(idOf, Abs(Act(n, v, node', out)), LastNumbers(Act(n, v, node', out)))
  {
    hide Spoke, InFlight, Act, Used, Filed, SaysAtMost, TakesUp, Took, Copies;
    var n' := Act(n, v, node', out);
    ActFrame(n, v, node', out);
    ActKnow(n, v, node', out);
    var last, last' := LastNumbers(n), LastNumbers(n');
    LastAfter(n, v, node', out);
    assert NumbersGrow(last, last');
    forall l, m | l in Abs(n').flight && m in Abs(n').flight[l] && !m.IsControl()
      ensures Used(last', m.tx)
    {
      ActLinkUsed(idOf, n, v, node', out, raw, l, m, last');
    }
    forall u, t | Abs(n').Holds(u, t)
      ensures Filed(idOf, last', t)
    {
      ActFiled(idOf, n, v, node', raw, u, t, last');
    }
  }

  lemma ActLinkUsed(idOf: IdOf, n: Net, v: PeerId, node': Node, out: map<PeerId, RpcOut>, raw: Option<RawTransaction>,
                    l: Link, m: RpcOut, last': Numbers)
    requires n.wire.Keys == n.log.Keys && v in n.nodes && Spoke(n.nodes[v].peers, node'.peers, out)
    requires SaysAtMost(out, raw) && AllUsed(idOf, Abs(n), LastNumbers(n)) && NumbersGrow(LastNumbers(n), last')
    requires raw.Some? ==> Used(last', raw.value)
    requires l in n.wire && m in InFlight(Act(n, v, node', out), l) && !m.IsControl()
    ensures Used(last', m.tx)
  {
    hide Spoke, InFlight, Act, Used, Filed, Copies;
    ActGets(idOf, n, v, node', out, l);
    if m in InFlight(n, l) {
      assert m in Abs(n).flight[l];
      UsedGrows(LastNumbers(n), last', m.tx);
    }
  }

  lemma LastAfter(n: Net, v: PeerId, node': Node, out: map<PeerId, RpcOut>)
    requires v in n.nodes
    ensures LastNumbers(Act(n, v, node', out)) == LastNumbers(n)[v := node'.publishConfig.lastSeqno]
  {}

  lemma ActFiled(idOf: IdOf, n: Net, v: PeerId, node': Node, raw: Option<RawTransaction>, u: PeerId, t: TxId,
                 last': Numbers)
    requires v in n.nodes && TakesUp(idOf, n.nodes[v].cache.values, node'.cache.values, raw)
    requires AllUsed(idOf, Abs(n), LastNumbers(n)) && NumbersGrow(LastNumbers(n), last')
    requires (raw.Some? ==> Used(last', raw.value))
    requires u in n.nodes && t in (if u == v then node'.cache.values else n.nodes[u].cache.values)
    ensures Filed(idOf, last', t)
  {
    hide InFlight, Used, Filed;
    if t in n.nodes[u].cache.values {
      assert Abs(n).Holds(u, t);
      FiledGrows(idOf, LastNumbers(n), last', t);
    } else {
      UsedIsFiled(idOf, last', raw.value, t);
    }
  }

  lemma UsedIsFiled(idOf: IdOf, last: Numbers, raw: RawTransaction, t: TxId)
    requires idOf(raw) == Some(t) && Used(last, raw)
    ensures Filed(idOf, last, t)
  {}

  lemma SameAbsUsed(idOf: IdOf, n: Net, n': Net)
    requires AllUsed(idOf, Abs(n), LastNumbers(n)) && n'.nodes == n.nodes && n'.wire == n.wire && n'.log == n.log
    ensures AllUsed(idOf, Abs(n'), LastNumbers(n'))
  {
    hide AllUsed;
    AbsSame(n, n');
  }

  /** The number is taken before anything is filed or sent. */
  lemma PublishNumbers(n: Node, now: nat, data: Bytes, order: seq<PeerId>)
    requires Consistent(n.cache)
    ensures var n' := PublishData(n, now, data, order).0.node;
            && n.publishConfig.lastSeqno <= n'.publishConfig.lastSeqno
            && (Built(n, data).Some? ==>
                  Built(n, data).value.seqno == n.publishConfig.lastSeqno + 1 == n'.publishConfig.lastSeqno &&
                      Built(n, data).value.from == n.Own())
  {
    hide Inserted, OfferAll, SentEvents, AnyAccepts, FilterValid;
  }

  lemma InsertedTakesUp(idOf: IdOf, c: Cache<TxId, PeerId>, now: nat, t: TxId, s: PeerId, raw: RawTransaction)
    requires Consistent(c) && idOf(raw) == Some(t)
    ensures TakesUp(idOf, c.values, Inserted(c, now, t, s).0.values, Some(raw))
  {
    hide Consistent, Purged;
    PurgedShrinks(c, now);
  }

  lemma NothingTaken(idOf: IdOf, values: map<TxId, PeerId>, raw: Option<RawTransaction>)
    ensures TakesUp(idOf, values, values, raw) && SaysAtMost(map[], raw)
  {}

  lemma TakersSay(n: Node, now: nat, raw: RawTransaction, order: seq<PeerId>)
    ensures SaysAtMost(PublishOut(n, now, raw, order), Some(raw))
  {
    hide FilterValid;
  }

  lemma DeliverSays(n: Node, now: nat, m: RpcOut, source: PeerId, order: seq<PeerId>)
    requires Consistent(n.cache)
    ensures SaysAtMost(DeliverOut(n, now, m, source, order), if m.IsControl() then None else Some(m.tx))
  {
    hide FilterValid, ForwardCandidates, Consistent, Inserted;
  }

  lemma PublishUsed(idOf: IdOf, n: Net, v: PeerId, data: Bytes, order: seq<PeerId>)
    requires NetValid(n) && Enabled(n, PublishAt(v, data, order)) && Consistent(n.nodes[v].cache)
    requires Honest(n.nodes[v].cfg, idOf) && AllUsed(idOf, Abs(n), LastNumbers(n))
    ensures AllUsed(idOf, Abs(DoPublish(n, v, data, order)), LastNumbers(DoPublish(n, v, data, order)))
  {
    hide PublishData, Inserted, Spoke, Built, NodeValid, Consistent, Calm, IsOrderOf, Withhold, PublishOut, NetValid,
         ReasonsHold, Honest, AllUsed, Act, TakesUp, SaysAtMost;
    NodeFactsOf(n, v);
    WiresAndLogs(n);
    var node := n.nodes[v];
    PublishFacts(node, n.clock, data, order);
    PublishNumbers(node, n.clock, data, order);
    SpokeNothing(node.peers);
    var node' := PublishData(node, n.clock, data, order).0.node;
    if PublishesNew(node, data) {
      var raw := Built(node, data).value;
      var t := node.cfg.transactionId(Transaction(raw.from, raw.seqno, data));
      HonestMeans(node.cfg, idOf, raw);
      BuiltId(node, data);
      InsertedTakesUp(idOf, node.cache, n.clock, t, v, raw);
      TakersSay(node, n.clock, raw, order);
      ActUsed(idOf, n, v, node', PublishOut(node, n.clock, raw, order), Some(raw));
      SameAbsUsed(idOf, Act(n, v, node', PublishOut(node, n.clock, raw, order)), DoPublish(n, v, data, order));
    } else {
      NothingTaken(idOf, node.cache.values, None);
      ActUsed(idOf, n, v, node', map[], None);
    }
  }

  lemma DeliverUsed(idOf: IdOf, n: Net, l: Link, order: seq<PeerId>, pick: nat)
    requires NetValid(n) && Enabled(n, Deliver(l, order, pick)) && Consistent(n.nodes[l.to].cache)
    requires Honest(n.nodes[l.to].cfg, idOf) && AllUsed(idOf, Abs(n), LastNumbers(n))
    ensures AllUsed(idOf, Abs(DoDeliver(n, l, order, pick)), LastNumbers(DoDeliver(n, l, order, pick)))
  {
    hide ReceiveRpc, DeliverOut, RoutesAfter, NodeValid, Consistent, IsOrderOf, Withhold, CreditsMove, NetValid, Spoke,
         Inserted, FirstTime, Honest, Act, TakesUp, SaysAtMost, AllUsed, InFlight;
    WiresAndLogs(n);
    var node, m := n.nodes[l.to], n.wire[l][0];
    DeliverFacts(n, l, order, pick);
    var node', out := ReceiveRpc(node, n.clock, AsRpc(m), l.from, order, pick).node,
        DeliverOut(node, n.clock, m, l.from, order);
    var n1 := n.(wire := n.wire[l := n.wire[l][1..]]);
    var raw := if m.IsControl() then None else Some(m.tx);
    if !m.IsControl() {
      HonestMeans(node.cfg, idOf, m.tx);
    }
    PoppedUsed(idOf, n, l);
    DeliverSays(node, n.clock, m, l.from, order);
    NothingTaken(idOf, node.cache.values, raw);
    if TransactionId(node, m).Some? {
      InsertedTakesUp(idOf, node.cache, n.clock, TransactionId(node, m).value, l.from, m.tx);
    }
    assert LastNumbers(n1)[l.to := node'.publishConfig.lastSeqno] == LastNumbers(n1);
    ActUsed(idOf, n1, l.to, node', out, raw);
    SameAbsUsed(idOf, Act(n1, l.to, node', out), DoDeliver(n, l, order, pick));
  }

  lemma PoppedUsed(idOf: IdOf, n: Net, l: Link)
    requires l in n.wire && n.wire[l] != [] && AllUsed(idOf, Abs(n), LastNumbers(n))
    ensures var n1 := n.(wire := n.wire[l := n.wire[l][1..]]);
            AllUsed(idOf, Abs(n1), LastNumbers(n1)) &&
                (!n.wire[l][0].IsControl() ==> Used(LastNumbers(n1), n.wire[l][0].tx))
  {
    hide Filed, Used, InFlight;
    var n1 := n.(wire := n.wire[l := n.wire[l][1..]]);
    PoppedFlight(idOf, n, l);
    assert n.wire[l][0] in Abs(n).flight[l];
    assert LastNumbers(n1) == LastNumbers(n);
    QuietUsed(idOf, Abs(n), Abs(n1), LastNumbers(n));
  }

  // ---- The other steps ----

  /** Numbers, caches and what is known to the links stay, or shrink. */
  ghost predicate Shrinks(n: Net, n': Net) {
    && n'.nodes.Keys == n.nodes.Keys && n'.wire.Keys == n.wire.Keys
    && (forall v :: v in n.nodes ==>
        n'.nodes[v].cache == n.nodes[v].cache && n'.nodes[v].publishConfig == n.nodes[v].publishConfig
                                     && n'.nodes[v].cfg == n.nodes[v].cfg)
    && (forall l, m {:trigger m in InFlight(n', l)} :: l in n.wire && m in InFlight(n', l) && !m.IsControl() ==>
        m in InFlight(n, l))
  }

  lemma ShrinksUsed(idOf: IdOf, n: Net, n': Net)
    requires Shrinks(n, n') && AllUsed(idOf, Abs(n), LastNumbers(n))
    ensures AllUsed(idOf, Abs(n'), LastNumbers(n'))
  {
    hide InFlight, Used, Filed;
    assert LastNumbers(n') == LastNumbers(n);
    assert Abs(n').know == Abs(n).know;
    QuietUsed(idOf, Abs(n), Abs(n'), LastNumbers(n));
  }

  lemma LinkStepShrinks(n: Net, s: Step)
    requires NetValid(n) && Enabled(n, s) && IsLinkStep(s) &&
               (forall v :: v in n.nodes ==> Consistent(n.nodes[v].cache))
    ensures Shrinks(n, Do(n, s))
  {
    hide NetValid, Consistent, InFlight, Do, Copies;
    LinkStepFrame(n, s);
    LinkStepSubset(raw => None, n, s);
    LinkStepAuthors(n, s);
  }

  lemma LinkStepAuthors(n: Net, s: Step)
    requires Enabled(n, s) && IsLinkStep(s) && forall v :: v in n.nodes ==> Consistent(n.nodes[v].cache)
    ensures forall v :: v in n.nodes ==>
              v in Do(n, s).nodes && Do(n, s).nodes[v].publishConfig == n.nodes[v].publishConfig
  {
    hide PollNext, PollStale, CopiesLost, Consistent;
  }

  lemma TickShrinks(n: Net, v: PeerId, choice: Option<PeerId>)
    requires NetValid(n) && Enabled(n, Tick(v, choice))
    ensures Shrinks(n, DoTick(n, v, choice))
  {
    hide NetValid, AdjustRedundancy, AdjustOut, Spoke, CreditsMove, InFlight, Act;
    var node', out := AdjustRedundancy(n.nodes[v], choice).node, AdjustOut(n.nodes[v], choice);
    AdjustFacts(n.nodes[v], choice);
    ResetsOnly(n.nodes[v], choice);
    WiresAndLogs(n);
    ControlShrinks(n, v, node', out);
  }

  lemma ResetsOnly(n: Node, choice: Option<PeerId>)
    ensures forall p :: p in AdjustOut(n, choice) ==> AdjustOut(n, choice)[p].IsControl()
  {}

  /** A node that only says control messages. */
  lemma ControlShrinks(n: Net, v: PeerId, node': Node, out: map<PeerId, RpcOut>)
    requires v in n.nodes && n.wire.Keys == n.log.Keys && Spoke(n.nodes[v].peers, node'.peers, out)
    requires node'.cache == n.nodes[v].cache && node'.publishConfig == n.nodes[v].publishConfig
    requires node'.cfg == n.nodes[v].cfg
    requires forall p :: p in out ==> out[p].IsControl()
    ensures Shrinks(n, Act(n, v, node', out))
  {
    hide Spoke, InFlight, Act, Copies;
    var n' := Act(n, v, node', out);
    ActFrame(n, v, node', out);
    forall l, m | l in n.wire && m in InFlight(n', l) && !m.IsControl()
      ensures m in InFlight(n, l)
    {
      ActGets(raw => None, n, v, node', out, l);
    }
  }

  lemma ShrinksThen(n: Net, n1: Net, n2: Net)
    requires Shrinks(n, n1) && Shrinks(n1, n2)
    ensures Shrinks(n, n2)
  {
    hide InFlight;
  }

  lemma ConnectShrinks(n: Net, l: Link, c1: ConnectionId, c2: ConnectionId)
    requires NetValid(n) && Enabled(n, Connect(l, c1, c2))
    ensures Shrinks(n, DoConnect(n, l, c1, c2))
  {
    hide NetValid, InFlight;
    NotListedBack(n, l);
    LinkHasWire(n, l);
    assert DoConnect(n, l, c1, c2).wire.Keys == n.wire.Keys;
    forall k, m | m in InFlight(DoConnect(n, l, c1, c2), k) && !m.IsControl()
      ensures m in InFlight(n, k)
    {
      ConnectInFlight(n, l, c1, c2, k);
    }
  }

  lemma CloseSideShrinks(n: Net, l: Link, choice: Option<PeerId>)
    requires n.wire.Keys == n.log.Keys && l.from in n.nodes && IsCreditorChoice(n.nodes[l.from].router, choice)
    ensures Shrinks(n, CloseSide(n, l, choice)) && CloseSide(n, l, choice).log.Keys == n.log.Keys
    ensures CloseSide(n, l, choice).wire == n.wire
  {
    hide Closed, AdjustOut, Mentioning, Spoke, CreditsMove, IsCreditorChoice, Act, InFlight;
    var node := n.nodes[l.from];
    CloseFacts(node, l.to, choice);
    var rest := node.(router := ResetRoutesWith(node.router, l.to).0, peers := node.peers - {l.to});
    ResetsOnly(rest, choice);
    var n1, n' := DropQueue(n, l), CloseSide(n, l, choice);
    var node', out := Closed(node, l.to, ConnectionId(0), 0, choice).node, AdjustOut(rest, choice);
    DropQueueShrinks(n, l);
    ActOverrides(n, n1, l.from, node', out);
    ActFrame(n, l.from, node', out);
    ControlShrinks(n1, l.from, node', out);
    ShrinksThen(n, n1, n');
  }

  lemma DropQueueShrinks(n: Net, l: Link)
    requires l.from in n.nodes
    ensures Shrinks(n, DropQueue(n, l))
  {}

  lemma DisconnectShrinks(n: Net, l: Link, choiceFrom: Option<PeerId>, choiceTo: Option<PeerId>)
    requires NetValid(n) && Enabled(n, Disconnect(l, choiceFrom, choiceTo))
    ensures Shrinks(n, DoDisconnect(n, l, choiceFrom, choiceTo))
  {
    hide NetValid, CloseSide, IsCreditorChoice, InFlight;
    WiresAndLogs(n);
    LinkHasWire(n, l);
    CloseSideShrinks(n, l, choiceFrom);
    var n1 := CloseSide(n, l, choiceFrom);
    OtherSide(n, l, choiceFrom);
    CloseSideShrinks(n1, Back(l), choiceTo);
    var n2 := CloseSide(n1, Back(l), choiceTo);
    ClearShrinks(n2, l);
    ShrinksThen(n, n1, n2);
    ShrinksThen(n, n2, DoDisconnect(n, l, choiceFrom, choiceTo));
  }

  lemma OtherSide(n: Net, l: Link, choice: Option<PeerId>)
    requires Between(n, l)
    ensures CloseSide(n, l, choice).nodes[l.to] == n.nodes[l.to]
  {
    hide Closed, AdjustOut;
  }

  lemma ClearShrinks(n: Net, l: Link)
    requires l in n.wire && Back(l) in n.wire
    ensures Shrinks(n, n.(wire := n.wire[l := []][Back(l) := []]))
  {}

  ghost predicate EverybodyHonest(n: Net, idOf: IdOf) {
    forall v :: v in n.nodes ==> Honest(n.nodes[v].cfg, idOf)
  }

  lemma ShrinksHonest(n: Net, n': Net, idOf: IdOf)
    requires EverybodyHonest(n, idOf) && Shrinks(n, n')
    ensures EverybodyHonest(n', idOf)
  {
    hide Honest, InFlight;
  }

  lemma OtherStepShrinks(n: Net, s: Step)
    requires NetValid(n) && (forall v :: v in n.nodes ==> Consistent(n.nodes[v].cache))
    requires Enabled(n, s) && !s.PublishAt? && !s.Deliver?
    ensures Shrinks(n, Do(n, s))
  {
    hide DoPublish, DoDeliver, DoTick, DoConnect, DoDisconnect, SetQueue, CopiesLost, NodeValid, Consistent, NetValid,
         PollNext, PollStale, Shrinks;
    if IsLinkStep(s) {
      LinkStepShrinks(n, s);
    } else if s.Tick? {
      TickShrinks(n, s.v, s.choice);
    } else if s.Connect? {
      ConnectShrinks(n, s.link, s.c1, s.c2);
    } else if s.Disconnect? {
      DisconnectShrinks(n, s.link, s.choiceFrom, s.choiceTo);
    } else {
      AdvanceShrinks(n, s.d);
    }
  }

  lemma StepUsed(idOf: IdOf, n: Net, s: Step)
    requires NetValid(n) && (forall v :: v in n.nodes ==> Consistent(n.nodes[v].cache))
    requires EverybodyHonest(n, idOf) && AllUsed(idOf, Abs(n), LastNumbers(n))
    ensures EverybodyHonest(Do(n, s), idOf) && AllUsed(idOf, Abs(Do(n, s)), LastNumbers(Do(n, s)))
  {
    hide DoPublish, DoDeliver, DoTick, DoConnect, DoDisconnect, SetQueue, CopiesLost, NodeValid, Consistent, NetValid,
         PollNext, PollStale, AllUsed, Honest, Abs, Shrinks, EverybodyHonest, LastNumbers;
    if Enabled(n, s) {
      if s.PublishAt? {
        HonestOf(n, idOf, s.v);
        PublishUsed(idOf, n, s.v, s.data, s.order);
        PublishConfigs(n, s.v, s.data, s.order, idOf);
      } else if s.Deliver? {
        HonestOf(n, idOf, s.link.to);
        DeliverUsed(idOf, n, s.link, s.order, s.pick);
        DeliverConfigs(n, s.link, s.order, s.pick, idOf);
      } else {
        OtherStepShrinks(n, s);
        ShrinksUsed(idOf, n, Do(n, s));
        ShrinksHonest(n, Do(n, s), idOf);
      }
    }
  }

  lemma HonestOf(n: Net, idOf: IdOf, v: PeerId)
    requires EverybodyHonest(n, idOf) && v in n.nodes
    ensures Honest(n.nodes[v].cfg, idOf)
  {
    hide Honest;
  }

  lemma AdvanceShrinks(n: Net, d: nat)
    ensures Shrinks(n, n.(clock := n.clock + d))
  {}

  lemma PublishConfigs(n: Net, v: PeerId, data: Bytes, order: seq<PeerId>, idOf: IdOf)
    requires NetValid(n) && Enabled(n, PublishAt(v, data, order)) && Consistent(n.nodes[v].cache)
    requires EverybodyHonest(n, idOf)
    ensures EverybodyHonest(DoPublish(n, v, data, order), idOf)
  {
    hide PublishData, Inserted, Spoke, Built, NodeValid, Consistent, Calm, IsOrderOf, Withhold, PublishOut, NetValid,
         ReasonsHold, Honest;
    NodeFactsOf(n, v);
    PublishFacts(n.nodes[v], n.clock, data, order);
  }

  lemma DeliverConfigs(n: Net, l: Link, order: seq<PeerId>, pick: nat, idOf: IdOf)
    requires NetValid(n) && Enabled(n, Deliver(l, order, pick)) && Consistent(n.nodes[l.to].cache)
    requires EverybodyHonest(n, idOf)
    ensures EverybodyHonest(DoDeliver(n, l, order, pick), idOf)
  {
    hide ReceiveRpc, DeliverOut, RoutesAfter, NodeValid, Consistent, IsOrderOf, Withhold, CreditsMove, NetValid, Spoke,
         Inserted, FirstTime, Honest;
    DeliverFacts(n, l, order, pick);
  }

  lemma {:induction false} RunUsed(idOf: IdOf, n: Net, steps: seq<Step>)
    requires Initial(n) && EverybodyHonest(n, idOf)
    ensures EverybodyHonest(Run(n, steps), idOf) && AllUsed(idOf, Abs(Run(n, steps)), LastNumbers(Run(n, steps)))
  {
    hide Initial, NetValid, Do, EverybodyHonest, AllUsed, Abs;
    InitialIsValid(n);
    if steps == [] {
      InitialUsed(idOf, n);
    } else {
      var k := |steps| - 1;
      RunUsed(idOf, n, steps[..k]);
      DoValid(Run(n, steps[..k]), steps[k]);
      StepUsed(idOf, Run(n, steps[..k]), steps[k]);
    }
  }

  lemma InitialUsed(idOf: IdOf, n: Net)
    requires Initial(n)
    ensures AllUsed(idOf, Abs(n), LastNumbers(n))
  {
    hide NetValid, NodeValid, InFlight, Filed, Used;
    forall l
      ensures InFlight(n, l) == []
    {
      InitialInFlight(n, l);
    }
  }

  /** With default ids over author texts of one length, no run of honest nodes, whatever expires,
      connects, disconnects or is lost, leads to a state in which a node's own publication is refused
      as a duplicate. */
  lemma NeverADuplicate(idOf: IdOf, text: PeerId -> Bytes, n: Net, steps: seq<Step>, v: PeerId, now: nat, data: Bytes,
                        order: seq<PeerId>)
    requires Initial(n) && EverybodyHonest(n, idOf) && DefaultIds(idOf, text, n.nodes.Keys) && v in Run(n, steps).nodes
    ensures Consistent(Run(n, steps).nodes[v].cache)
    ensures PublishData(Run(n, steps).nodes[v], now, data, order).1 != Duplicate
  {
    hide Initial, NetValid, Run, EverybodyHonest, AllUsed, Honest, Consistent, Abs, Built, DefaultIds;
    InitialIsValid(n);
    RunUsed(idOf, n, steps);
    RunNodes(n, steps);
    var n' := Run(n, steps);
    AllConsistent(n');
    var node := n'.nodes[v];
    HonestOf(n', idOf, v);
    OwnIs(n', v);
    if Built(node, data).Some? {
      NextIsUnknown(idOf, text, n', v, data);
    }
    DuplicateMeans(node, now, data, order);
  }

  lemma OwnIs(n: Net, v: PeerId)
    requires NetValid(n) && v in n.nodes
    ensures n.nodes[v].Own() == v
  {
    hide Consistent;
  }

  lemma DuplicateMeans(n: Node, now: nat, data: Bytes, order: seq<PeerId>)
    requires Consistent(n.cache)
    ensures PublishData(n, now, data, order).1 == Duplicate ==> Built(n, data).Some? && !PublishesNew(n, data)
  {
    hide Inserted, OfferAll, SentEvents, AnyAccepts, FilterValid;
  }

  lemma NextIsUnknown(idOf: IdOf, text: PeerId -> Bytes, n: Net, v: PeerId, data: Bytes)
    requires v in n.nodes && n.nodes[v].Own() == v && Honest(n.nodes[v].cfg, idOf)
    requires DefaultIds(idOf, text, n.nodes.Keys)
    requires AllUsed(idOf, Abs(n), LastNumbers(n)) && Built(n.nodes[v], data).Some?
    ensures PublishesNew(n.nodes[v], data)
  {
    hide InFlight, Honest, DefaultIds;
    var node := n.nodes[v];
    var raw := Built(node, data).value;
    HonestMeans(node.cfg, idOf, raw);
    BuiltId(node, data);
    assert LastNumbers(n).Keys == n.nodes.Keys;
    var t := node.cfg.transactionId(Transaction(raw.from, raw.seqno, data));
    if t in node.cache.values {
      assert Abs(n).Holds(v, t);
      var other: RawTransaction :| idOf(other) == Some(t) && Used(LastNumbers(n), other);
      DefaultIdsTellApart(idOf, text, n.nodes.Keys, raw, other);
      assert false;
    }
  }
}

/** The books of a flood: every copy a node could have sent is accounted for as delivered, on its way,
    listed as withheld, or listed as lost. What the two lists stand for is told in Delivery. */
module FloodDelivery {
  import opened Types
  import opened TimeCache
  import opened SendQueues
  import opened Nodes
  import opened NodeFacts
  import opened Networks
  import opened NetworkRuns
  import opened Credit
  import opened FloodSpec
  import opened FloodRefinement
  import opened FloodTheorems
  import opened FixedTopology

  /** What a holder did about a neighbour. */
  ghost predicate PassedOn(idOf: IdOf, n: Net, v: PeerId, t: TxId, p: PeerId)
    requires v in n.nodes && t in n.nodes[v].cache.values && Link(v, p) in n.log
  {
    || p == n.nodes[v].cache.values[t] || AuthorOf(idOf, t, p)
    || Copies(idOf, n.log[Link(v, p)], t) > 0 || Copy(Link(v, p), t) in n.withheld
  }

  /** What became of a copy that was sent. */
  ghost predicate Accounted(idOf: IdOf, n: Net, l: Link, t: TxId)
    requires l in n.log
  {
    Copies(idOf, n.log[l], t) > 0 ==>
      || Copies(idOf, InFlight(n, l), t) > 0
      || (l.to in n.nodes && t in n.nodes[l.to].cache.values)
      || Copy(l, t) in n.lost
  }

  ghost predicate AllPassedOn(idOf: IdOf, n: Net) {
    forall v, t, p {:trigger PassedOn(idOf, n, v, t, p)} ::
      v in n.nodes && t in n.nodes[v].cache.values && Watched(idOf, t) && p in n.nodes[v].peers &&
          Link(v, p) in n.log ==>
        PassedOn(idOf, n, v, t, p)
  }

  ghost predicate AllAccounted(idOf: IdOf, n: Net) {
    forall l, t {:trigger Accounted(idOf, n, l, t)} :: l in n.log ==> Accounted(idOf, n, l, t)
  }

  /** What is cached of the watched transactions stays. */
  ghost predicate KeepsValues(idOf: IdOf, values: map<TxId, PeerId>, values': map<TxId, PeerId>) {
    forall t :: Watched(idOf, t) && t in values ==> t in values' && values'[t] == values[t]
  }

  /** Caches, records and the lists of withheld and lost copies only grow. */
  ghost predicate Grows(idOf: IdOf, n: Net, n': Net) {
    && n'.nodes.Keys == n.nodes.Keys && n'.log.Keys == n.log.Keys
    && (forall v :: v in n.nodes ==> n'.nodes[v].peers.Keys == n.nodes[v].peers.Keys)
    && (forall v :: v in n.nodes ==> KeepsValues(idOf, n.nodes[v].cache.values, n'.nodes[v].cache.values))
    && (forall l, t {:trigger Copies(idOf, n'.log[l], t)} :: l in n.log ==>
        Copies(idOf, n.log[l], t) <= Copies(idOf, n'.log[l], t))
    && (forall c :: c in n.withheld ==> c in n'.withheld)
    && n.lost <= n'.lost
  }

  lemma OldPassedOn(idOf: IdOf, n: Net, n': Net, v: PeerId, t: TxId, p: PeerId)
    requires AllPassedOn(idOf, n) && Grows(idOf, n, n')
    requires v in n.nodes && t in n.nodes[v].cache.values && Watched(idOf, t)
    requires p in n'.nodes[v].peers && Link(v, p) in n.log
    ensures v in n'.nodes && t in n'.nodes[v].cache.values && Link(v, p) in n'.log && PassedOn(idOf, n', v, t, p)
  {
    hide Copies;
    assert PassedOn(idOf, n, v, t, p);
    assert Copies(idOf, n.log[Link(v, p)], t) <= Copies(idOf, n'.log[Link(v, p)], t);
  }

  // ---- A node acts ----

  lemma ActGrows(idOf: IdOf, n: Net, v: PeerId, node': Node, out: map<PeerId, RpcOut>)
    requires n.wire.Keys == n.log.Keys && v in n.nodes && Spoke(n.nodes[v].peers, node'.peers, out)
    requires KeepsValues(idOf, n.nodes[v].cache.values, node'.cache.values)
    ensures Grows(idOf, n, Act(n, v, node', out))
  {
    hide Copies, Took, InFlight;
    var n' := Act(n, v, node', out);
    forall l, t | l in n.log
      ensures Copies(idOf, n.log[l], t) <= Copies(idOf, n'.log[l], t)
    {
      ActGets(idOf, n, v, node', out, l);
    }
  }

  lemma NoCopiesUnwatched(idOf: IdOf, s: seq<RpcOut>, t: TxId)
    requires !Watched(idOf, t)
    ensures Copies(idOf, s, t) == 0
  {
    hide Copies;
    NoCopies(idOf, s, t);
  }

  lemma ActAccounted(idOf: IdOf, n: Net, v: PeerId, node': Node, out: map<PeerId, RpcOut>, l: Link, t: TxId)
    requires n.wire.Keys == n.log.Keys && v in n.nodes && Spoke(n.nodes[v].peers, node'.peers, out) && l in n.log
    requires KeepsValues(idOf, n.nodes[v].cache.values, node'.cache.values)
    requires Accounted(idOf, n, l, t) || (l.to == v && t in node'.cache.values)
    ensures Accounted(idOf, Act(n, v, node', out), l, t)
  {
    hide Copies, InFlight, Spoke;
    var n' := Act(n, v, node', out);
    ActGets(idOf, n, v, node', out, l);
    ActFrame(n, v, node', out);
    assert Copies(idOf, n'.log[l], t) >= 0 && Copies(idOf, InFlight(n', l), t) >= 0;
    if !Watched(idOf, t) {
      NoCopiesUnwatched(idOf, n'.log[l], t);
    }
  }

  /** A node that takes up nothing. */
  lemma ActKeepsBooks(idOf: IdOf, n: Net, v: PeerId, node': Node, out: map<PeerId, RpcOut>)
    requires n.wire.Keys == n.log.Keys && v in n.nodes && Spoke(n.nodes[v].peers, node'.peers, out)
    requires SameValues(idOf, n.nodes[v].cache.values, node'.cache.values)
    requires AllPassedOn(idOf, n) && AllAccounted(idOf, n)
    ensures AllPassedOn(idOf, Act(n, v, node', out)) && AllAccounted(idOf, Act(n, v, node', out))
  {
    hide Copies, InFlight, Spoke, PassedOn, Accounted, Act, Grows;
    var n' := Act(n, v, node', out);
    ActGrows(idOf, n, v, node', out);
    ActFrame(n, v, node', out);
    forall u, t, p {:trigger PassedOn(idOf, n', u, t, p)} |
      u in n'.nodes && t in n'.nodes[u].cache.values && Watched(idOf, t) && p in n'.nodes[u].peers &&
          Link(u, p) in n'.log
      ensures PassedOn(idOf, n', u, t, p)
    {
      OldPassedOn(idOf, n, n', u, t, p);
    }
    forall l, t {:trigger Accounted(idOf, n', l, t)} | l in n'.log
      ensures Accounted(idOf, n', l, t)
    {
      assert Accounted(idOf, n, l, t);
      ActAccounted(idOf, n, v, node', out, l, t);
    }
  }

  /** The neighbours of a node that takes up `t`: each is the source, the author, sent a copy, or
      listed as withheld. */
  lemma NewPassedOn(idOf: IdOf, n: Net, u: PeerId, node': Node, out: map<PeerId, RpcOut>, s: PeerId,
                    raw: RawTransaction, t: TxId, p: PeerId)
    requires n.wire.Keys == n.log.Keys && u in n.nodes && Spoke(n.nodes[u].peers, node'.peers, out)
    requires SaysOnly(out, raw, s) && idOf(raw) == Some(t)
    requires t in node'.cache.values && node'.cache.values[t] == s
    requires p in n.nodes[u].peers && Link(u, p) in n.log
    ensures PassedOn(idOf, Act(n, u, node', out).(withheld := Withhold(n, u, s, raw.from, t, out)), u, t, p)
  {
    hide Copies, InFlight, Spoke, Act;
    var n' := Act(n, u, node', out);
    ActGets(idOf, n, u, node', out, Link(u, p));
    ActFrame(n, u, node', out);
    if p in out {
      assert IsCopy(idOf, out[p], t);
      assert Copies(idOf, n'.log[Link(u, p)], t) >= 1;
    } else if p != s && p != raw.from {
      assert Copy(Link(u, p), t) in Withhold(n, u, s, raw.from, t, out);
    }
  }

  /** A node takes up `t`. For the link the copy came from nothing needs to be assumed. */
  lemma LearnKeepsBooks(idOf: IdOf, n: Net, u: PeerId, node': Node, out: map<PeerId, RpcOut>, s: PeerId,
                        raw: RawTransaction, t: TxId)
    requires n.wire.Keys == n.log.Keys && u in n.nodes && Spoke(n.nodes[u].peers, node'.peers, out)
    requires SaysOnly(out, raw, s) && idOf(raw) == Some(t) && t !in n.nodes[u].cache.values
    requires AddsOne(idOf, n.nodes[u].cache.values, node'.cache.values, t, s)
    requires AllPassedOn(idOf, n)
    requires forall l, x {:trigger Accounted(idOf, n, l, x)} :: l in n.log && !(l.to == u && x == t) ==>
               Accounted(idOf, n, l, x)
    ensures var n' := Act(n, u, node', out).(withheld := Withhold(n, u, s, raw.from, t, out));
            AllPassedOn(idOf, n') && AllAccounted(idOf, n')
  {
    hide Copies, InFlight, Spoke, PassedOn, Accounted, Act, SaysOnly, Withhold;
    var n1 := Act(n, u, node', out);
    var n' := n1.(withheld := Withhold(n, u, s, raw.from, t, out));
    ActGrows(idOf, n, u, node', out);
    ActFrame(n, u, node', out);
    WithheldGrows(n, u, s, raw.from, t, out);
    forall v, x, p {:trigger PassedOn(idOf, n', v, x, p)} |
      v in n'.nodes && x in n'.nodes[v].cache.values && Watched(idOf, x) && p in n'.nodes[v].peers &&
          Link(v, p) in n'.log
      ensures PassedOn(idOf, n', v, x, p)
    {
      if x in n.nodes[v].cache.values {
        OldPassedOn(idOf, n, n', v, x, p);
      } else {
        SpokeKeys(n.nodes[u].peers, node'.peers, out);
        NewPassedOn(idOf, n, u, node', out, s, raw, t, p);
      }
    }
    forall l, x {:trigger Accounted(idOf, n', l, x)} | l in n'.log
      ensures Accounted(idOf, n', l, x)
    {
      ActAccounted(idOf, n, u, node', out, l, x);
      SameBooks(idOf, n1, n', l, x);
    }
  }

  lemma WithheldGrows(n: Net, u: PeerId, s: PeerId, author: PeerId, t: TxId, out: map<PeerId, RpcOut>)
    requires u in n.nodes
    ensures forall c :: c in n.withheld ==> c in Withhold(n, u, s, author, t, out)
  {}

  lemma SameBooks(idOf: IdOf, n: Net, n': Net, l: Link, t: TxId)
    requires n'.nodes == n.nodes && n'.wire == n.wire && n'.log == n.log && n'.lost == n.lost && l in n.log
    requires Accounted(idOf, n, l, t)
    ensures Accounted(idOf, n', l, t)
  {
    hide Copies;
  }

  // ---- Steps ----

  lemma PublishBooks(idOf: IdOf, n: Net, horizon: nat, v: PeerId, data: Bytes, order: seq<PeerId>)
    requires NetValid(n) && Enabled(n, PublishAt(v, data, order)) && Consistent(n.nodes[v].cache)
    requires Assumptions(n, idOf, horizon) && AllPassedOn(idOf, n) && AllAccounted(idOf, n)
    ensures AllPassedOn(idOf, DoPublish(n, v, data, order)) && AllAccounted(idOf, DoPublish(n, v, data, order))
  {
    hide PublishData, Inserted, Spoke, Built, NodeValid, Consistent, Calm, IsOrderOf, Withhold, PublishOut, NetValid,
         Watches, Undoes, Lasting, ReasonsHold, AllPassedOn, AllAccounted, Act;
    NodeFactsOf(n, v);
    WiresAndLogs(n);
    AssumedOf(n, idOf, horizon, v);
    var node := n.nodes[v];
    PublishFacts(node, n.clock, data, order);
    var node' := PublishData(node, n.clock, data, order).0.node;
    if PublishesNew(node, data) {
      var raw := Built(node, data).value;
      var t := node.cfg.transactionId(Transaction(raw.from, raw.seqno, data));
      var out := PublishOut(node, n.clock, raw, order);
      BuiltId(node, data);
      WatchesId(node.cfg, idOf, raw);
      InsertedLasting(node.cache, idOf, n.clock, horizon, t, v);
      if idOf(raw).Some? {
        assert forall l, x {:trigger Accounted(idOf, n, l, x)} :: l in n.log ==>
               Accounted(idOf, n, l, x) by { BooksOf(idOf, n); }
        LearnKeepsBooks(idOf, n, v, node', out, v, raw, t);
      } else {
        ActKeepsBooks(idOf, n, v, node', out);
        WithheldGrows(n, v, v, raw.from, t, out);
        ActFrame(n, v, node', out);
        MoreWithheld(idOf, Act(n, v, node', out), DoPublish(n, v, data, order));
      }
    } else {
      SpokeNothing(node.peers);
      SameValuesSelf(idOf, node.cache.values);
      ActKeepsBooks(idOf, n, v, node', map[]);
    }
  }

  /** A longer list of withheld copies does no harm to the books. */
  lemma MoreWithheld(idOf: IdOf, n: Net, n': Net)
    requires AllPassedOn(idOf, n) && AllAccounted(idOf, n) && n' == n.(withheld := n'.withheld)
    requires forall c :: c in n.withheld ==> c in n'.withheld
    ensures AllPassedOn(idOf, n') && AllAccounted(idOf, n')
  {
    hide Copies, InFlight, AuthorOf;
    forall v, t, p {:trigger PassedOn(idOf, n', v, t, p)} |
      v in n'.nodes && t in n'.nodes[v].cache.values && Watched(idOf, t) && p in n'.nodes[v].peers &&
          Link(v, p) in n'.log
      ensures PassedOn(idOf, n', v, t, p)
    {
      assert PassedOn(idOf, n, v, t, p);
    }
    forall l, t {:trigger Accounted(idOf, n', l, t)} | l in n'.log
      ensures Accounted(idOf, n', l, t)
    {
      assert Accounted(idOf, n, l, t);
      SameBooks(idOf, n, n', l, t);
    }
  }

  lemma BooksOf(idOf: IdOf, n: Net)
    requires AllAccounted(idOf, n)
    ensures forall l, x {:trigger Accounted(idOf, n, l, x)} :: l in n.log ==> Accounted(idOf, n, l, x)
  {}

  /** After the head is taken off a wire, everything but its own transaction is still accounted for. */
  lemma PoppedBooks(idOf: IdOf, n: Net, l: Link, k: Link, t: TxId)
    requires l in n.wire && n.wire[l] != [] && k in n.log && Accounted(idOf, n, k, t)
    requires k == l ==> !IsCopy(idOf, n.wire[l][0], t)
    ensures Accounted(idOf, n.(wire := n.wire[l := n.wire[l][1..]]), k, t)
  {
    hide Copies, InFlight;
    PoppedFlight(idOf, n, l);
    var n1 := n.(wire := n.wire[l := n.wire[l][1..]]);
    if k == l {
      assert Copies(idOf, InFlight(n1, l), t) == Copies(idOf, InFlight(n, l), t);
    }
  }

  lemma DeliverBooks(idOf: IdOf, n: Net, horizon: nat, l: Link, order: seq<PeerId>, pick: nat)
    requires NetValid(n) && Enabled(n, Deliver(l, order, pick)) && Consistent(n.nodes[l.to].cache)
    requires LooksAtTransactions(n.nodes[l.to].cfg)
    requires Assumptions(n, idOf, horizon) && AllPassedOn(idOf, n) && AllAccounted(idOf, n)
    ensures AllPassedOn(idOf, DoDeliver(n, l, order, pick)) && AllAccounted(idOf, DoDeliver(n, l, order, pick))
  {
    hide ReceiveRpc, DeliverOut, RoutesAfter, NodeValid, Consistent, IsOrderOf, Withhold, CreditsMove, NetValid, Spoke,
         Inserted, Calm, Watches, Undoes, Lasting, ReasonsHold, SaysOnly, AllPassedOn, Act, PassedOn, Accounted;
    NodeFactsOf(n, l.to);
    AssumedOf(n, idOf, horizon, l.to);
    WiresAndLogs(n);
    var node, m := n.nodes[l.to], n.wire[l][0];
    DeliverFacts(n, l, order, pick);
    var node' := ReceiveRpc(node, n.clock, AsRpc(m), l.from, order, pick).node;
    var out := DeliverOut(node, n.clock, m, l.from, order);
    var n1 := n.(wire := n.wire[l := n.wire[l][1..]]);
    if !m.IsControl() {
      WatchesId(node.cfg, idOf, m.tx);
    }
    PoppedPassedOn(idOf, n, l);
    assert n1.wire.Keys == n1.log.Keys;
    forall k, t {:trigger Accounted(idOf, n1, k, t)} | k in n1.log && !(k == l && IsCopy(idOf, m, t))
      ensures Accounted(idOf, n1, k, t)
    {
      PoppedBooks(idOf, n, l, k, t);
    }
    SameValuesSelf(idOf, node.cache.values);
    if TransactionId(node, m).Some? {
      InsertedLasting(node.cache, idOf, n.clock, horizon, TransactionId(node, m).value, l.from);
    }
    if FirstTime(node, n.clock, m, l.from) && idOf(m.tx).Some? {
      ForwardSaysOnly(node, n.clock, m, l.from, order);
      LearnKeepsBooks(idOf, n1, l.to, node', out, l.from, m.tx, TransactionId(node, m).value);
      WithholdSame(n, n1, l.to, l.from, m.tx.from, TransactionId(node, m).value, out);
    } else {
      forall k, t {:trigger Accounted(idOf, n1, k, t)} | k in n1.log
        ensures Accounted(idOf, n1, k, t)
      {
        if k == l && IsCopy(idOf, m, t) {
          HeldIsAccounted(idOf, n1, l, t);
        }
      }
      ActKeepsBooks(idOf, n1, l.to, node', out);
      ActFrame(n1, l.to, node', out);
      if FirstTime(node, n.clock, m, l.from) {
        WithheldGrows(n, l.to, l.from, m.tx.from, TransactionId(node, m).value, out);
      }
      MoreWithheld(idOf, Act(n1, l.to, node', out), DoDeliver(n, l, order, pick));
    }
  }

  lemma HeldIsAccounted(idOf: IdOf, n: Net, l: Link, t: TxId)
    requires l in n.log && l.to in n.nodes && t in n.nodes[l.to].cache.values
    ensures Accounted(idOf, n, l, t)
  {
    hide Copies;
  }

  lemma WithholdSame(n: Net, n1: Net, v: PeerId, s: PeerId, author: PeerId, t: TxId, out: map<PeerId, RpcOut>)
    requires v in n.nodes && n1.nodes == n.nodes && n1.withheld == n.withheld
    ensures Withhold(n1, v, s, author, t, out) == Withhold(n, v, s, author, t, out)
  {}

  lemma PoppedPassedOn(idOf: IdOf, n: Net, l: Link)
    requires AllPassedOn(idOf, n) && l in n.wire && n.wire[l] != []
    ensures AllPassedOn(idOf, n.(wire := n.wire[l := n.wire[l][1..]]))
  {
    SamePassedOn(idOf, n, n.(wire := n.wire[l := n.wire[l][1..]]));
  }

  lemma SamePassedOn(idOf: IdOf, n: Net, n': Net)
    requires AllPassedOn(idOf, n) && n'.log == n.log && n'.withheld == n.withheld && n'.nodes.Keys == n.nodes.Keys
    requires forall v :: v in n.nodes ==>
               n'.nodes[v].cache == n.nodes[v].cache && n'.nodes[v].peers.Keys == n.nodes[v].peers.Keys
    ensures AllPassedOn(idOf, n')
  {
    hide Copies;
    forall v, t, p {:trigger PassedOn(idOf, n', v, t, p)} |
      v in n'.nodes && t in n'.nodes[v].cache.values && Watched(idOf, t) && p in n'.nodes[v].peers &&
          Link(v, p) in n'.log
      ensures PassedOn(idOf, n', v, t, p)
    {
      assert PassedOn(idOf, n, v, t, p);
    }
  }

  /** What a link step does to the copies on its link: all are still there, or one message is gone
      and listed as lost if it was a copy. */
  ghost predicate LossBooked(idOf: IdOf, l: Link, s: seq<RpcOut>, s': seq<RpcOut>, lost: set<Copy>, lost': set<Copy>) {
    && lost <= lost'
    && forall t {:trigger Copies(idOf, s', t)} :: Copies(idOf, s', t) == Copies(idOf, s, t) || Copy(l, t) in lost'
  }

  lemma RemovalBooked(idOf: IdOf, cfg: Config, l: Link, a: seq<RpcOut>, m: RpcOut, b: seq<RpcOut>, lost: set<Copy>)
    requires Watches(cfg, idOf)
    ensures LossBooked(idOf, l, a + [m] + b, a + b, lost, lost + CopiesLost(cfg, l, [m]))
  {
    hide Copies, Watches;
    if !m.IsControl() {
      WatchesId(cfg, idOf, m.tx);
    }
    forall t
      ensures Copies(idOf, a + b, t) == Copies(idOf, a + [m] + b, t) || Copy(l, t) in CopiesLost(cfg, l, [m])
    {
      CopiesConcat(idOf, a, b, t);
      CopiesConcat(idOf, a + [m], b, t);
      CopiesConcat(idOf, a, [m], t);
      CopiesOne(idOf, m, t);
      if IsCopy(idOf, m, t) {
        assert m in [m];
      }
    }
  }

  lemma NothingBooked(idOf: IdOf, l: Link, s: seq<RpcOut>, lost: set<Copy>)
    ensures LossBooked(idOf, l, s, s, lost, lost)
  {}

  lemma TransmitBooked(idOf: IdOf, n: Net, l: Link)
    requires NetValid(n) && Enabled(n, Transmit(l)) && Watches(n.nodes[l.from].cfg, idOf)
    ensures LossBooked(idOf, l, InFlight(n, l), InFlight(DoTransmit(n, l), l), n.lost, DoTransmit(n, l).lost)
  {
    hide NetValid, Copies, InFlight, DoTransmit, Watches, Undoes, CopiesLost, Queued, LossBooked;
    var m, rest := TransmitShape(n, l);
    RemovalBooked(idOf, n.nodes[l.from].cfg, l, n.wire[l], m, rest, n.lost);
    NothingBooked(idOf, l, InFlight(n, l), n.lost);
  }

  lemma DropStaleBooked(idOf: IdOf, n: Net, l: Link)
    requires Connected(n, l) && Watches(n.nodes[l.from].cfg, idOf)
    ensures LossBooked(idOf, l, InFlight(n, l), InFlight(DoDropStale(n, l), l), n.lost, DoDropStale(n, l).lost)
  {
    hide Copies, CopiesLost, PollStale, SetQueue, InFlight, LossBooked, Watches;
    var q := n.nodes[l.from].peers[l.to].queue;
    var w := if l in n.wire then n.wire[l] else [];
    var q' := PollStale(q, n.clock).0;
    QueueInFlight(n, l, q');
    QueueInFlight(n, l, q);
    DroppedInFlight(n, l);
    StaleShape(q, n.clock);
    SetQueueKeepsWire(n, l, q');
    var cfg := n.nodes[l.from].cfg;
    NothingBooked(idOf, l, InFlight(n, l), n.lost);
    if q'.priority != q.priority {
      assert w + (q.priority + q.nonPriority) == w + [q.priority[0]] + (q'.priority + q'.nonPriority);
      RemovalBooked(idOf, cfg, l, w, q.priority[0], q'.priority + q'.nonPriority, n.lost);
    } else if q'.nonPriority != q.nonPriority {
      assert w + (q.priority + q.nonPriority) == (w + q.priority) + [q.nonPriority[0]] + q'.nonPriority;
      assert w + (q'.priority + q'.nonPriority) == (w + q.priority) + q'.nonPriority;
      RemovalBooked(idOf, cfg, l, w + q.priority, q.nonPriority[0], q'.nonPriority, n.lost);
    }
  }

  lemma LoseBooked(idOf: IdOf, n: Net, l: Link, index: nat)
    requires Enabled(n, Lose(l, index)) && Watches(n.nodes[l.from].cfg, idOf)
    ensures LossBooked(idOf, l, InFlight(n, l), InFlight(DoLose(n, l, index), l), n.lost, DoLose(n, l, index).lost)
  {
    hide Copies, CopiesLost, Watches, Undoes, LossBooked;
    var w, rest := n.wire[l], Queued(n, l);
    RemovalBooked(idOf, n.nodes[l.from].cfg, l, w[..index], w[index], w[index + 1..] + rest, n.lost);
    assert InFlight(n, l) == w[..index] + [w[index]] + (w[index + 1..] + rest);
    assert InFlight(DoLose(n, l, index), l) == w[..index] + (w[index + 1..] + rest);
  }

  lemma DropPeekedBooked(idOf: IdOf, n: Net, l: Link, priority: bool)
    requires Enabled(n, DropPeeked(l, priority)) && Watches(n.nodes[l.from].cfg, idOf)
    ensures LossBooked(idOf, l, InFlight(n, l), InFlight(DoDropPeeked(n, l, priority), l), n.lost,
                       DoDropPeeked(n, l, priority).lost)
  {
    hide Copies, InFlight, DoDropPeeked, CopiesLost, Watches, Undoes, LossBooked;
    var a, m, b := DropPeekedShape(n, l, priority);
    RemovalBooked(idOf, n.nodes[l.from].cfg, l, a, m, b, n.lost);
  }

  lemma LinkStepBooked(idOf: IdOf, n: Net, s: Step)
    requires NetValid(n) && Enabled(n, s) && IsLinkStep(s) && Watches(n.nodes[s.link.from].cfg, idOf)
    requires forall v :: v in n.nodes ==> Consistent(n.nodes[v].cache)
    ensures LossBooked(idOf, s.link, InFlight(n, s.link), InFlight(Do(n, s), s.link), n.lost, Do(n, s).lost)
  {
    hide NetValid, Copies, PollNext, PollStale, CopiesLost, Consistent, SetQueue, InFlight, DoTransmit, DoDropStale,
         DoLose, DoDropPeeked, LossBooked, Watches;
    match s
    case Transmit(l) => TransmitBooked(idOf, n, l);
    case DropStale(l) => DropStaleBooked(idOf, n, l);
    case Peek(l) =>
      SetQueueKeepsWire(n, l, PollIsEmpty(n.nodes[l.from].peers[l.to].queue).0);
      QueueInFlight(n, l, PollIsEmpty(n.nodes[l.from].peers[l.to].queue).0);
      QueueInFlight(n, l, n.nodes[l.from].peers[l.to].queue);
      NothingBooked(idOf, l, InFlight(n, l), n.lost);
    case DropPeeked(l, priority) => DropPeekedBooked(idOf, n, l, priority);
    case Lose(l, index) => LoseBooked(idOf, n, l, index);
  }

  lemma LinkStepBooks(idOf: IdOf, n: Net, horizon: nat, s: Step)
    requires NetValid(n) && Enabled(n, s) && IsLinkStep(s)
    requires forall v :: v in n.nodes ==> Consistent(n.nodes[v].cache)
    requires Assumptions(n, idOf, horizon) && AllPassedOn(idOf, n) && AllAccounted(idOf, n)
    ensures AllPassedOn(idOf, Do(n, s)) && AllAccounted(idOf, Do(n, s))
  {
    hide NetValid, Copies, Do, InFlight, Consistent, AllPassedOn, Watches, Undoes, Lasting;
    var n' := Do(n, s);
    LinkStepFrame(n, s);
    SamePassedOn(idOf, n, n');
    LinkStepSender(n, s);
    AssumedOf(n, idOf, horizon, s.link.from);
    LinkStepBooked(idOf, n, s);
    forall l, t {:trigger Accounted(idOf, n', l, t)} | l in n'.log
      ensures Accounted(idOf, n', l, t)
    {
      assert Accounted(idOf, n, l, t);
      assert l == s.link ==>
               Copies(idOf, InFlight(n', l), t) == Copies(idOf, InFlight(n, l), t) || Copy(l, t) in n'.lost;
    }
  }

  lemma LinkStepSender(n: Net, s: Step)
    requires Enabled(n, s) && IsLinkStep(s) && forall v :: v in n.nodes ==> Consistent(n.nodes[v].cache)
    ensures s.link.from in n.nodes && n.lost <= Do(n, s).lost
  {
    hide PollNext, PollStale, CopiesLost, Consistent;
  }

  lemma StepBooks(idOf: IdOf, n: Net, horizon: nat, s: Step)
    requires NetValid(n) && (forall v :: v in n.nodes ==>
                             Consistent(n.nodes[v].cache) && LooksAtTransactions(n.nodes[v].cfg))
    requires Assumptions(n, idOf, horizon) && AllPassedOn(idOf, n) && AllAccounted(idOf, n)
    requires !s.Connect? && !s.Disconnect?
    ensures AllPassedOn(idOf, Do(n, s)) && AllAccounted(idOf, Do(n, s))
  {
    hide DoPublish, DoDeliver, AdjustRedundancy, AdjustOut, Spoke, CreditsMove, Consistent, NetValid, DoTransmit,
         DoDropStale, DoLose, DoDropPeeked, SetQueue, AllPassedOn, AllAccounted, InFlight, Watches, Undoes, Lasting,
         Act;
    if Enabled(n, s) {
      if IsLinkStep(s) {
        LinkStepBooks(idOf, n, horizon, s);
      } else if s.PublishAt? {
        PublishBooks(idOf, n, horizon, s.v, s.data, s.order);
      } else if s.Deliver? {
        DeliverBooks(idOf, n, horizon, s.link, s.order, s.pick);
      } else if s.Tick? {
        WiresAndLogs(n);
        AdjustFacts(n.nodes[s.v], s.choice);
        ActKeepsBooks(idOf, n, s.v, AdjustRedundancy(n.nodes[s.v], s.choice).node, AdjustOut(n.nodes[s.v], s.choice));
      } else {
        AdvanceBooks(idOf, n, s.d);
      }
    }
  }

  lemma AdvanceBooks(idOf: IdOf, n: Net, d: nat)
    requires AllPassedOn(idOf, n) && AllAccounted(idOf, n)
    ensures AllPassedOn(idOf, n.(clock := n.clock + d)) && AllAccounted(idOf, n.(clock := n.clock + d))
  {
    hide Copies;
    var n' := n.(clock := n.clock + d);
    SamePassedOn(idOf, n, n');
    forall l, t {:trigger Accounted(idOf, n', l, t)} | l in n'.log
      ensures Accounted(idOf, n', l, t)
    {
      assert Accounted(idOf, n, l, t);
    }
  }

  ghost predicate EverybodyLooks(n: Net) {
    forall v :: v in n.nodes ==> LooksAtTransactions(n.nodes[v].cfg)
  }

  lemma InitialBooks(idOf: IdOf, n: Net)
    requires Initial(n)
    ensures AllPassedOn(idOf, n) && AllAccounted(idOf, n)
  {
    hide NetValid, InFlight;
  }

  lemma {:induction false} RunBooks(idOf: IdOf, n: Net, steps: seq<Step>, horizon: nat)
    requires HonestRun(idOf, n, steps, horizon) && Static(steps) && EverybodyLooks(n)
    ensures AllPassedOn(idOf, Run(n, steps)) && AllAccounted(idOf, Run(n, steps))
  {
    hide Initial, NetValid, Do, Assumptions, AllPassedOn, AllAccounted, FloodInvariant;
    InitialIsValid(n);
    if steps == [] {
      InitialBooks(idOf, n);
    } else {
      var k := |steps| - 1;
      assert steps[k] in steps && forall s :: s in steps[..k] ==> s in steps;
      var before := Run(n, steps[..k]);
      DoValid(before, steps[k]);
      HonestPrefix(idOf, n, steps, horizon, k);
      RunBooks(idOf, n, steps[..k], horizon);
      RunTopology(n, steps[..k]);
      StepBooks(idOf, before, horizon, steps[k]);
    }
  }

  // ---- Delivery ----

  /** The author of anything held holds it. */
  lemma AuthorAlwaysHolds(idOf: IdOf, a: Flood, v: PeerId, t: TxId, author: PeerId)
    requires FloodInvariant(idOf, a) && NamesAuthor(idOf, a.know.Keys) && a.Holds(v, t)
    requires AuthorOf(idOf, t, author) && author in a.know
    ensures a.Holds(author, t)
  {
    hide LinkFits, HaveTxsFit, SentFirst, SourceFits, NamesAuthor;
    assert IsRooted(a, v, t);
    var k: nat :| Rooted(a, v, t, k);
    RootIsAuthor(idOf, a, v, t, k);
    AncestorHolds(a, v, t, k, k);
    var raw: RawTransaction :| idOf(raw) == Some(t) && raw.from == author;
  }

  lemma SourceHolds(idOf: IdOf, a: Flood, v: PeerId, t: TxId)
    requires FloodInvariant(idOf, a) && a.Holds(v, t) && Watched(idOf, t)
    ensures a.Holds(a.Source(v, t), t)
  {
    hide LinkFits, HaveTxsFit, SentFirst, IsRooted;
    assert SourceFits(idOf, a, v, t);
  }

  /** What a holder's books say of a neighbour no copy is on its way to. */
  lemma BooksSettled(idOf: IdOf, n: Net, v: PeerId, t: TxId, p: PeerId)
    requires AllPassedOn(idOf, n) && AllAccounted(idOf, n)
    requires v in n.nodes && t in n.nodes[v].cache.values && Watched(idOf, t)
    requires p in n.nodes[v].peers && Link(v, p) in n.log
    requires Copies(idOf, InFlight(n, Link(v, p)), t) == 0
    ensures || p == n.nodes[v].cache.values[t] || AuthorOf(idOf, t, p)
            || (p in n.nodes && t in n.nodes[p].cache.values)
            || Copy(Link(v, p), t) in n.withheld || Copy(Link(v, p), t) in n.lost
  {
    hide Copies, InFlight, AuthorOf;
    assert PassedOn(idOf, n, v, t, p);
    assert Accounted(idOf, n, Link(v, p), t);
  }

  lemma QuietNeighbour(idOf: IdOf, n: Net, v: PeerId, p: PeerId, t: TxId)
    requires NetValid(n) && NamesAuthor(idOf, n.nodes.Keys) && AllPassedOn(idOf, n) && AllAccounted(idOf, n)
    requires FloodInvariant(idOf, Abs(n))
    requires v in n.nodes && n.nodes[v].Holds(t) && Watched(idOf, t) && p in n.nodes[v].peers
    requires Copies(idOf, InFlight(n, Link(v, p)), t) == 0
    ensures || (p in n.nodes && n.nodes[p].Holds(t))
            || Copy(Link(v, p), t) in n.withheld
            || Copy(Link(v, p), t) in n.lost
  {
    hide NamesAuthor, FloodInvariant, Copies, InFlight, AuthorOf, NetValid, AllPassedOn, AllAccounted;
    var a := Abs(n);
    assert a.know.Keys == n.nodes.Keys;
    PeersAreNodes(n, v, p);
    BooksSettled(idOf, n, v, t, p);
    assert a.Holds(v, t);
    SourceHolds(idOf, a, v, t);
    if AuthorOf(idOf, t, p) {
      AuthorAlwaysHolds(idOf, a, v, t, p);
    }
  }

  lemma PeersAreNodes(n: Net, v: PeerId, p: PeerId)
    requires NetValid(n) && v in n.nodes && p in n.nodes[v].peers
    ensures p in n.nodes && Link(v, p) in n.log
  {
    hide Consistent, SendQueue.Valid;
    assert NodeValid(n.nodes[v], v, n.nodes.Keys);
  }
}

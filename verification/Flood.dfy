/** The network of Networks, run by honest nodes in whose caches no watched transaction expires, is a
    flood in the sense of FloodSpec. */
module FloodRefinement {
  import opened Types
  import opened TimeCache
  import opened Routing
  import opened SendQueues
  import opened Nodes
  import opened NodeFacts
  import opened Networks
  import opened NetworkRuns
  import opened FloodSpec
  import opened Credit

  /** The node files every raw transaction under the common id. */
  ghost predicate FilesUnder(cfg: Config, idOf: IdOf) {
    forall raw {:trigger idOf(raw)} :: cfg.RawId(raw) == idOf(raw)
  }

  /** The node's data transforms undo each other, as their trait demands. */
  ghost predicate Undoes(cfg: Config) {
    forall from, seqno, data, signature, key :: cfg.outbound(data).Some? ==>
      cfg.inbound(RawTransaction(from, seqno, cfg.outbound(data).value, signature, key)) ==
        Some(Transaction(from, seqno, data))
  }

  ghost predicate Honest(cfg: Config, idOf: IdOf) {
    FilesUnder(cfg, idOf) && Undoes(cfg)
  }

  /** An honest node, as far as the watched transactions go: it files them, and no others, under the
      watched ids. */
  ghost predicate Watches(cfg: Config, idOf: IdOf) {
    && (forall raw {:trigger idOf(raw)} {:trigger cfg.RawId(raw)} ::
          && (idOf(raw).Some? ==> cfg.RawId(raw) == idOf(raw))
          && (cfg.RawId(raw).Some? && Watched(idOf, cfg.RawId(raw).value) ==> idOf(raw) == cfg.RawId(raw)))
    && Undoes(cfg)
  }

  lemma HonestMeans(cfg: Config, idOf: IdOf, raw: RawTransaction)
    requires Honest(cfg, idOf)
    ensures cfg.RawId(raw) == idOf(raw) && Undoes(cfg)
  {
    hide Undoes;
  }

  /** No entry for a watched transaction expires by `horizon`. */
  ghost predicate Lasting(c: Cache<TxId, PeerId>, idOf: IdOf, horizon: nat) {
    forall e :: e in c.list && Watched(idOf, e.key) ==> e.expiration > horizon
  }

  /** The standing assumptions of the flood: honest nodes, and no watched entry that expires. */
  ghost predicate Assumptions(n: Net, idOf: IdOf, horizon: nat) {
    && n.clock <= horizon
    && forall v :: v in n.nodes ==> Watches(n.nodes[v].cfg, idOf) && Lasting(n.nodes[v].cache, idOf, horizon)
  }

  ghost function Abs(n: Net): Flood {
    Flood(map v | v in n.nodes :: n.nodes[v].cache.values, map l | l in n.wire :: InFlight(n, l), n.log)
  }

  // ---- Caches ----

  /** Two caches say the same about the watched transactions. */
  ghost predicate SameValues(idOf: IdOf, values: map<TxId, PeerId>, values': map<TxId, PeerId>) {
    forall t :: Watched(idOf, t) ==>
      (t in values' <==> t in values) && (t in values ==> values'[t] == values[t])
  }

  /** Of the watched transactions just `t` is new, from `s`. */
  ghost predicate AddsOne(idOf: IdOf, values: map<TxId, PeerId>, values': map<TxId, PeerId>, t: TxId, s: PeerId) {
    && t in values' && values'[t] == s
    && forall x :: Watched(idOf, x) && x != t ==>
         (x in values' <==> x in values) && (x in values ==> values'[x] == values[x])
  }

  lemma {:induction false} PurgedLasting(c: Cache<TxId, PeerId>, idOf: IdOf, now: nat, horizon: nat)
    requires Consistent(c) && Lasting(c, idOf, horizon) && now <= horizon
    ensures SameValues(idOf, c.values, Purged(c, now).values)
    ensures forall x :: x in Purged(c, now).values ==> x in c.values
    decreases |c.list|
  {
    if c.list != [] && c.list[0].expiration <= now {
      PopConsistent(c);
      assert c.list[0] in c.list;
      PurgedLasting(Popped(c), idOf, now, horizon);
    }
  }

  lemma InsertedLasting(c: Cache<TxId, PeerId>, idOf: IdOf, now: nat, horizon: nat, t: TxId, s: PeerId)
    requires Consistent(c) && Lasting(c, idOf, horizon) && now <= horizon
    ensures var (c', added) := Inserted(c, now, t, s);
            && (Watched(idOf, t) ==> (added <==> t !in c.values))
            && (t !in c.values ==> added)
            && (if Watched(idOf, t) && added then AddsOne(idOf, c.values, c'.values, t, s)
                else SameValues(idOf, c.values, c'.values))
  {
    hide Purged, Consistent, Lasting;
    PurgedLasting(c, idOf, now, horizon);
  }

  // ---- What a node's messages do to the links ----

  /** The link takes `m`, or nothing. */
  ghost predicate Gets(idOf: IdOf, s: seq<RpcOut>, s': seq<RpcOut>, m: Option<RpcOut>) {
    && (forall x :: x in s' ==> x in s || m == Some(x))
    && (forall t {:trigger Copies(idOf, s', t)} ::
          Copies(idOf, s', t) == Copies(idOf, s, t) + if m.Some? && IsCopy(idOf, m.value, t) then 1 else 0)
  }

  lemma TookGets(idOf: IdOf, w: seq<RpcOut>, q: SendQueue, q': SendQueue, m: Option<RpcOut>)
    requires Took(q, q', m)
    ensures Gets(idOf, w + (q.priority + q.nonPriority), w + (q'.priority + q'.nonPriority), m)
  {
    hide Copies, SendQueue.Valid;
    forall t
      ensures Copies(idOf, w + (q'.priority + q'.nonPriority), t) ==
              Copies(idOf, w + (q.priority + q.nonPriority), t) + if m.Some? && IsCopy(idOf, m.value, t) then 1 else 0
    {
      CopiesConcat(idOf, w, q.priority + q.nonPriority, t);
      CopiesConcat(idOf, q.priority, q.nonPriority, t);
      CopiesConcat(idOf, w, q'.priority + q'.nonPriority, t);
      CopiesConcat(idOf, q'.priority, q'.nonPriority, t);
      if m.Some? {
        CopiesOne(idOf, m.value, t);
        CopiesConcat(idOf, q.priority, [m.value], t);
        CopiesConcat(idOf, q.nonPriority, [m.value], t);
      } else {
        assert q'.priority == q.priority && q'.nonPriority == q.nonPriority;
      }
      if m.Some? && m.value.IsPriority() {
        assert q'.nonPriority == q.nonPriority;
      } else {
        assert q'.priority == q.priority;
      }
    }
  }

  lemma AppendGets(idOf: IdOf, s: seq<RpcOut>, m: RpcOut)
    ensures Gets(idOf, s, s + [m], Some(m))
  {
    hide Copies;
    forall t
      ensures Copies(idOf, s + [m], t) == Copies(idOf, s, t) + if IsCopy(idOf, m, t) then 1 else 0
    {
      CopiesConcat(idOf, s, [m], t);
      CopiesOne(idOf, m, t);
    }
  }

  lemma ActGets(idOf: IdOf, n: Net, v: PeerId, node': Node, out: map<PeerId, RpcOut>, l: Link)
    requires v in n.nodes && l in n.wire && l in n.log && Spoke(n.nodes[v].peers, node'.peers, out)
    ensures Gets(idOf, InFlight(n, l), InFlight(Act(n, v, node', out), l), SaidOn(v, out, l))
    ensures Gets(idOf, n.log[l], Act(n, v, node', out).log[l], SaidOn(v, out, l))
  {
    hide Copies, Took;
    if l.from == v && l.to in n.nodes[v].peers {
      TookGets(idOf, n.wire[l], n.nodes[v].peers[l.to].queue, node'.peers[l.to].queue, Said(out, l.to));
    }
    if SaidOn(v, out, l).Some? {
      AppendGets(idOf, n.log[l], out[l.to]);
    }
  }

  lemma GetsNoMore(idOf: IdOf, s: seq<RpcOut>, s': seq<RpcOut>, m: Option<RpcOut>)
    requires Gets(idOf, s, s', m)
    ensures m.None? || m.value.IsControl() || idOf(m.value.tx).None? ==> NoMore(idOf, s, s')
    ensures forall raw, t :: m.Some? && !m.value.IsControl() && m.value.tx == raw && idOf(raw) == Some(t) ==>
              OneMore(idOf, s, s', raw, t)
    ensures forall x :: x in s' && x.HaveTx? ==> x in s || m == Some(x)
  {
    hide Copies;
  }

  lemma GetsRecorded(idOf: IdOf, s: seq<RpcOut>, s': seq<RpcOut>, sent: seq<RpcOut>, sent': seq<RpcOut>,
                     m: Option<RpcOut>)
    requires Gets(idOf, s, s', m) && Gets(idOf, sent, sent', m)
    ensures Recorded(idOf, s, s', sent, sent')
  {
    hide Copies;
    forall t
      ensures Copies(idOf, sent, t) <= Copies(idOf, sent', t)
      ensures Copies(idOf, s', t) + Copies(idOf, sent, t) <= Copies(idOf, s, t) + Copies(idOf, sent', t)
    {
      assert Copies(idOf, s', t) >= 0 && Copies(idOf, sent', t) >= 0;
    }
  }

  lemma OneMoreFromNoMore(idOf: IdOf, s: seq<RpcOut>, s': seq<RpcOut>, raw: RawTransaction, t: TxId)
    requires NoMore(idOf, s, s')
    ensures OneMore(idOf, s, s', raw, t)
  {
    hide Copies;
  }

  // ---- Steps that teach nobody anything ----

  /** Control messages and transactions that are not watched; and any HaveTx for a watched one fits. */
  ghost predicate SaysQuietly(idOf: IdOf, a: Flood, v: PeerId, out: map<PeerId, RpcOut>) {
    forall p :: p in out ==>
      && (!out[p].IsControl() ==> idOf(out[p].tx).None?)
      && (out[p].HaveTx? && Watched(idOf, out[p].id) ==> HaveTxFits(a, Link(v, p), out[p].id))
  }

  lemma ActQuiet(idOf: IdOf, n: Net, v: PeerId, node': Node, out: map<PeerId, RpcOut>)
    requires NetValid(n) && v in n.nodes && Spoke(n.nodes[v].peers, node'.peers, out)
    requires SameValues(idOf, n.nodes[v].cache.values, node'.cache.values) && SaysQuietly(idOf, Abs(n), v, out)
    ensures Quiet(idOf, Abs(n), Abs(Act(n, v, node', out)))
  {
    hide NodeValid, NoMore, HaveTxFits, InFlight, Act, Spoke, NetValid, SaysQuietly, SameValues;
    WiresAndLogs(n);
    var n' := Act(n, v, node', out);
    ActSameKnow(idOf, n, v, node', out);
    ActKnow(n, v, node', out);
    forall l | l in n.wire && l in n.log
      ensures NoMore(idOf, InFlight(n, l), InFlight(n', l)) && NoMore(idOf, n.log[l], n'.log[l])
      ensures Recorded(idOf, InFlight(n, l), InFlight(n', l), n.log[l], n'.log[l])
      ensures forall m :: m in InFlight(n', l) && m.HaveTx? && Watched(idOf, m.id) ==>
                m in InFlight(n, l) || HaveTxFits(Abs(n), l, m.id)
    {
      ActQuietLink(idOf, n, v, node', out, l);
    }
  }

  lemma ActSameKnow(idOf: IdOf, n: Net, v: PeerId, node': Node, out: map<PeerId, RpcOut>)
    requires v in n.nodes && SameValues(idOf, n.nodes[v].cache.values, node'.cache.values)
    ensures SameKnow(idOf, Abs(n), Abs(Act(n, v, node', out)))
  {
    hide InFlight, Act;
    ActKnow(n, v, node', out);
    var a, a' := Abs(n), Abs(Act(n, v, node', out));
    forall u, t | Watched(idOf, t)
      ensures (a'.Holds(u, t) <==> a.Holds(u, t)) && (a.Holds(u, t) ==> a'.Source(u, t) == a.Source(u, t))
    {}
  }

  lemma ActKnow(n: Net, v: PeerId, node': Node, out: map<PeerId, RpcOut>)
    requires v in n.nodes
    ensures var n' := Act(n, v, node', out);
            && Abs(n').know == Abs(n).know[v := node'.cache.values]
            && n'.wire == n.wire && n'.log.Keys == n.log.Keys && n'.clock == n.clock
  {
    hide InFlight;
  }

  lemma ActQuietLink(idOf: IdOf, n: Net, v: PeerId, node': Node, out: map<PeerId, RpcOut>, l: Link)
    requires v in n.nodes && l in n.wire && l in n.log && Spoke(n.nodes[v].peers, node'.peers, out)
    requires SaysQuietly(idOf, Abs(n), v, out)
    ensures var n' := Act(n, v, node', out);
            && NoMore(idOf, InFlight(n, l), InFlight(n', l)) && NoMore(idOf, n.log[l], n'.log[l])
            && Recorded(idOf, InFlight(n, l), InFlight(n', l), n.log[l], n'.log[l])
            && forall m :: m in InFlight(n', l) && m.HaveTx? && Watched(idOf, m.id) ==>
                 m in InFlight(n, l) || HaveTxFits(Abs(n), l, m.id)
  {
    hide Spoke, NoMore, Gets, HaveTxFits, InFlight, Act;
    var n' := Act(n, v, node', out);
    ActGets(idOf, n, v, node', out, l);
    ActKnow(n, v, node', out);
    GetsNoMore(idOf, InFlight(n, l), InFlight(n', l), SaidOn(v, out, l));
    GetsNoMore(idOf, n.log[l], n'.log[l], SaidOn(v, out, l));
    GetsRecorded(idOf, InFlight(n, l), InFlight(n', l), n.log[l], n'.log[l], SaidOn(v, out, l));
  }

  /** A step that changes no cache, adds nothing to a link and records nothing as sent. */
  lemma FewerQuiet(idOf: IdOf, n: Net, n': Net)
    requires n'.wire.Keys == n.wire.Keys && n'.log == n.log && n'.nodes.Keys == n.nodes.Keys
    requires forall v :: v in n.nodes ==> n'.nodes[v].cache.values == n.nodes[v].cache.values
    requires forall l :: l in n.wire ==> Subset(idOf, InFlight(n, l), InFlight(n', l))
    ensures Quiet(idOf, Abs(n), Abs(n'))
  {
    hide InFlight, Copies, HaveTxFits;
    assert Abs(n').know == Abs(n).know;
    forall l | l in n.wire
      ensures NoMore(idOf, InFlight(n, l), InFlight(n', l))
      ensures NoMore(idOf, if l in n.log then n.log[l] else [], if l in n.log then n.log[l] else [])
      ensures Recorded(idOf, InFlight(n, l), InFlight(n', l), if l in n.log then n.log[l] else [],
                       if l in n.log then n.log[l] else [])
      ensures forall m :: m in InFlight(n', l) && m.HaveTx? ==> m in InFlight(n, l)
    {
      assert Subset(idOf, InFlight(n, l), InFlight(n', l));
    }
  }

  ghost predicate Subset(idOf: IdOf, s: seq<RpcOut>, s': seq<RpcOut>) {
    && (forall m :: m in s' ==> m in s)
    && (forall t {:trigger Copies(idOf, s', t)} :: Copies(idOf, s', t) <= Copies(idOf, s, t))
  }

  lemma RemovalSubset(idOf: IdOf, a: seq<RpcOut>, m: RpcOut, b: seq<RpcOut>)
    ensures Subset(idOf, a + [m] + b, a + b)
  {
    hide Copies;
    forall t
      ensures Copies(idOf, a + b, t) <= Copies(idOf, a + [m] + b, t)
    {
      CopiesConcat(idOf, a, b, t);
      CopiesConcat(idOf, a + [m], b, t);
      CopiesConcat(idOf, a, [m], t);
    }
  }

  /** A node takes up `t` from `s` and says only copies of `raw`, not to `s` and not to the author. */
  ghost predicate SaysOnly(out: map<PeerId, RpcOut>, raw: RawTransaction, s: PeerId) {
    forall p :: p in out ==> !out[p].IsControl() && out[p].tx == raw && p != s && p != raw.from
  }

  lemma ActLearnsLink(idOf: IdOf, n: Net, u: PeerId, node': Node, out: map<PeerId, RpcOut>, s: PeerId,
                      raw: RawTransaction, t: TxId, l: Link)
    requires u in n.nodes && l in n.wire && l in n.log && Spoke(n.nodes[u].peers, node'.peers, out)
    requires SaysOnly(out, raw, s) && idOf(raw) == Some(t)
    ensures var n' := Act(n, u, node', out);
            && (if l.from == u && l.to != s && l.to != raw.from
                then OneMore(idOf, InFlight(n, l), InFlight(n', l), raw, t) &&
                    OneMore(idOf, n.log[l], n'.log[l], raw, t)
                else NoMore(idOf, InFlight(n, l), InFlight(n', l)) && NoMore(idOf, n.log[l], n'.log[l]))
            && Recorded(idOf, InFlight(n, l), InFlight(n', l), n.log[l], n'.log[l])
            && forall m :: m in InFlight(n', l) && m.HaveTx? ==> m in InFlight(n, l)
  {
    hide Spoke, NoMore, OneMore, Gets, InFlight, Act;
    var n' := Act(n, u, node', out);
    ActGets(idOf, n, u, node', out, l);
    ActKnow(n, u, node', out);
    GetsNoMore(idOf, InFlight(n, l), InFlight(n', l), SaidOn(u, out, l));
    GetsNoMore(idOf, n.log[l], n'.log[l], SaidOn(u, out, l));
    GetsRecorded(idOf, InFlight(n, l), InFlight(n', l), n.log[l], n'.log[l], SaidOn(u, out, l));
    if SaidOn(u, out, l).None? {
      OneMoreFromNoMore(idOf, InFlight(n, l), InFlight(n', l), raw, t);
      OneMoreFromNoMore(idOf, n.log[l], n'.log[l], raw, t);
    }
  }

  // ---- Publishing ----

  lemma PublishLearns(idOf: IdOf, n: Net, v: PeerId, node': Node, out: map<PeerId, RpcOut>, raw: RawTransaction,
                      t: TxId)
    requires NetValid(n) && v in n.nodes && Spoke(n.nodes[v].peers, node'.peers, out)
    requires SaysOnly(out, raw, v) && idOf(raw) == Some(t) && raw.from == v && t !in n.nodes[v].cache.values
    requires AddsOne(idOf, n.nodes[v].cache.values, node'.cache.values, t, v)
    ensures Learns(idOf, Abs(n), Abs(Act(n, v, node', out)), v, v, raw, t)
  {
    hide NodeValid, NoMore, OneMore, InFlight, Act, Spoke, SaysOnly, Copies, NetValid, AddsOne;
    var n' := Act(n, v, node', out);
    WiresAndLogs(n);
    ActKnow(n, v, node', out);
    KnowsOneMore(idOf, Abs(n), Abs(n'), v, n.nodes[v].cache.values, node'.cache.values, t, v);
    forall l | l in n.wire && l in n.log
      ensures if l.from == v && l.to != v && l.to != raw.from
              then OneMore(idOf, InFlight(n, l), InFlight(n', l), raw, t) && OneMore(idOf, n.log[l], n'.log[l], raw, t)
              else NoMore(idOf, InFlight(n, l), InFlight(n', l)) && NoMore(idOf, n.log[l], n'.log[l])
      ensures Recorded(idOf, InFlight(n, l), InFlight(n', l), n.log[l], n'.log[l])
      ensures forall m :: m in InFlight(n', l) && m.HaveTx? ==> m in InFlight(n, l)
    {
      ActLearnsLink(idOf, n, v, node', out, v, raw, t, l);
    }
  }

  /** What an addition to one cache means for the flood. */
  lemma KnowsOneMore(idOf: IdOf, a: Flood, a': Flood, u: PeerId, values: map<TxId, PeerId>,
                     values': map<TxId, PeerId>, t: TxId, s: PeerId)
    requires u in a.know && a.know[u] == values && a'.know == a.know[u := values']
    requires AddsOne(idOf, values, values', t, s)
    ensures a'.know.Keys == a.know.Keys && a'.Holds(u, t) && a'.Source(u, t) == s
    ensures forall v, x :: Watched(idOf, x) ==> (a'.Holds(v, x) <==> a.Holds(v, x) || (v == u && x == t))
    ensures t !in values ==>
              forall v, x :: Watched(idOf, x) && a.Holds(v, x) ==> a'.Source(v, x) == a.Source(v, x)
  {}

  /** A raw transaction built by an honest node is filed everywhere under the id it was published with. */
  lemma BuiltId(node: Node, data: Bytes)
    requires Undoes(node.cfg) && Built(node, data).Some?
    ensures var raw := Built(node, data).value;
            node.cfg.RawId(raw) == Some(node.cfg.transactionId(Transaction(raw.from, raw.seqno, data)))
  {
    var raw := Built(node, data).value;
    assert raw == RawTransaction(raw.from, raw.seqno, node.cfg.outbound(data).value, raw.signature, raw.key);
  }

  /** A node files a transaction under a watched id exactly if it is watched. */
  lemma WatchesId(cfg: Config, idOf: IdOf, raw: RawTransaction)
    requires Watches(cfg, idOf)
    ensures idOf(raw).Some? ==> cfg.RawId(raw) == idOf(raw) && Watched(idOf, idOf(raw).value)
    ensures idOf(raw).None? && cfg.RawId(raw).Some? ==> !Watched(idOf, cfg.RawId(raw).value)
  {}

  lemma AssumedOf(n: Net, idOf: IdOf, horizon: nat, v: PeerId)
    requires Assumptions(n, idOf, horizon) && v in n.nodes
    ensures n.clock <= horizon && Watches(n.nodes[v].cfg, idOf) && Undoes(n.nodes[v].cfg)
    ensures Lasting(n.nodes[v].cache, idOf, horizon)
  {
    hide Lasting, Undoes;
  }

  lemma PublishFlood(idOf: IdOf, n: Net, horizon: nat, v: PeerId, data: Bytes, order: seq<PeerId>)
    requires NetValid(n) && Enabled(n, PublishAt(v, data, order)) && Consistent(n.nodes[v].cache)
    requires Assumptions(n, idOf, horizon) && FloodInvariant(idOf, Abs(n))
    ensures FloodInvariant(idOf, Abs(DoPublish(n, v, data, order)))
  {
    hide PublishData, Inserted, Spoke, Built, NodeValid, Consistent, Calm, IsOrderOf, Withhold, PublishOut, NetValid,
         FloodInvariant, Watches, Undoes, Lasting, ReasonsHold, Abs, Learns, Quiet, SameValues, AddsOne, SaysQuietly;
    NodeFactsOf(n, v);
    AssumedOf(n, idOf, horizon, v);
    var node := n.nodes[v];
    PublishFacts(node, n.clock, data, order);
    var node' := PublishData(node, n.clock, data, order).0.node;
    var n' := DoPublish(n, v, data, order);
    if PublishesNew(node, data) {
      var raw := Built(node, data).value;
      var t := node.cfg.transactionId(Transaction(raw.from, raw.seqno, data));
      var out := PublishOut(node, n.clock, raw, order);
      BuiltId(node, data);
      WatchesId(node.cfg, idOf, raw);
      InsertedLasting(node.cache, idOf, n.clock, horizon, t, v);
      if idOf(raw).Some? {
        PublishLearns(idOf, n, v, node', out, raw, t);
        LearnsKeeps(idOf, Abs(n), Abs(Act(n, v, node', out)), v, v, raw, t);
      } else {
        CopiesSayQuietly(idOf, Abs(n), v, out, raw, v);
        ActQuiet(idOf, n, v, node', out);
        QuietKeeps(idOf, Abs(n), Abs(Act(n, v, node', out)));
      }
      AbsSame(Act(n, v, node', out), n');
    } else {
      SpokeNothing(node.peers);
      SameValuesSelf(idOf, node.cache.values);
      SilentQuietly(idOf, Abs(n), v);
      ActQuiet(idOf, n, v, node', map[]);
      QuietKeeps(idOf, Abs(n), Abs(Act(n, v, node', map[])));
      AbsSame(Act(n, v, node', map[]), n');
    }
  }

  lemma SameValuesSelf(idOf: IdOf, values: map<TxId, PeerId>)
    ensures SameValues(idOf, values, values)
  {}

  lemma CopiesSayQuietly(idOf: IdOf, a: Flood, v: PeerId, out: map<PeerId, RpcOut>, raw: RawTransaction, s: PeerId)
    requires SaysOnly(out, raw, s) && idOf(raw).None?
    ensures SaysQuietly(idOf, a, v, out)
  {}

  lemma SilentQuietly(idOf: IdOf, a: Flood, v: PeerId)
    ensures SaysQuietly(idOf, a, v, map[])
  {}

  lemma AbsSame(n: Net, n': Net)
    requires n'.nodes == n.nodes && n'.wire == n.wire && n'.log == n.log
    ensures Abs(n') == Abs(n)
  {}

  // ---- Delivery ----

  /** Taking the head off a wire: one message fewer on that link. */
  lemma PoppedFlight(idOf: IdOf, n: Net, l: Link)
    requires l in n.wire && n.wire[l] != []
    ensures var n1, m := n.(wire := n.wire[l := n.wire[l][1..]]), n.wire[l][0];
            && m in InFlight(n, l)
            && (forall x :: x in InFlight(n1, l) ==> x in InFlight(n, l))
            && (forall t {:trigger Copies(idOf, InFlight(n1, l), t)} ::
                  Copies(idOf, InFlight(n1, l), t) + (if IsCopy(idOf, m, t) then 1 else 0) ==
                      Copies(idOf, InFlight(n, l), t))
            && forall k :: k != l ==> InFlight(n1, k) == InFlight(n, k)
  {
    hide Copies;
    var n1, m := n.(wire := n.wire[l := n.wire[l][1..]]), n.wire[l][0];
    assert InFlight(n, l) == [m] + InFlight(n1, l);
    forall t
      ensures Copies(idOf, InFlight(n1, l), t) + (if IsCopy(idOf, m, t) then 1 else 0) ==
                Copies(idOf, InFlight(n, l), t)
    {
      CopiesConcat(idOf, [m], InFlight(n1, l), t);
      CopiesOne(idOf, m, t);
    }
  }

  lemma PoppedQuiet(idOf: IdOf, n: Net, l: Link)
    requires l in n.wire && n.wire[l] != []
    ensures Quiet(idOf, Abs(n), Abs(n.(wire := n.wire[l := n.wire[l][1..]])))
  {
    hide Copies, InFlight;
    var n1 := n.(wire := n.wire[l := n.wire[l][1..]]);
    PoppedFlight(idOf, n, l);
    forall k | k in n.wire
      ensures Subset(idOf, InFlight(n, k), InFlight(n1, k))
    {
      if k == l {
        forall t
          ensures Copies(idOf, InFlight(n1, l), t) <= Copies(idOf, InFlight(n, l), t)
        {}
      }
    }
    FewerQuiet(idOf, n, n1);
  }

  /** A HaveTx never cuts a tree edge: when a copy arrives at a holder, the sender is not the source
      of the receiver and the receiver not the source of the sender. */
  lemma DuplicateFits(idOf: IdOf, a: Flood, l: Link, m: RpcOut, t: TxId)
    requires FloodInvariant(idOf, a) && l in a.flight && m in a.flight[l] && IsCopy(idOf, m, t) && l.from != l.to
    requires a.Holds(l.to, t)
    ensures HaveTxFits(a, Back(l), t)
  {
    hide Copies, HaveTxsFit, Rooted;
    CopyIsWatched(idOf, m, t);
    assert LinkFits(idOf, a, l, a.flight[l]);
    assert CopyFits(a, l, m, t);
    assert SourceFits(idOf, a, l.to, t);
    NoCopies(idOf, a.flight[l], t);
  }

  /** A message that teaches nothing: a control message, a transaction nobody looks at or that is not
      watched, or a duplicate, which may be answered by a HaveTx. */
  lemma DeliverQuietly(idOf: IdOf, n: Net, l: Link, node': Node, out: map<PeerId, RpcOut>)
    requires NetValid(n) && Between(n, l) && l in n.wire && n.wire[l] != []
    requires FloodInvariant(idOf, Abs(n)) && Spoke(n.nodes[l.to].peers, node'.peers, out)
    requires SameValues(idOf, n.nodes[l.to].cache.values, node'.cache.values) && SaysQuietly(idOf, Abs(n), l.to, out)
    ensures FloodInvariant(idOf, Abs(Act(n.(wire := n.wire[l := n.wire[l][1..]]), l.to, node', out)))
  {
    hide NodeValid, Spoke, FloodInvariant, Act, InFlight, NetValid, SameValues;
    var n1 := n.(wire := n.wire[l := n.wire[l][1..]]);
    PoppedQuiet(idOf, n, l);
    QuietKeeps(idOf, Abs(n), Abs(n1));
    SameNodesValid(n, n1) by { assert n1.wire.Keys == n.wire.Keys; }
    assert Abs(n1).know == Abs(n).know;
    ActQuiet(idOf, n1, l.to, node', out);
    QuietKeeps(idOf, Abs(n1), Abs(Act(n1, l.to, node', out)));
  }

  /** What taking up `t` means for one link. */
  ghost predicate LinkLearns(idOf: IdOf, n: Net, n': Net, u: PeerId, s: PeerId, raw: RawTransaction, t: TxId, k: Link)
    requires k in n.wire && k in n.log && k in n'.log
  {
    && (if k.from == u && k.to != s && k.to != raw.from
        then OneMore(idOf, InFlight(n, k), InFlight(n', k), raw, t) && OneMore(idOf, n.log[k], n'.log[k], raw, t)
        else NoMore(idOf, InFlight(n, k), InFlight(n', k)) && NoMore(idOf, n.log[k], n'.log[k]))
    && Recorded(idOf, InFlight(n, k), InFlight(n', k), n.log[k], n'.log[k])
    && (forall m :: m in InFlight(n', k) && m.HaveTx? ==> m in InFlight(n, k))
  }

  lemma AbsMeans(n: Net)
    ensures var a := Abs(n);
            && a.know.Keys == n.nodes.Keys && (forall v :: v in n.nodes ==> a.know[v] == n.nodes[v].cache.values)
            && a.flight.Keys == n.wire.Keys && (forall l :: l in n.wire ==> a.flight[l] == InFlight(n, l))
            && a.sent == n.log
  {
    hide InFlight;
  }

  lemma LinkLearnsMeans(idOf: IdOf, n: Net, n': Net, u: PeerId, s: PeerId, raw: RawTransaction, t: TxId, k: Link)
    requires k in n.wire && k in n.log && k in n'.log && LinkLearns(idOf, n, n', u, s, raw, t, k)
    ensures if k.from == u && k.to != s && k.to != raw.from
            then OneMore(idOf, InFlight(n, k), InFlight(n', k), raw, t) && OneMore(idOf, n.log[k], n'.log[k], raw, t)
            else NoMore(idOf, InFlight(n, k), InFlight(n', k)) && NoMore(idOf, n.log[k], n'.log[k])
    ensures Recorded(idOf, InFlight(n, k), InFlight(n', k), n.log[k], n'.log[k])
    ensures forall m :: m in InFlight(n', k) && m.HaveTx? ==> m in InFlight(n, k)
  {
    hide InFlight, NoMore, OneMore, Recorded;
  }

  lemma AbsLearns(idOf: IdOf, n: Net, n': Net, u: PeerId, s: PeerId, raw: RawTransaction, t: TxId, head: RpcOut)
    requires n.wire.Keys == n.log.Keys && n'.wire.Keys == n.wire.Keys && n'.log.Keys == n.log.Keys
    requires idOf(raw) == Some(t) && u in n.nodes && t !in n.nodes[u].cache.values && s != u
    requires u in n'.nodes && Abs(n').know == Abs(n).know[u := n'.nodes[u].cache.values]
    requires AddsOne(idOf, n.nodes[u].cache.values, n'.nodes[u].cache.values, t, s)
    requires Link(s, u) in n.wire && head in InFlight(n, Link(s, u)) && !head.IsControl() && head.tx == raw
    requires Copies(idOf, InFlight(n', Link(s, u)), t) + 1 <= Copies(idOf, InFlight(n, Link(s, u)), t)
    requires forall k :: k in n.wire ==> LinkLearns(idOf, n, n', u, s, raw, t, k)
    ensures Learns(idOf, Abs(n), Abs(n'), u, s, raw, t)
  {
    hide InFlight, Copies, NoMore, OneMore, Recorded, AddsOne, LinkLearns, Abs;
    AbsMeans(n);
    AbsMeans(n');
    forall k | k in n.wire
      ensures if k.from == u && k.to != s && k.to != raw.from
              then OneMore(idOf, InFlight(n, k), InFlight(n', k), raw, t) && OneMore(idOf, n.log[k], n'.log[k], raw, t)
              else NoMore(idOf, InFlight(n, k), InFlight(n', k)) && NoMore(idOf, n.log[k], n'.log[k])
      ensures Recorded(idOf, InFlight(n, k), InFlight(n', k), n.log[k], n'.log[k])
      ensures forall m :: m in InFlight(n', k) && m.HaveTx? ==> m in InFlight(n, k)
    {
      LinkLearnsMeans(idOf, n, n', u, s, raw, t, k);
    }
    KnowsOneMore(idOf, Abs(n), Abs(n'), u, n.nodes[u].cache.values, n'.nodes[u].cache.values, t, s);
  }

  lemma DeliverLearns(idOf: IdOf, n: Net, l: Link, node': Node, out: map<PeerId, RpcOut>, raw: RawTransaction, t: TxId)
    requires NetValid(n) && Between(n, l) && l in n.wire && n.wire[l] != []
    requires !n.wire[l][0].IsControl() && n.wire[l][0].tx == raw && idOf(raw) == Some(t)
    requires Spoke(n.nodes[l.to].peers, node'.peers, out) && SaysOnly(out, raw, l.from)
    requires t !in n.nodes[l.to].cache.values
    requires AddsOne(idOf, n.nodes[l.to].cache.values, node'.cache.values, t, l.from)
    ensures Learns(idOf, Abs(n), Abs(Act(n.(wire := n.wire[l := n.wire[l][1..]]), l.to, node', out)), l.to, l.from, raw,
                   t)
  {
    hide InFlight, Act, Spoke, SaysOnly, Copies, NetValid, LinkLearns, Learns, AddsOne;
    var n1 := n.(wire := n.wire[l := n.wire[l][1..]]);
    var n' := Act(n1, l.to, node', out);
    WiresAndLogs(n);
    PoppedFlight(idOf, n, l);
    ActKnow(n1, l.to, node', out);
    ActFrame(n1, l.to, node', out);
    assert Abs(n1).know == Abs(n).know;
    forall k | k in n.wire
      ensures LinkLearns(idOf, n, n', l.to, l.from, raw, t, k)
    {
      DeliverLearnsLink(idOf, n, l, node', out, raw, t, k);
    }
    DeliverLearnsLink(idOf, n, l, node', out, raw, t, l);
    AbsLearns(idOf, n, n', l.to, l.from, raw, t, n.wire[l][0]);
  }

  lemma DeliverLearnsLink(idOf: IdOf, n: Net, l: Link, node': Node, out: map<PeerId, RpcOut>, raw: RawTransaction,
                          t: TxId, k: Link)
    requires l.to in n.nodes && n.wire.Keys == n.log.Keys && l in n.wire && n.wire[l] != [] && k in n.wire
    requires l.from != l.to
    requires IsCopy(idOf, n.wire[l][0], t) && idOf(raw) == Some(t)
    requires Spoke(n.nodes[l.to].peers, node'.peers, out) && SaysOnly(out, raw, l.from)
    ensures var n' := Act(n.(wire := n.wire[l := n.wire[l][1..]]), l.to, node', out);
            && n'.log.Keys == n.log.Keys && LinkLearns(idOf, n, n', l.to, l.from, raw, t, k)
            && (k == l ==> Copies(idOf, InFlight(n', k), t) + 1 <= Copies(idOf, InFlight(n, k), t))
  {
    hide InFlight, Act, Spoke, SaysOnly, Copies, NoMore, OneMore, Recorded, IsCopy;
    var n1 := n.(wire := n.wire[l := n.wire[l][1..]]);
    var n' := Act(n1, l.to, node', out);
    PoppedFlight(idOf, n, l);
    ActFrame(n1, l.to, node', out);
    ActLearnsLink(idOf, n1, l.to, node', out, l.from, raw, t, k);
    if k == l {
      PoppedLink(idOf, n, l, InFlight(n', l), n.log[l], n'.log[l], t);
    }
  }

  lemma WiresAndLogs(n: Net)
    requires NetValid(n)
    ensures n.wire.Keys == n.log.Keys
    ensures forall l: Link :: l.from in n.nodes && l.to in n.nodes ==> l in n.wire
  {}

  lemma PoppedLink(idOf: IdOf, n: Net, l: Link, s: seq<RpcOut>, sent: seq<RpcOut>, sent': seq<RpcOut>, t: TxId)
    requires l in n.wire && n.wire[l] != [] && IsCopy(idOf, n.wire[l][0], t)
    requires NoMore(idOf, InFlight(n.(wire := n.wire[l := n.wire[l][1..]]), l), s)
    requires forall m :: m in s && m.HaveTx? ==> m in InFlight(n.(wire := n.wire[l := n.wire[l][1..]]), l)
    requires Recorded(idOf, InFlight(n.(wire := n.wire[l := n.wire[l][1..]]), l), s, sent, sent')
    ensures Recorded(idOf, InFlight(n, l), s, sent, sent')
    ensures NoMore(idOf, InFlight(n, l), s) && Copies(idOf, s, t) + 1 <= Copies(idOf, InFlight(n, l), t)
    ensures forall m :: m in s && m.HaveTx? ==> m in InFlight(n, l)
  {
    hide Copies, InFlight;
    PoppedFlight(idOf, n, l);
    var s1 := InFlight(n.(wire := n.wire[l := n.wire[l][1..]]), l);
    forall x
      ensures Copies(idOf, s, x) <= Copies(idOf, InFlight(n, l), x)
    {
      assert Copies(idOf, s, x) <= Copies(idOf, s1, x) <= Copies(idOf, InFlight(n, l), x);
    }
    assert Copies(idOf, s, t) <= Copies(idOf, s1, t);
    forall x
      ensures Copies(idOf, sent, x) <= Copies(idOf, sent', x)
      ensures Copies(idOf, s, x) + Copies(idOf, sent, x) <= Copies(idOf, InFlight(n, l), x) + Copies(idOf, sent', x)
    {
      assert Copies(idOf, s1, x) <= Copies(idOf, InFlight(n, l), x);
      assert Copies(idOf, s, x) >= 0;
    }
  }

  /** What a first-time transaction is answered with. */
  lemma ForwardSaysOnly(node: Node, now: nat, m: RpcOut, source: PeerId, order: seq<PeerId>)
    requires Consistent(node.cache) && Calm(node) && source in node.peers && IsOrderOf(order, node.peers.Keys)
    requires FirstTime(node, now, m, source)
    ensures SaysOnly(DeliverOut(node, now, m, source, order), m.tx, source)
    ensures ReasonsHold(node, source, m.tx.from, DeliverOut(node, now, m, source, order))
    ensures DeliverOut(node, now, m, source, order) == ForwardOut(node, now, m.tx, source, order)
  {
    hide Spoke, Consistent, IsOrderOf, ForwardOut, Inserted;
    ForwardFacts(node, now, m.tx, source, order);
  }

  lemma DeliverFlood(idOf: IdOf, n: Net, horizon: nat, l: Link, order: seq<PeerId>, pick: nat)
    requires NetValid(n) && Enabled(n, Deliver(l, order, pick)) && Consistent(n.nodes[l.to].cache)
    requires Assumptions(n, idOf, horizon) && FloodInvariant(idOf, Abs(n))
    ensures FloodInvariant(idOf, Abs(DoDeliver(n, l, order, pick)))
  {
    hide ReceiveRpc, DeliverOut, RoutesAfter, NodeValid, Consistent, IsOrderOf, Withhold, CreditsMove, NetValid, Spoke,
         Inserted, FloodInvariant, Watches, Undoes, Lasting, ReasonsHold, Abs, Learns, SaysOnly, Calm, SameValues,
         AddsOne, SaysQuietly;
    NodeFactsOf(n, l.to);
    AssumedOf(n, idOf, horizon, l.to);
    var node, m := n.nodes[l.to], n.wire[l][0];
    DeliverFacts(n, l, order, pick);
    var node' := ReceiveRpc(node, n.clock, AsRpc(m), l.from, order, pick).node;
    var out := DeliverOut(node, n.clock, m, l.from, order);
    var n1 := n.(wire := n.wire[l := n.wire[l][1..]]);
    if !m.IsControl() {
      WatchesId(node.cfg, idOf, m.tx);
    }
    if TransactionId(node, m).Some? {
      InsertedLasting(node.cache, idOf, n.clock, horizon, TransactionId(node, m).value, l.from);
    }
    if FirstTime(node, n.clock, m, l.from) && idOf(m.tx).Some? {
      ForwardSaysOnly(node, n.clock, m, l.from, order);
      DeliverLearns(idOf, n, l, node', out, m.tx, TransactionId(node, m).value);
      LearnsKeeps(idOf, Abs(n), Abs(Act(n1, l.to, node', out)), l.to, l.from, m.tx, TransactionId(node, m).value);
    } else {
      QuietOut(idOf, n, l, order);
      SameValuesSelf(idOf, node.cache.values);
      DeliverQuietly(idOf, n, l, node', out);
    }
    AbsSame(Act(n1, l.to, node', out), DoDeliver(n, l, order, pick));
  }

  /** What is said in answer to a message that teaches nothing. */
  lemma QuietOut(idOf: IdOf, n: Net, l: Link, order: seq<PeerId>)
    requires Between(n, l) && l in n.wire && n.wire[l] != [] && Consistent(n.nodes[l.to].cache)
    requires FloodInvariant(idOf, Abs(n)) && Watches(n.nodes[l.to].cfg, idOf)
    requires Calm(n.nodes[l.to]) && l.from in n.nodes[l.to].peers && IsOrderOf(order, n.nodes[l.to].peers.Keys)
    requires !n.wire[l][0].IsControl() && idOf(n.wire[l][0].tx).Some? ==>
               !FirstTime(n.nodes[l.to], n.clock, n.wire[l][0], l.from)
    requires TransactionId(n.nodes[l.to], n.wire[l][0]).Some? &&
               Watched(idOf, TransactionId(n.nodes[l.to], n.wire[l][0]).value) &&
               !FirstTime(n.nodes[l.to], n.clock, n.wire[l][0], l.from) ==>
               TransactionId(n.nodes[l.to], n.wire[l][0]).value in n.nodes[l.to].cache.values
    ensures SaysQuietly(idOf, Abs(n), l.to, DeliverOut(n.nodes[l.to], n.clock, n.wire[l][0], l.from, order))
  {
    hide FloodInvariant, Consistent, Inserted, Accepts, HaveTxFits, Watches, Calm, IsOrderOf, InFlight;
    var node, m := n.nodes[l.to], n.wire[l][0];
    if TransactionId(node, m).Some? {
      var t := TransactionId(node, m).value;
      WatchesId(node.cfg, idOf, m.tx);
      if FirstTime(node, n.clock, m, l.from) {
        ForwardSaysOnly(node, n.clock, m, l.from, order);
        CopiesSayQuietly(idOf, Abs(n), l.to, DeliverOut(node, n.clock, m, l.from, order), m.tx, l.from);
      } else if Watched(idOf, t) {
        PoppedFlight(idOf, n, l);
        assert IsCopy(idOf, m, t);
        DuplicateFits(idOf, Abs(n), l, m, t);
      }
    }
  }

  // ---- The other steps ----

  lemma TickFlood(idOf: IdOf, n: Net, v: PeerId, choice: Option<PeerId>)
    requires NetValid(n) && Enabled(n, Tick(v, choice)) && FloodInvariant(idOf, Abs(n))
    ensures FloodInvariant(idOf, Abs(DoTick(n, v, choice)))
  {
    hide AdjustRedundancy, Spoke, Accepts, NetValid, FloodInvariant, Abs, Evaluate, CreditsMove;
    AdjustFacts(n.nodes[v], choice);
    var node', out := AdjustRedundancy(n.nodes[v], choice).node, AdjustOut(n.nodes[v], choice);
    ActQuiet(idOf, n, v, node', out);
    QuietKeeps(idOf, Abs(n), Abs(DoTick(n, v, choice)));
  }

  lemma TransmitSubset(idOf: IdOf, n: Net, l: Link)
    requires NetValid(n) && Enabled(n, Transmit(l))
    ensures Subset(idOf, InFlight(n, l), InFlight(DoTransmit(n, l), l))
  {
    hide NetValid, Copies, InFlight, DoTransmit, Queued;
    var m, rest := TransmitShape(n, l);
    RemovalSubset(idOf, n.wire[l], m, rest);
    SubsetSelf(idOf, InFlight(n, l));
  }

  lemma DropStaleSubset(idOf: IdOf, n: Net, l: Link)
    requires Connected(n, l)
    ensures Subset(idOf, InFlight(n, l), InFlight(DoDropStale(n, l), l))
  {
    hide Copies, CopiesLost, PollStale, SetQueue, InFlight;
    var q := n.nodes[l.from].peers[l.to].queue;
    var w := if l in n.wire then n.wire[l] else [];
    var q' := PollStale(q, n.clock).0;
    QueueInFlight(n, l, q');
    QueueInFlight(n, l, q);
    DroppedInFlight(n, l);
    StaleShape(q, n.clock);
    if q'.priority != q.priority {
      assert w + (q.priority + q.nonPriority) == w + [q.priority[0]] + (q'.priority + q'.nonPriority);
      RemovalSubset(idOf, w, q.priority[0], q'.priority + q'.nonPriority);
    } else if q'.nonPriority != q.nonPriority {
      assert w + (q.priority + q.nonPriority) == (w + q.priority) + [q.nonPriority[0]] + q'.nonPriority;
      assert w + (q'.priority + q'.nonPriority) == (w + q.priority) + q'.nonPriority;
      RemovalSubset(idOf, w + q.priority, q.nonPriority[0], q'.nonPriority);
    }
  }

  lemma LoseSubset(idOf: IdOf, n: Net, l: Link, index: nat)
    requires Enabled(n, Lose(l, index))
    ensures Subset(idOf, InFlight(n, l), InFlight(DoLose(n, l, index), l))
  {
    hide Copies, CopiesLost;
    var w, rest := n.wire[l], Queued(n, l);
    RemovalSubset(idOf, w[..index], w[index], w[index + 1..] + rest);
    assert InFlight(n, l) == w[..index] + [w[index]] + (w[index + 1..] + rest);
    assert InFlight(DoLose(n, l, index), l) == w[..index] + (w[index + 1..] + rest);
  }

  lemma DropPeekedSubset(idOf: IdOf, n: Net, l: Link, priority: bool)
    requires Enabled(n, DropPeeked(l, priority))
    ensures Subset(idOf, InFlight(n, l), InFlight(DoDropPeeked(n, l, priority), l))
  {
    hide Copies, InFlight, DoDropPeeked;
    var a, m, b := DropPeekedShape(n, l, priority);
    RemovalSubset(idOf, a, m, b);
  }

  lemma LinkStepSubset(idOf: IdOf, n: Net, s: Step)
    requires NetValid(n) && Enabled(n, s) && IsLinkStep(s)
    requires forall v :: v in n.nodes ==> Consistent(n.nodes[v].cache)
    ensures Subset(idOf, InFlight(n, s.link), InFlight(Do(n, s), s.link))
  {
    hide NetValid, Copies, PollNext, PollStale, CopiesLost, Consistent, SetQueue, InFlight, DoTransmit, DoDropStale,
         DoLose, DoDropPeeked;
    match s
    case Transmit(l) => TransmitSubset(idOf, n, l);
    case DropStale(l) => DropStaleSubset(idOf, n, l);
    case Peek(l) =>
      QueueInFlight(n, l, PollIsEmpty(n.nodes[l.from].peers[l.to].queue).0);
      QueueInFlight(n, l, n.nodes[l.from].peers[l.to].queue);
    case DropPeeked(l, priority) => DropPeekedSubset(idOf, n, l, priority);
    case Lose(l, index) => LoseSubset(idOf, n, l, index);
  }

  lemma LinkStepFlood(idOf: IdOf, n: Net, s: Step)
    requires NetValid(n) && Enabled(n, s) && IsLinkStep(s)
    requires forall v :: v in n.nodes ==> Consistent(n.nodes[v].cache)
    requires FloodInvariant(idOf, Abs(n))
    ensures FloodInvariant(idOf, Abs(Do(n, s)))
  {
    hide NetValid, FloodInvariant, Copies, Consistent, InFlight, Do, Enabled, Abs, Quiet, Subset;
    LinkStepFrame(n, s);
    forall k | k in n.wire
      ensures Subset(idOf, InFlight(n, k), InFlight(Do(n, s), k))
    {
      if k == s.link {
        LinkStepSubset(idOf, n, s);
      } else {
        SubsetSelf(idOf, InFlight(n, k));
      }
    }
    FewerQuiet(idOf, n, Do(n, s));
    QuietKeeps(idOf, Abs(n), Abs(Do(n, s)));
  }

  ghost predicate SameButQueues(node: Node, node': Node) {
    node'.cache == node.cache && node'.cfg == node.cfg && node'.router == node.router &&
        node'.peers.Keys == node.peers.Keys
  }

  /** Everything stays but what is on link `l`. */
  ghost predicate OnlyOn(n: Net, n': Net, l: Link) {
    && n'.wire.Keys == n.wire.Keys && n'.log == n.log && n'.nodes.Keys == n.nodes.Keys && n'.clock == n.clock
    && n'.withheld == n.withheld
    && (forall v :: v in n.nodes ==> SameButQueues(n.nodes[v], n'.nodes[v]))
    && forall k :: k != l ==> InFlight(n', k) == InFlight(n, k)
  }

  /** A link step leaves everything alone but its link and what is queued on it. */
  lemma LinkStepFrame(n: Net, s: Step)
    requires NetValid(n) && Enabled(n, s) && IsLinkStep(s)
    requires forall v :: v in n.nodes ==> Consistent(n.nodes[v].cache)
    ensures OnlyOn(n, Do(n, s), s.link)
  {
    hide NetValid, PollNext, PollStale, CopiesLost, Consistent, SetQueue, InFlight, SameButQueues, OnlyOn;
    if s.Lose? {
      WireSame(n, Do(n, s), s.link);
      LoseOnlyOn(n, Do(n, s), s.link);
    } else {
      var q := QueueAfter(n, s);
      SetQueueKeepsWire(n, s.link, q);
      assert s.Transmit? ==> s.link in n.wire;
      QueueOnlyOn(n, Do(n, s), s.link, q);
    }
  }

  lemma LoseOnlyOn(n: Net, n': Net, l: Link)
    requires n' == n.(wire := n'.wire, lost := n'.lost) && n'.wire.Keys == n.wire.Keys
    requires forall k :: k != l ==> InFlight(n', k) == InFlight(n, k)
    ensures OnlyOn(n, n', l)
  {
    hide InFlight;
  }

  lemma QueueOnlyOn(n: Net, n': Net, l: Link, q: SendQueue)
    requires Connected(n, l) && n' == n.(nodes := SetQueue(n, l, q).nodes, wire := n'.wire, lost := n'.lost)
    requires n'.wire.Keys == n.wire.Keys && forall k :: k != l && k in n.wire ==> n'.wire[k] == n.wire[k]
    ensures OnlyOn(n, n', l)
  {
    hide InFlight, SameButQueues, SetQueue;
    SetQueueFrame(n, l, q);
    QueueElsewhere(n, n', l, q);
  }

  lemma SetQueueFrame(n: Net, l: Link, q: SendQueue)
    requires Connected(n, l)
    ensures var n' := SetQueue(n, l, q);
            && n'.nodes.Keys == n.nodes.Keys
            && forall v :: v in n.nodes ==> SameButQueues(n.nodes[v], n'.nodes[v])
  {}

  lemma QueueElsewhere(n: Net, n': Net, l: Link, q: SendQueue)
    requires Connected(n, l) && n'.nodes == SetQueue(n, l, q).nodes
    requires forall k :: k != l ==> (k in n'.wire <==> k in n.wire) && (k in n.wire ==> n'.wire[k] == n.wire[k])
    ensures forall k :: k != l ==> InFlight(n', k) == InFlight(n, k)
  {}

  // ---- Connections ----

  lemma SubsetSelf(idOf: IdOf, s: seq<RpcOut>)
    ensures Subset(idOf, s, s) && Subset(idOf, s, [])
  {
    hide Copies;
    forall t
      ensures Copies(idOf, [], t) <= Copies(idOf, s, t)
    {
      NoCopies(idOf, [], t);
    }
  }

  lemma ConnectFlood(idOf: IdOf, n: Net, l: Link, c1: ConnectionId, c2: ConnectionId, n': Net)
    requires Enabled(n, Connect(l, c1, c2)) && !Connected(n, Back(l)) && n' == DoConnect(n, l, c1, c2)
    requires NetValid(n) && FloodInvariant(idOf, Abs(n))
    ensures FloodInvariant(idOf, Abs(n'))
  {
    hide NetValid, NodeValid, FloodInvariant, Copies, Subset, InFlight, DoConnect, Quiet, Abs;
    ConnectFrame(n, l, c1, c2);
    forall k | k in n.wire
      ensures Subset(idOf, InFlight(n, k), InFlight(n', k))
    {
      SubsetSelf(idOf, InFlight(n, k));
      ConnectInFlight(n, l, c1, c2, k);
    }
    FewerQuiet(idOf, n, n');
    QuietKeeps(idOf, Abs(n), Abs(n'));
  }

  lemma ConnectFrame(n: Net, l: Link, c1: ConnectionId, c2: ConnectionId)
    requires Enabled(n, Connect(l, c1, c2)) && NetValid(n)
    ensures var n' := DoConnect(n, l, c1, c2);
            && n'.wire.Keys == n.wire.Keys && n'.log == n.log && n'.nodes.Keys == n.nodes.Keys
            && forall v :: v in n.nodes ==> n'.nodes[v].cache == n.nodes[v].cache
  {
    hide NetValid;
    LinkHasWire(n, l);
  }

  lemma ConnectInFlight(n: Net, l: Link, c1: ConnectionId, c2: ConnectionId, k: Link)
    requires Enabled(n, Connect(l, c1, c2)) && !Connected(n, Back(l))
    ensures InFlight(DoConnect(n, l, c1, c2), k) == if k == l || k == Back(l) then [] else InFlight(n, k)
  {}

  lemma RemoveTailSubset(idOf: IdOf, a: seq<RpcOut>, b: seq<RpcOut>)
    ensures Subset(idOf, a + b, a)
  {
    hide Copies;
    forall t
      ensures Copies(idOf, a, t) <= Copies(idOf, a + b, t)
    {
      CopiesConcat(idOf, a, b, t);
    }
  }

  /** Dropping the queue for one peer. */
  ghost function DropQueue(n: Net, l: Link): Net
    requires l.from in n.nodes
  {
    var node := n.nodes[l.from];
    n.(nodes := n.nodes[l.from := node.(peers := node.peers - {l.to})])
  }

  lemma DropQueueQuiet(idOf: IdOf, n: Net, l: Link)
    requires l.from in n.nodes
    ensures Quiet(idOf, Abs(n), Abs(DropQueue(n, l)))
  {
    hide Copies, Subset;
    var n' := DropQueue(n, l);
    forall k | k in n.wire
      ensures Subset(idOf, InFlight(n, k), InFlight(n', k))
    {
      SubsetSelf(idOf, InFlight(n, k));
      RemoveTailSubset(idOf, n.wire[k], Queued(n, k));
      if k == l {
        assert InFlight(n', k) == n.wire[k];
      } else {
        assert InFlight(n', k) == InFlight(n, k);
      }
    }
    FewerQuiet(idOf, n, n');
  }

  lemma ActFrame(n: Net, v: PeerId, node': Node, out: map<PeerId, RpcOut>)
    requires v in n.nodes
    ensures Act(n, v, node', out) == n.(nodes := n.nodes[v := node'], log := Act(n, v, node', out).log)
    ensures Act(n, v, node', out).log.Keys == n.log.Keys
  {}

  lemma ActOverrides(n: Net, n1: Net, v: PeerId, node': Node, out: map<PeerId, RpcOut>)
    requires v in n.nodes && v in n1.nodes && n1 == n.(nodes := n.nodes[v := n1.nodes[v]])
    ensures Act(n1, v, node', out) == Act(n, v, node', out)
  {
    assert n1.nodes[v := node'] == n.nodes[v := node'];
  }

  lemma CloseSideFlood(idOf: IdOf, n: Net, l: Link, choice: Option<PeerId>)
    requires n.wire.Keys == n.log.Keys && l.from in n.nodes && IsCreditorChoice(n.nodes[l.from].router, choice)
    requires FloodInvariant(idOf, Abs(n))
    ensures var n' := CloseSide(n, l, choice);
            && FloodInvariant(idOf, Abs(n')) && n'.wire == n.wire && n'.log.Keys == n.log.Keys && n'.clock == n.clock
            && n'.nodes.Keys == n.nodes.Keys
            && (forall v :: v in n.nodes ==> n'.nodes[v].cache == n.nodes[v].cache && n'.nodes[v].cfg == n.nodes[v].cfg)
            && (forall v :: v in n.nodes && v != l.from ==> n'.nodes[v] == n.nodes[v])
  {
    hide Closed, AdjustRedundancy, Mentioning, Spoke, CreditsMove, FloodInvariant, Abs, Quiet, IsCreditorChoice,
         Evaluate, Accepts, Act;
    var node := n.nodes[l.from];
    CloseFacts(node, l.to, choice);
    var rest := node.(router := ResetRoutesWith(node.router, l.to).0, peers := node.peers - {l.to});
    var n1, n' := DropQueue(n, l), CloseSide(n, l, choice);
    DropQueueQuiet(idOf, n, l);
    QuietKeeps(idOf, Abs(n), Abs(n1));
    var node', out := Closed(node, l.to, ConnectionId(0), 0, choice).node, AdjustOut(rest, choice);
    ActOverrides(n, n1, l.from, node', out);
    ActFrame(n, l.from, node', out);
    ActQuietOpen(idOf, n1, l.from, node', out);
    QuietKeeps(idOf, Abs(n1), Abs(n'));
  }

  /** ActQuiet for a node that says no HaveTx, without assuming the network symmetric. */
  lemma ActQuietOpen(idOf: IdOf, n: Net, v: PeerId, node': Node, out: map<PeerId, RpcOut>)
    requires n.wire.Keys == n.log.Keys && v in n.nodes && Spoke(n.nodes[v].peers, node'.peers, out)
    requires node'.cache.values == n.nodes[v].cache.values
    requires forall p :: p in out ==> out[p] == ResetRoute
    ensures Quiet(idOf, Abs(n), Abs(Act(n, v, node', out)))
  {
    hide NoMore, HaveTxFits, InFlight, Act, Spoke, Recorded;
    var n' := Act(n, v, node', out);
    ActKnow(n, v, node', out);
    ActSameKnow(idOf, n, v, node', out);
    assert SaysQuietly(idOf, Abs(n), v, out);
    forall l | l in n.wire && l in n.log
      ensures NoMore(idOf, InFlight(n, l), InFlight(n', l)) && NoMore(idOf, n.log[l], n'.log[l])
      ensures Recorded(idOf, InFlight(n, l), InFlight(n', l), n.log[l], n'.log[l])
      ensures forall m :: m in InFlight(n', l) && m.HaveTx? && Watched(idOf, m.id) ==>
                m in InFlight(n, l) || HaveTxFits(Abs(n), l, m.id)
    {
      ActQuietLink(idOf, n, v, node', out, l);
    }
  }

  lemma ClearWires(idOf: IdOf, n: Net, l: Link)
    requires l in n.wire && Back(l) in n.wire && FloodInvariant(idOf, Abs(n))
    ensures FloodInvariant(idOf, Abs(n.(wire := n.wire[l := []][Back(l) := []])))
  {
    hide Copies, Subset, FloodInvariant;
    var n' := n.(wire := n.wire[l := []][Back(l) := []]);
    assert n'.wire.Keys == n.wire.Keys;
    forall k | k in n.wire
      ensures Subset(idOf, InFlight(n, k), InFlight(n', k))
    {
      SubsetSelf(idOf, InFlight(n, k));
      RemoveHeadSubset(idOf, n.wire[k], Queued(n, k));
      assert InFlight(n', k) == (if k == l || k == Back(l) then [] else n.wire[k]) + Queued(n, k);
      assert [] + Queued(n, k) == Queued(n, k);
    }
    FewerQuiet(idOf, n, n');
    QuietKeeps(idOf, Abs(n), Abs(n'));
  }

  lemma RemoveHeadSubset(idOf: IdOf, a: seq<RpcOut>, b: seq<RpcOut>)
    ensures Subset(idOf, a + b, b)
  {
    hide Copies;
    forall t
      ensures Copies(idOf, b, t) <= Copies(idOf, a + b, t)
    {
      CopiesConcat(idOf, a, b, t);
    }
  }

  lemma DisconnectFlood(idOf: IdOf, n: Net, l: Link, choiceFrom: Option<PeerId>, choiceTo: Option<PeerId>, n': Net)
    requires Enabled(n, Disconnect(l, choiceFrom, choiceTo)) && n' == DoDisconnect(n, l, choiceFrom, choiceTo)
    requires NetValid(n) && FloodInvariant(idOf, Abs(n))
    ensures FloodInvariant(idOf, Abs(n'))
  {
    hide CloseSide, IsCreditorChoice, NetValid, FloodInvariant, Abs;
    WiresAndLogs(n);
    LinkHasWire(n, l);
    CloseSideFlood(idOf, n, l, choiceFrom);
    var n1 := CloseSide(n, l, choiceFrom);
    CloseSideFlood(idOf, n1, Back(l), choiceTo);
    ClearWires(idOf, CloseSide(n1, Back(l), choiceTo), l);
  }

  // ---- Whole runs ----

  lemma StepFlood(idOf: IdOf, n: Net, horizon: nat, s: Step)
    requires NetValid(n) && forall v :: v in n.nodes ==> Consistent(n.nodes[v].cache)
    requires Assumptions(n, idOf, horizon) && FloodInvariant(idOf, Abs(n))
    ensures FloodInvariant(idOf, Abs(Do(n, s)))
  {
    hide DoPublish, DoDeliver, DoTick, DoConnect, DoDisconnect, SetQueue, CopiesLost, NodeValid, Consistent, NetValid,
         PollNext, PollStale, FloodInvariant, Assumptions, Abs;
    if Enabled(n, s) {
      match s
      case PublishAt(v, data, order) => PublishFlood(idOf, n, horizon, v, data, order);
      case Deliver(l, order, pick) => DeliverFlood(idOf, n, horizon, l, order, pick);
      case Tick(v, choice) => TickFlood(idOf, n, v, choice);
      case Transmit(_) => LinkStepFlood(idOf, n, s);
      case DropStale(_) => LinkStepFlood(idOf, n, s);
      case Peek(_) => LinkStepFlood(idOf, n, s);
      case DropPeeked(_, _) => LinkStepFlood(idOf, n, s);
      case Lose(_, _) => LinkStepFlood(idOf, n, s);
      case Advance(d) => AdvanceFlood(idOf, n, d);
      case Connect(l, c1, c2) => NotListedBack(n, l); ConnectFlood(idOf, n, l, c1, c2, Do(n, s));
      case Disconnect(l, choiceFrom, choiceTo) => DisconnectFlood(idOf, n, l, choiceFrom, choiceTo, Do(n, s));
    }
  }

  lemma AdvanceFlood(idOf: IdOf, n: Net, d: nat)
    ensures Abs(n.(clock := n.clock + d)) == Abs(n)
  {}

  /** The clock of a run never turns back. */
  lemma ClockMonotone(n: Net, s: Step)
    requires forall v :: v in n.nodes ==> Consistent(n.nodes[v].cache)
    ensures Do(n, s).clock >= n.clock
  {
    hide PublishData, ReceiveRpc, AdjustRedundancy, Closed, PollNext, PollStale, CopiesLost, Consistent, Withhold,
         DeliverOut, FirstTime, PublishOut, PublishesNew, AdjustOut, Established;
  }

  lemma {:induction false} ClockUntil(n: Net, steps: seq<Step>, k: nat)
    requires NetValid(n) && k <= |steps|
    ensures Run(n, steps[..k]).clock <= Run(n, steps).clock && n.clock <= Run(n, steps[..k]).clock
    decreases |steps|
  {
    hide NetValid, Do;
    if steps != [] {
      var j := |steps| - 1;
      DoValid(Run(n, steps[..j]), steps[j]);
      ClockMonotone(Run(n, steps[..j]), steps[j]);
      if k == |steps| {
        assert steps[..k] == steps;
        ClockUntil(n, steps[..j], j);
        assert steps[..j][..j] == steps[..j];
      } else {
        assert steps[..j][..k] == steps[..k];
        ClockUntil(n, steps[..j], k);
      }
    }
  }

  lemma InitialFlood(idOf: IdOf, n: Net)
    requires Initial(n)
    ensures FloodInvariant(idOf, Abs(n))
  {
    hide NodeValid, Rooted, NetValid, Copies, SourceFits, IsRooted;
    WiresAndLogs(n) by { InitialIsValid(n); }
    var a := Abs(n);
    forall l | l in a.flight
      ensures LinkFits(idOf, a, l, a.flight[l]) && LinkFits(idOf, a, l, a.sent[l])
      ensures HaveTxsFit(idOf, a, l, a.flight[l])
      ensures SentFirst(idOf, a.flight[l], a.sent[l])
    {
      InitialInFlight(n, l);
      EmptyFits(idOf, a, l);
    }
    assert forall v, t :: !a.Holds(v, t);
  }

  lemma EmptyFits(idOf: IdOf, a: Flood, l: Link)
    ensures LinkFits(idOf, a, l, []) && HaveTxsFit(idOf, a, l, []) && SentFirst(idOf, [], [])
  {
    forall t
      ensures Copies(idOf, [], t) <= 1
    {}
  }

  /** A run from a fresh network of nodes that are honest about the watched transactions, in which no
      watched entry expires by the horizon at which the run has ended. */
  ghost predicate HonestRun(idOf: IdOf, n: Net, steps: seq<Step>, horizon: nat) {
    && Initial(n)
    && forall k: nat {:trigger Run(n, steps[..k])} :: k <= |steps| ==> Assumptions(Run(n, steps[..k]), idOf, horizon)
  }

  lemma HonestPrefix(idOf: IdOf, n: Net, steps: seq<Step>, horizon: nat, j: nat)
    requires HonestRun(idOf, n, steps, horizon) && j <= |steps|
    ensures HonestRun(idOf, n, steps[..j], horizon) && NetValid(n)
    ensures Assumptions(Run(n, steps[..j]), idOf, horizon)
  {
    hide Initial, Assumptions, Run, NetValid;
    InitialIsValid(n);
    forall k: nat {:trigger Run(n, steps[..j][..k])} | k <= j
      ensures Assumptions(Run(n, steps[..j][..k]), idOf, horizon)
    {
      assert steps[..j][..k] == steps[..k];
      assert Assumptions(Run(n, steps[..k]), idOf, horizon);
    }
    assert Assumptions(Run(n, steps[..j]), idOf, horizon);
  }

  lemma {:induction false} RunFlood(idOf: IdOf, n: Net, steps: seq<Step>, horizon: nat)
    requires HonestRun(idOf, n, steps, horizon)
    ensures Assumptions(Run(n, steps), idOf, horizon) && FloodInvariant(idOf, Abs(Run(n, steps)))
  {
    hide HonestRun, NetValid, Do, Assumptions, FloodInvariant, Abs;
    HonestPrefix(idOf, n, steps, horizon, |steps|);
    assert steps[..|steps|] == steps;
    if steps == [] {
      InitialFlood(idOf, n) by { HonestInitial(idOf, n, steps, horizon); }
    } else {
      var k := |steps| - 1;
      HonestPrefix(idOf, n, steps, horizon, k);
      DoValid(Run(n, steps[..k]), steps[k]);
      RunFlood(idOf, n, steps[..k], horizon);
      StepFlood(idOf, Run(n, steps[..k]), horizon, steps[k]);
    }
  }

  lemma HonestClock(idOf: IdOf, n: Net, steps: seq<Step>, horizon: nat)
    requires HonestRun(idOf, n, steps, horizon)
    ensures NetValid(n) && Run(n, steps).clock <= horizon
  {
    hide Initial, Run, NetValid, Watches, Lasting;
    HonestPrefix(idOf, n, steps, horizon, |steps|);
    assert steps[..|steps|] == steps;
  }

  lemma HonestInitial(idOf: IdOf, n: Net, steps: seq<Step>, horizon: nat)
    requires HonestRun(idOf, n, steps, horizon)
    ensures Initial(n) && NetValid(n)
  {
    hide Assumptions, Run, Initial, NetValid;
    InitialIsValid(n);
  }
}

/** Networks that run for longer than their caches remember: what the theorems on floods say about one
    transaction, from its first filing until that may be forgotten. */
module Lifetimes {
  import opened Types
  import opened TimeCache
  import opened Routing
  import opened SendQueues
  import opened Nodes
  import opened NodeFacts
  import opened Networks
  import opened NetworkRuns
  import opened FloodSpec
  import opened FloodRefinement
  import opened FloodTheorems
  import opened FixedTopology
  import opened FloodDelivery
  import opened FloodEnd
  import opened Withholding
  import opened Delivery
  import opened OwnPublishes

  // ---- Watching one transaction ----

  /** Of all transactions only `t` is watched. */
  function Focus(idOf: IdOf, t: TxId): IdOf {
    (raw: RawTransaction) => if idOf(raw) == Some(t) then Some(t) else None
  }

  lemma FocusWatched(idOf: IdOf, t: TxId, x: TxId)
    ensures Watched(Focus(idOf, t), x) <==> x == t && Watched(idOf, t)
  {
    if x == t && Watched(idOf, t) {
      var raw: RawTransaction :| idOf(raw) == Some(t);
      assert Focus(idOf, t)(raw) == Some(t);
    }
  }

  lemma FocusWatches(cfg: Config, idOf: IdOf, t: TxId)
    requires Honest(cfg, idOf)
    ensures Watches(cfg, Focus(idOf, t))
  {
    hide Undoes, Watched;
    forall raw: RawTransaction
      ensures Focus(idOf, t)(raw).Some? ==> cfg.RawId(raw) == Focus(idOf, t)(raw)
      ensures cfg.RawId(raw).Some? && Watched(Focus(idOf, t), cfg.RawId(raw).value) ==>
                Focus(idOf, t)(raw) == cfg.RawId(raw)
    {
      HonestMeans(cfg, idOf, raw);
      if cfg.RawId(raw).Some? {
        FocusWatched(idOf, t, cfg.RawId(raw).value);
      }
    }
  }

  lemma {:induction false} FocusCopies(idOf: IdOf, s: seq<RpcOut>, t: TxId)
    ensures Copies(Focus(idOf, t), s, t) == Copies(idOf, s, t)
  {
    if s != [] {
      FocusCopies(idOf, s[..|s| - 1], t);
    }
  }

  lemma FocusAuthor(idOf: IdOf, t: TxId, known: set<PeerId>)
    ensures forall u :: AuthorOf(Focus(idOf, t), t, u) <==> AuthorOf(idOf, t, u)
    ensures NamesAuthor(idOf, known) ==> NamesAuthor(Focus(idOf, t), known)
  {
    forall u
      ensures AuthorOf(Focus(idOf, t), t, u) <==> AuthorOf(idOf, t, u)
    {
      if AuthorOf(idOf, t, u) {
        var raw: RawTransaction :| idOf(raw) == Some(t) && raw.from == u;
        assert Focus(idOf, t)(raw) == Some(t);
      }
      if AuthorOf(Focus(idOf, t), t, u) {
        var raw: RawTransaction :| Focus(idOf, t)(raw) == Some(t) && raw.from == u;
        assert idOf(raw) == Some(t);
      }
    }
  }

  // ---- How long entries last ----

  /** In no state of the run before `since` does anybody hold `t`. */
  ghost predicate FiledSince(n: Net, steps: seq<Step>, t: TxId, since: nat)
    requires NetValid(n)
  {
    forall k: nat, v {:trigger HeldBy(Run(n, steps[..k]), v, t)} ::
      k <= |steps| && HeldBy(Run(n, steps[..k]), v, t) ==> since <= Run(n, steps[..k]).clock
  }

  ghost predicate CachesOutlive(n: Net, since: nat, horizon: nat) {
    forall v :: v in n.nodes ==> since + n.nodes[v].cfg.cacheTime > horizon
  }

  /** The settings stay, and what is new in a cache has its full time to live. */
  ghost predicate Renewed(node: Node, node': Node, now: nat) {
    && node'.cfg == node.cfg && node'.cache.ttl == node.cache.ttl
    && forall e :: e in node'.cache.list ==> e in node.cache.list || e.expiration == now + node.cache.ttl
  }

  lemma {:induction false} PurgedEntries(c: Cache<TxId, PeerId>, now: nat)
    requires Consistent(c)
    ensures forall e :: e in Purged(c, now).list ==> e in c.list
    decreases |c.list|
  {
    if c.list != [] && c.list[0].expiration <= now {
      PopConsistent(c);
      PurgedEntries(Popped(c), now);
    }
  }

  lemma InsertedRenews(c: Cache<TxId, PeerId>, now: nat, t: TxId, s: PeerId)
    requires Consistent(c)
    ensures var c' := Inserted(c, now, t, s).0;
            c'.ttl == c.ttl && forall e :: e in c'.list ==> e in c.list || e.expiration == now + c.ttl
  {
    hide Purged, Consistent;
    PurgedEntries(c, now);
  }

  lemma StepRenews(n: Net, s: Step, v: PeerId)
    requires NetValid(n) && (forall u :: u in n.nodes ==> Consistent(n.nodes[u].cache)) && v in n.nodes
    ensures var n' := Do(n, s);
            v in n'.nodes && Renewed(n.nodes[v], n'.nodes[v], n.clock) &&
            (n'.nodes[v].cache != n.nodes[v].cache ==> n'.clock == n.clock)
  {
    hide PublishData, ReceiveRpc, Inserted, Spoke, Built, NodeValid, Consistent, Calm, IsOrderOf, Withhold, PublishOut,
         NetValid, ReasonsHold, DeliverOut, RoutesAfter, CreditsMove, FirstTime, DoTick, DoConnect, DoDisconnect,
         SetQueue, DoTransmit, DoDropStale, DoDropPeeked, DoLose;
    if Enabled(n, s) {
      if s.PublishAt? {
        NodeFactsOf(n, s.v);
        var node := n.nodes[s.v];
        PublishFacts(node, n.clock, s.data, s.order);
        if PublishesNew(node, s.data) {
          var raw := Built(node, s.data).value;
          InsertedRenews(node.cache, n.clock, node.cfg.transactionId(Transaction(raw.from, raw.seqno, s.data)),
                         node.Own());
        }
      } else if s.Deliver? {
        NodeFactsOf(n, s.link.to);
        var node, m := n.nodes[s.link.to], n.wire[s.link][0];
        DeliverFacts(n, s.link, s.order, s.pick);
        if TransactionId(node, m).Some? {
          InsertedRenews(node.cache, n.clock, TransactionId(node, m).value, s.link.from);
        }
      } else {
        OtherStepShrinks(n, s);
        ShrinksRenews(n, Do(n, s), v);
      }
    }
  }

  lemma ShrinksRenews(n: Net, n': Net, v: PeerId)
    requires Shrinks(n, n') && v in n.nodes
    ensures v in n'.nodes && Renewed(n.nodes[v], n'.nodes[v], n.clock) && n'.nodes[v].cache == n.nodes[v].cache
  {
    hide InFlight;
  }

  /** Every entry for a transaction that was not filed before `since` lasts from then on for its time to
      live. */
  ghost predicate Lasts(n0: Net, n: Net, v: PeerId, t: TxId, since: nat) {
    && v in n0.nodes && v in n.nodes && n.nodes[v].cfg == n0.nodes[v].cfg
    && n.nodes[v].cache.ttl == n0.nodes[v].cfg.cacheTime
    && forall e :: e in n.nodes[v].cache.list && e.key == t ==> e.expiration >= since + n0.nodes[v].cfg.cacheTime
  }

  lemma {:induction false} RunLasts(n: Net, steps: seq<Step>, v: PeerId, t: TxId, since: nat)
    requires Initial(n) && v in n.nodes && FiledSince(n, steps, t, since)
    ensures Lasts(n, Run(n, steps), v, t, since)
  {
    hide Initial, NetValid, Do, HeldBy, Consistent;
    InitialIsValid(n);
    if steps == [] {
      InitialLasts(n, v, t, since);
    } else {
      var k := |steps| - 1;
      var before := Run(n, steps[..k]);
      FiledSincePrefix(n, steps, k, t, since);
      RunLasts(n, steps[..k], v, t, since);
      DoValid(before, steps[k]);
      StepRenews(before, steps[k], v);
      var node' := Do(before, steps[k]).nodes[v];
      forall e | e in node'.cache.list && e.key == t
        ensures e.expiration >= since + n.nodes[v].cfg.cacheTime
      {
        if e !in before.nodes[v].cache.list {
          ListedIsHeld(Run(n, steps), v, e);
          assert steps[..|steps|] == steps;
          assert HeldBy(Run(n, steps[..|steps|]), v, t);
        }
      }
    }
  }

  lemma InitialLasts(n: Net, v: PeerId, t: TxId, since: nat)
    requires Initial(n) && v in n.nodes
    ensures Lasts(n, n, v, t, since)
  {
    hide NetValid;
  }

  lemma ListedIsHeld(n: Net, v: PeerId, e: Entry<TxId>)
    requires NetValid(n) && v in n.nodes && e in n.nodes[v].cache.list
    ensures HeldBy(n, v, e.key)
  {
    hide SendQueue.Valid;
    assert NodeValid(n.nodes[v], v, n.nodes.Keys);
  }

  lemma FiledSincePrefix(n: Net, steps: seq<Step>, j: nat, t: TxId, since: nat)
    requires NetValid(n) && j <= |steps| && FiledSince(n, steps, t, since)
    ensures FiledSince(n, steps[..j], t, since)
  {
    hide Run, HeldBy, NetValid;
    forall k: nat, v {:trigger HeldBy(Run(n, steps[..j][..k]), v, t)} |
      k <= j && HeldBy(Run(n, steps[..j][..k]), v, t)
      ensures since <= Run(n, steps[..j][..k]).clock
    {
      assert steps[..j][..k] == steps[..k];
      assert HeldBy(Run(n, steps[..k]), v, t);
    }
  }

  /** A run that ends while everything watched, if filed since `since`, is still remembered, is honest. */
  lemma LastingRun(watch: IdOf, n: Net, steps: seq<Step>, since: nat, horizon: nat)
    requires Initial(n) && (forall v :: v in n.nodes ==> Watches(n.nodes[v].cfg, watch))
    requires forall t :: Watched(watch, t) ==> FiledSince(n, steps, t, since)
    requires CachesOutlive(n, since, horizon) && Run(n, steps).clock <= horizon
    ensures HonestRun(watch, n, steps, horizon)
  {
    hide Initial, Run, FiledSince, Watches, Lasting, NetValid;
    InitialIsValid(n);
    forall k: nat {:trigger Run(n, steps[..k])} | k <= |steps|
      ensures Assumptions(Run(n, steps[..k]), watch, horizon)
    {
      ClockUntil(n, steps, k);
      RunNodes(n, steps[..k]);
      forall v | v in n.nodes
        ensures Watches(Run(n, steps[..k]).nodes[v].cfg, watch)
        ensures Lasting(Run(n, steps[..k]).nodes[v].cache, watch, horizon)
      {
        NodeLasts(watch, n, steps, k, v, since, horizon);
      }
    }
  }

  lemma NodeLasts(watch: IdOf, n: Net, steps: seq<Step>, k: nat, v: PeerId, since: nat, horizon: nat)
    requires Initial(n) && v in n.nodes && k <= |steps| && since + n.nodes[v].cfg.cacheTime > horizon
    requires forall t :: Watched(watch, t) ==> FiledSince(n, steps, t, since)
    ensures NetValid(n) && v in Run(n, steps[..k]).nodes && Run(n, steps[..k]).nodes[v].cfg == n.nodes[v].cfg
    ensures Lasting(Run(n, steps[..k]).nodes[v].cache, watch, horizon)
  {
    hide Initial, Run, NetValid, FiledSince, HeldBy;
    InitialIsValid(n);
    ConfigStays(n, steps[..k], v);
    forall e | e in Run(n, steps[..k]).nodes[v].cache.list && Watched(watch, e.key)
      ensures e.expiration > horizon
    {
      FiledSincePrefix(n, steps, k, e.key, since);
      RunLasts(n, steps[..k], v, e.key, since);
    }
  }

  lemma {:induction false} ConfigStays(n: Net, steps: seq<Step>, v: PeerId)
    requires NetValid(n) && v in n.nodes
    ensures v in Run(n, steps).nodes && Run(n, steps).nodes[v].cfg == n.nodes[v].cfg
  {
    hide NetValid, Do, Consistent;
    if steps != [] {
      var k := |steps| - 1;
      ConfigStays(n, steps[..k], v);
      DoValid(Run(n, steps[..k]), steps[k]);
      StepRenews(Run(n, steps[..k]), steps[k], v);
    }
  }

  /** A run that ends before any cache forgets anything is honest, whatever is watched. */
  lemma ShortRunIsHonest(idOf: IdOf, n: Net, steps: seq<Step>, horizon: nat)
    requires Initial(n) && EverybodyHonest(n, idOf) && CachesOutlive(n, n.clock, horizon)
    requires Run(n, steps).clock <= horizon
    ensures HonestRun(idOf, n, steps, horizon)
  {
    hide Initial, Run, HeldBy, Watches, Honest, NetValid;
    InitialIsValid(n);
    forall v | v in n.nodes
      ensures Watches(n.nodes[v].cfg, idOf)
    {
      HonestWatches(n.nodes[v].cfg, idOf);
    }
    forall t
      ensures FiledSince(n, steps, t, n.clock)
    {
      forall k: nat | k <= |steps|
        ensures n.clock <= Run(n, steps[..k]).clock
      {
        ClockUntil(n, steps, k);
      }
    }
    LastingRun(idOf, n, steps, n.clock, horizon);
  }

  lemma HonestWatches(cfg: Config, idOf: IdOf)
    requires Honest(cfg, idOf)
    ensures Watches(cfg, idOf)
  {
    hide Undoes;
  }

  // ---- Theorems on one transaction ----

  /** A run of honest nodes, of any length, that ends while `t`, not filed before `since`, is still
      remembered by everybody who has taken it up. */
  ghost predicate WithinLifetime(idOf: IdOf, n: Net, steps: seq<Step>, t: TxId, since: nat) {
    && Initial(n) && EverybodyHonest(n, idOf)
    && FiledSince(n, steps, t, since) && CachesOutlive(n, since, Run(n, steps).clock)
  }

  lemma LifetimeIsHonest(idOf: IdOf, n: Net, steps: seq<Step>, t: TxId, since: nat)
    requires WithinLifetime(idOf, n, steps, t, since)
    ensures NetValid(n) && HonestRun(Focus(idOf, t), n, steps, Run(n, steps).clock)
  {
    hide Initial, Run, FiledSince, Watches, Honest, NetValid, Focus, HonestRun;
    InitialIsValid(n);
    forall v | v in n.nodes
      ensures Watches(n.nodes[v].cfg, Focus(idOf, t))
    {
      FocusWatches(n.nodes[v].cfg, idOf, t);
    }
    forall x | Watched(Focus(idOf, t), x)
      ensures FiledSince(n, steps, x, since)
    {
      FocusWatched(idOf, t, x);
    }
    LastingRun(Focus(idOf, t), n, steps, since, Run(n, steps).clock);
  }

  /** Whatever honest nodes hold is the id of some transaction. */
  lemma HeldIsWatched(idOf: IdOf, n: Net, steps: seq<Step>, v: PeerId, t: TxId)
    requires Initial(n) && EverybodyHonest(n, idOf) && HeldBy(Run(n, steps), v, t)
    ensures Watched(idOf, t) && Watched(Focus(idOf, t), t)
  {
    hide Initial, Run, EverybodyHonest, NetValid, Used, InFlight;
    InitialIsValid(n);
    RunUsed(idOf, n, steps);
    assert Abs(Run(n, steps)).Holds(v, t);
    assert Filed(idOf, LastNumbers(Run(n, steps)), t);
    FocusWatched(idOf, t, t);
  }

  /** However long the network has run: within the lifetime of a transaction its sources form a tree rooted
      at its author, as in FirstDeliveryTree. */
  lemma TreeWithinLifetime(idOf: IdOf, n: Net, steps: seq<Step>, since: nat, v: PeerId, t: TxId) returns (k: nat)
    requires WithinLifetime(idOf, n, steps, t, since) && NamesAuthor(idOf, n.nodes.Keys) && HeldBy(Run(n, steps), v, t)
    ensures var a := Abs(Run(n, steps));
            && Rooted(a, v, t, k)
            && AuthorOf(idOf, t, Ancestor(a, v, t, k, k))
            && (forall u :: AuthorOf(idOf, t, u) && u in n.nodes ==> Ancestor(a, v, t, k, k) == u)
            && (forall i, j :: 0 <= i < j <= k ==> Ancestor(a, v, t, k, i) != Ancestor(a, v, t, k, j))
            && (forall i :: 0 <= i <= k ==> a.Holds(Ancestor(a, v, t, k, i), t))
            && (forall i :: 0 <= i < k ==>
                  var l := Link(Ancestor(a, v, t, k, i + 1), Ancestor(a, v, t, k, i));
                  l in a.sent && Copies(idOf, a.sent[l], t) == 1)
  {
    hide Initial, Run, FiledSince, NetValid, HonestRun, Focus, NamesAuthor, AuthorOf, EverybodyHonest, CachesOutlive,
         FloodInvariant, Rooted, Watched;
    InitialIsValid(n);
    var clock := Run(n, steps).clock;
    LifetimeIsHonest(idOf, n, steps, t, since);
    HeldIsWatched(idOf, n, steps, v, t);
    FocusAuthor(idOf, t, n.nodes.Keys);
    var a := Reached(Focus(idOf, t), n, steps, clock);
    assert a.Holds(v, t);
    k := FirstDeliveryTree(Focus(idOf, t), n, steps, clock, v, t);
    forall l | l in a.sent
      ensures Copies(idOf, a.sent[l], t) == Copies(Focus(idOf, t), a.sent[l], t)
    {
      FocusCopies(idOf, a.sent[l], t);
    }
  }

  /** Within its lifetime no HaveTx for a transaction finds the guard against self-sources or cuts a tree
      edge. */
  lemma HaveTxWithinLifetime(idOf: IdOf, n: Net, steps: seq<Step>, since: nat, l: Link, t: TxId)
    requires WithinLifetime(idOf, n, steps, t, since) && Watched(idOf, t)
    requires l.to in Run(n, steps).nodes && l in Run(n, steps).wire && HaveTx(t) in InFlight(Run(n, steps), l)
    ensures var a, node := Abs(Run(n, steps)), Run(n, steps).nodes[l.to];
            && a.Holds(l.from, t) && a.Source(l.from, t) != l.to
            && a.Holds(l.to, t) && a.Source(l.to, t) != l.from
            && (!node.cfg.ignoreHaveTx ==>
                RouteCut(node, t, l.from) == DisableRoute(node.router, a.Source(l.to, t), l.from))
  {
    hide Initial, Run, FiledSince, NetValid, HonestRun, Focus, EverybodyHonest, CachesOutlive, InFlight, RouteCut;
    InitialIsValid(n);
    LifetimeIsHonest(idOf, n, steps, t, since);
    FocusWatched(idOf, t, t);
    HaveTxCutsOneRouteAndNoTreeEdge(Focus(idOf, t), n, steps, Run(n, steps).clock, l, t);
  }

  /** Within the lifetime of a transaction, on a graph with E edges and while R nodes hold it, at least R - 1
      and at most 2E - (R - 1) copies of it have been accepted since the network began. */
  lemma CopiesWithinLifetime(idOf: IdOf, n: Net, steps: seq<Step>, since: nat, v: PeerId, t: TxId)
    requires WithinLifetime(idOf, n, steps, t, since) && NamesAuthor(idOf, n.nodes.Keys) && Static(steps)
    requires HeldBy(Run(n, steps), v, t)
    ensures var a := Abs(Run(n, steps));
            var copies, holders := |AcceptedCopies(idOf, a, t)|, |Holders(a, t)|;
            holders - 1 <= copies <= 2 * |Edges(n)| - (holders - 1)
  {
    hide Initial, Run, FiledSince, NetValid, HonestRun, Focus, NamesAuthor, AuthorOf, EverybodyHonest, CachesOutlive,
         Static, Edges, Watched;
    InitialIsValid(n);
    LifetimeIsHonest(idOf, n, steps, t, since);
    HeldIsWatched(idOf, n, steps, v, t);
    FocusAuthor(idOf, t, n.nodes.Keys);
    CopyBound(Focus(idOf, t), n, steps, Run(n, steps).clock, t);
    var a := Abs(Run(n, steps));
    SameAccepted(idOf, a, t);
    assert v in Holders(a, t);
  }

  /** Nor do more of them arrive, all links together. */
  lemma ArrivalsWithinLifetime(idOf: IdOf, n: Net, steps: seq<Step>, since: nat, v: PeerId, t: TxId)
    requires WithinLifetime(idOf, n, steps, t, since) && NamesAuthor(idOf, n.nodes.Keys) && Static(steps)
    requires HeldBy(Run(n, steps), v, t)
    ensures Arrivals(idOf, n, steps, t) <= 2 * |Edges(n)| - (|Holders(Abs(Run(n, steps)), t)| - 1)
  {
    hide Initial, Run, FiledSince, NetValid, HonestRun, Focus, NamesAuthor, AuthorOf, EverybodyHonest, CachesOutlive,
         Static, Edges, Watched, Arrivals, Remaining;
    InitialIsValid(n);
    LifetimeIsHonest(idOf, n, steps, t, since);
    HeldIsWatched(idOf, n, steps, v, t);
    FocusAuthor(idOf, t, n.nodes.Keys);
    FloodEnds(Focus(idOf, t), n, steps, Run(n, steps).clock, t);
    FocusArrivals(idOf, n, steps, t);
    assert v in Holders(Abs(Run(n, steps)), t);
  }

  lemma {:induction false} FocusArrivals(idOf: IdOf, n: Net, steps: seq<Step>, t: TxId)
    requires NetValid(n)
    ensures Arrivals(Focus(idOf, t), n, steps, t) == Arrivals(idOf, n, steps, t)
  {
    hide NetValid, Run, Enabled;
    if steps != [] {
      FocusArrivals(idOf, n, steps[..|steps| - 1], t);
    }
  }

  lemma SameAccepted(idOf: IdOf, a: Flood, t: TxId)
    ensures AcceptedCopies(Focus(idOf, t), a, t) == AcceptedCopies(idOf, a, t)
  {
    assert forall m :: IsCopy(Focus(idOf, t), m, t) <==> IsCopy(idOf, m, t);
  }

  /** Within the lifetime of a transaction, once no copy of it is on its way from a holder to a neighbour: that
      neighbour holds it, or was skipped for a reason when the holder took it up, or a copy was dropped. */
  lemma DeliveryWithinLifetime(idOf: IdOf, n: Net, steps: seq<Step>, since: nat, v: PeerId, p: PeerId, t: TxId)
    requires WithinLifetime(idOf, n, steps, t, since) && NamesAuthor(idOf, n.nodes.Keys) && Static(steps)
    requires EverybodyLooks(n) && HeldBy(Run(n, steps), v, t) && p in Run(n, steps).nodes[v].peers
    requires Copies(idOf, InFlight(Run(n, steps), Link(v, p)), t) == 0
    ensures || HeldBy(Run(n, steps), p, t)
            || (exists k: nat, r :: SkippedAt(n, steps, k, v, p, t, Source(Run(n, steps), v, t), r))
            || (exists k: nat :: DroppedAt(idOf, n, steps, k, Link(v, p), t))
  {
    hide Initial, Run, FiledSince, NetValid, HonestRun, Focus, NamesAuthor, AuthorOf, EverybodyHonest, CachesOutlive,
         Static, Watched, EverybodyLooks, InFlight, SkippedAt, DroppedAt, Source, HeldBy, Copies;
    InitialIsValid(n);
    LifetimeIsHonest(idOf, n, steps, t, since);
    HeldIsWatched(idOf, n, steps, v, t);
    FocusAuthor(idOf, t, n.nodes.Keys);
    FocusCopies(idOf, InFlight(Run(n, steps), Link(v, p)), t);
    DeliveryAtQuiescence(Focus(idOf, t), n, steps, Run(n, steps).clock, v, p, t);
    if k: nat :| DroppedAt(Focus(idOf, t), n, steps, k, Link(v, p), t) {
      FocusDropped(idOf, n, steps, k, Link(v, p), t);
    }
  }

  lemma FocusDropped(idOf: IdOf, n: Net, steps: seq<Step>, k: nat, l: Link, t: TxId)
    requires NetValid(n) && DroppedAt(Focus(idOf, t), n, steps, k, l, t)
    ensures DroppedAt(idOf, n, steps, k, l, t)
  {
    hide Run, NetValid, Focus, InFlight, Copies, After, Enabled;
    FocusCopies(idOf, InFlight(After(Run(n, steps[..k]), steps[k]), l), t);
    FocusCopies(idOf, InFlight(Run(n, steps[..k]), l), t);
  }
}

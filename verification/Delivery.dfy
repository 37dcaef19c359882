/** Who has a transaction once no copy of it is on its way, told from the run alone: a neighbour of a
    holder has it, or the holder did not pass it on when it took it up, or the copy was dropped. */
module Delivery {
  import opened Types
  import opened TimeCache
  import opened Routing
  import opened SendQueues
  import opened Nodes
  import opened NodeFacts
  import opened Networks
  import opened NetworkRuns
  import opened Credit
  import opened FloodSpec
  import opened FloodRefinement
  import opened FloodTheorems
  import opened FixedTopology
  import opened FloodDelivery
  import opened Withholding

  // ---- Dropped copies ----

  /** Step `s` takes a copy of `t` off link `l` without handing it to the receiver. */
  ghost predicate DropsCopy(idOf: IdOf, n: Net, s: Step, l: Link, t: TxId)
    requires NetValid(n)
  {
    && IsLinkStep(s) && s.link == l && Enabled(n, s)
    && Copies(idOf, InFlight(After(n, s), l), t) < Copies(idOf, InFlight(n, l), t)
  }

  ghost predicate DroppedAt(idOf: IdOf, n: Net, steps: seq<Step>, k: nat, l: Link, t: TxId)
    requires NetValid(n)
  {
    k < |steps| && DropsCopy(idOf, Run(n, steps[..k]), steps[k], l, t)
  }

  /** What a link step lists as lost is one copy less on the link. */
  lemma LossIsDrop(idOf: IdOf, cfg: Config, l: Link, a: seq<RpcOut>, m: RpcOut, b: seq<RpcOut>, t: TxId)
    requires Watches(cfg, idOf) && Copy(l, t) in CopiesLost(cfg, l, [m]) && Watched(idOf, t)
    ensures Copies(idOf, a + b, t) < Copies(idOf, a + [m] + b, t)
  {
    hide Copies, Watches;
    if !m.IsControl() {
      WatchesId(cfg, idOf, m.tx);
    }
    CopiesConcat(idOf, a, b, t);
    CopiesConcat(idOf, a + [m], b, t);
    CopiesConcat(idOf, a, [m], t);
    CopiesOne(idOf, m, t);
  }

  lemma OwnLink(cfg: Config, l: Link, s: seq<RpcOut>, c: Copy)
    requires c in CopiesLost(cfg, l, s)
    ensures c.link == l
  {}

  lemma TransmitDrops(idOf: IdOf, n: Net, l: Link, c: Copy)
    requires NetValid(n) && Enabled(n, Transmit(l)) && Watches(n.nodes[l.from].cfg, idOf)
    requires c in DoTransmit(n, l).lost && c !in n.lost && Watched(idOf, c.id)
    ensures c.link == l && Copies(idOf, InFlight(DoTransmit(n, l), l), c.id) < Copies(idOf, InFlight(n, l), c.id)
  {
    hide NetValid, Copies, InFlight, DoTransmit, Watches, CopiesLost, Queued;
    var m, rest := TransmitShape(n, l);
    OwnLink(n.nodes[l.from].cfg, l, [m], c);
    LossIsDrop(idOf, n.nodes[l.from].cfg, l, n.wire[l], m, rest, c.id);
  }

  lemma DropStaleDrops(idOf: IdOf, n: Net, l: Link, c: Copy)
    requires Connected(n, l) && Watches(n.nodes[l.from].cfg, idOf)
    requires c in DoDropStale(n, l).lost && c !in n.lost && Watched(idOf, c.id)
    ensures c.link == l && Copies(idOf, InFlight(DoDropStale(n, l), l), c.id) < Copies(idOf, InFlight(n, l), c.id)
  {
    hide Copies, CopiesLost, PollStale, SetQueue, InFlight, Watches;
    var q := n.nodes[l.from].peers[l.to].queue;
    var w := if l in n.wire then n.wire[l] else [];
    var q' := PollStale(q, n.clock).0;
    QueueInFlight(n, l, q');
    QueueInFlight(n, l, q);
    DroppedInFlight(n, l);
    StaleShape(q, n.clock);
    SetQueueKeepsWire(n, l, q');
    var cfg := n.nodes[l.from].cfg;
    if q'.priority != q.priority {
      assert w + (q.priority + q.nonPriority) == w + [q.priority[0]] + (q'.priority + q'.nonPriority);
      OwnLink(cfg, l, [q.priority[0]], c);
      LossIsDrop(idOf, cfg, l, w, q.priority[0], q'.priority + q'.nonPriority, c.id);
    } else if q'.nonPriority != q.nonPriority {
      assert w + (q.priority + q.nonPriority) == (w + q.priority) + [q.nonPriority[0]] + q'.nonPriority;
      assert w + (q'.priority + q'.nonPriority) == (w + q.priority) + q'.nonPriority;
      OwnLink(cfg, l, [q.nonPriority[0]], c);
      LossIsDrop(idOf, cfg, l, w + q.priority, q.nonPriority[0], q'.nonPriority, c.id);
    }
  }

  lemma DropPeekedDrops(idOf: IdOf, n: Net, l: Link, priority: bool, c: Copy)
    requires Enabled(n, DropPeeked(l, priority)) && Watches(n.nodes[l.from].cfg, idOf)
    requires c in DoDropPeeked(n, l, priority).lost && c !in n.lost && Watched(idOf, c.id)
    ensures c.link == l
    ensures Copies(idOf, InFlight(DoDropPeeked(n, l, priority), l), c.id) < Copies(idOf, InFlight(n, l), c.id)
  {
    hide Copies, InFlight, DoDropPeeked, CopiesLost, Watches;
    var a, m, b := DropPeekedShape(n, l, priority);
    OwnLink(n.nodes[l.from].cfg, l, [m], c);
    LossIsDrop(idOf, n.nodes[l.from].cfg, l, a, m, b, c.id);
  }

  lemma LoseDrops(idOf: IdOf, n: Net, l: Link, index: nat, c: Copy)
    requires Enabled(n, Lose(l, index)) && Watches(n.nodes[l.from].cfg, idOf)
    requires c in DoLose(n, l, index).lost && c !in n.lost && Watched(idOf, c.id)
    ensures c.link == l && Copies(idOf, InFlight(DoLose(n, l, index), l), c.id) < Copies(idOf, InFlight(n, l), c.id)
  {
    hide Copies, CopiesLost, Watches;
    var w, rest := n.wire[l], Queued(n, l);
    OwnLink(n.nodes[l.from].cfg, l, [w[index]], c);
    LossIsDrop(idOf, n.nodes[l.from].cfg, l, w[..index], w[index], w[index + 1..] + rest, c.id);
    assert InFlight(n, l) == w[..index] + [w[index]] + (w[index + 1..] + rest);
    assert InFlight(DoLose(n, l, index), l) == w[..index] + (w[index + 1..] + rest);
  }

  lemma LinkStepDrops(idOf: IdOf, n: Net, s: Step, c: Copy)
    requires NetValid(n) && Enabled(n, s) && IsLinkStep(s) &&
               (forall v :: v in n.nodes ==> Consistent(n.nodes[v].cache))
    requires s.link.from in n.nodes && Watches(n.nodes[s.link.from].cfg, idOf)
    requires c in Do(n, s).lost && c !in n.lost && Watched(idOf, c.id)
    ensures c.link == s.link && Copies(idOf, InFlight(Do(n, s), c.link), c.id) < Copies(idOf, InFlight(n, c.link), c.id)
  {
    hide NetValid, Copies, PollNext, PollStale, PollIsEmpty, CopiesLost, Consistent, SetQueue, InFlight, DoTransmit,
         DoDropStale, DoLose, DoDropPeeked, Watches;
    match s
    case Transmit(l) => TransmitDrops(idOf, n, l, c);
    case DropStale(l) => DropStaleDrops(idOf, n, l, c);
    case Peek(l) => SetQueueKeepsWire(n, l, PollIsEmpty(n.nodes[l.from].peers[l.to].queue).0);
    case DropPeeked(l, priority) => DropPeekedDrops(idOf, n, l, priority, c);
    case Lose(l, index) => LoseDrops(idOf, n, l, index, c);
  }

  lemma OthersLoseNothing(n: Net, s: Step)
    requires (forall v :: v in n.nodes ==> Consistent(n.nodes[v].cache)) && !(IsLinkStep(s) && Enabled(n, s))
    ensures Do(n, s).lost == n.lost
  {
    hide Consistent, AdjustRedundancy, AdjustOut, Closed, Established, IsOrderOf, IsCreditorChoice, ResetRoutesWith,
         PublishData, ReceiveRpc, PublishOut, DeliverOut, FirstTime, Withhold, PublishesNew;
  }

  lemma StepDrops(idOf: IdOf, n: Net, horizon: nat, s: Step, c: Copy)
    requires NetValid(n) && Assumptions(n, idOf, horizon)
    requires c in After(n, s).lost && c !in n.lost && Watched(idOf, c.id)
    ensures DropsCopy(idOf, n, s, c.link, c.id)
  {
    hide NetValid, Do, Copies, InFlight, Watches, Undoes, Lasting, Enabled;
    AllConsistent(n);
    if IsLinkStep(s) && Enabled(n, s) {
      LinkStepSender(n, s);
      AssumedOf(n, idOf, horizon, s.link.from);
      LinkStepDrops(idOf, n, s, c);
    } else {
      OthersLoseNothing(n, s);
    }
  }

  /** No watched transaction is listed as lost that was not dropped at some step. */
  lemma {:induction false} LossForCause(idOf: IdOf, n: Net, steps: seq<Step>, horizon: nat, c: Copy) returns (k: nat)
    requires HonestRun(idOf, n, steps, horizon) && c in Run(n, steps).lost && Watched(idOf, c.id)
    ensures DroppedAt(idOf, n, steps, k, c.link, c.id)
  {
    hide NetValid, Do, Assumptions, DropsCopy, FloodInvariant;
    InitialIsValid(n);
    assert steps != [];
    var j := |steps| - 1;
    var before := Run(n, steps[..j]);
    HonestPrefix(idOf, n, steps, horizon, j);
    if c in before.lost {
      k := LossForCause(idOf, n, steps[..j], horizon, c);
      assert steps[..j][..k] == steps[..k];
    } else {
      k := j;
      StepDrops(idOf, before, horizon, steps[j], c);
    }
  }

  // ---- Caches only grow ----

  ghost predicate KnowsMore(idOf: IdOf, n: Net, n': Net) {
    forall v, t :: Watched(idOf, t) && Files(n, v, t, Source(n, v, t)) ==> Files(n', v, t, Source(n, v, t))
  }

  ghost function Source(n: Net, v: PeerId, t: TxId): PeerId {
    if v in n.nodes && t in n.nodes[v].cache.values then n.nodes[v].cache.values[t] else v
  }

  lemma SameKnows(idOf: IdOf, n: Net, n': Net)
    requires n'.nodes.Keys == n.nodes.Keys && forall v :: v in n.nodes ==> n'.nodes[v].cache == n.nodes[v].cache
    ensures KnowsMore(idOf, n, n')
  {}

  lemma PublishKnows(idOf: IdOf, n: Net, horizon: nat, v: PeerId, data: Bytes, order: seq<PeerId>)
    requires NetValid(n) && Enabled(n, PublishAt(v, data, order)) && Consistent(n.nodes[v].cache)
    requires Assumptions(n, idOf, horizon)
    ensures KnowsMore(idOf, n, DoPublish(n, v, data, order))
  {
    hide PublishData, Inserted, Spoke, Built, NodeValid, Consistent, Calm, IsOrderOf, Withhold, PublishOut, NetValid,
         Watches, Undoes, Lasting, ReasonsHold;
    NodeFactsOf(n, v);
    AssumedOf(n, idOf, horizon, v);
    var node := n.nodes[v];
    PublishFacts(node, n.clock, data, order);
    if PublishesNew(node, data) {
      var raw := Built(node, data).value;
      InsertedLasting(node.cache, idOf, n.clock, horizon,
                      node.cfg.transactionId(Transaction(raw.from, raw.seqno, data)), v);
    }
  }

  lemma DeliverKnows(idOf: IdOf, n: Net, horizon: nat, l: Link, order: seq<PeerId>, pick: nat)
    requires NetValid(n) && Enabled(n, Deliver(l, order, pick)) && Consistent(n.nodes[l.to].cache)
    requires Assumptions(n, idOf, horizon)
    ensures KnowsMore(idOf, n, DoDeliver(n, l, order, pick))
  {
    hide ReceiveRpc, DeliverOut, RoutesAfter, NodeValid, Consistent, IsOrderOf, Withhold, CreditsMove, NetValid, Spoke,
         Inserted, Watches, Undoes, Lasting, FirstTime;
    AssumedOf(n, idOf, horizon, l.to);
    var node, m := n.nodes[l.to], n.wire[l][0];
    DeliverFacts(n, l, order, pick);
    if TransactionId(node, m).Some? {
      InsertedLasting(node.cache, idOf, n.clock, horizon, TransactionId(node, m).value, l.from);
    }
  }

  lemma StepKnows(idOf: IdOf, n: Net, horizon: nat, s: Step)
    requires NetValid(n) && Assumptions(n, idOf, horizon) && !s.Connect? && !s.Disconnect?
    ensures KnowsMore(idOf, n, After(n, s))
  {
    hide DoPublish, DoDeliver, AdjustRedundancy, AdjustOut, Spoke, CreditsMove, Consistent, NetValid, DoTransmit,
         DoDropStale, DoLose, DoDropPeeked, SetQueue, InFlight, Watches, Undoes, Lasting, KnowsMore;
    AllConsistent(n);
    if Enabled(n, s) {
      if IsLinkStep(s) {
        LinkStepFrame(n, s);
        SameKnows(idOf, n, Do(n, s));
      } else if s.PublishAt? {
        PublishKnows(idOf, n, horizon, s.v, s.data, s.order);
      } else if s.Deliver? {
        DeliverKnows(idOf, n, horizon, s.link, s.order, s.pick);
      } else if s.Tick? {
        AdjustFacts(n.nodes[s.v], s.choice);
        SameKnows(idOf, n, Do(n, s));
      } else {
        SameKnows(idOf, n, Do(n, s));
      }
    } else {
      SameKnows(idOf, n, Do(n, s));
    }
  }

  /** What a node has filed at some point of the run it still has at the end, under the same source. */
  lemma {:induction false} StillFiled(idOf: IdOf, n: Net, steps: seq<Step>, horizon: nat, k: nat, v: PeerId, t: TxId,
                                      source: PeerId)
    requires HonestRun(idOf, n, steps, horizon) && Static(steps) && k <= |steps|
    requires Files(Run(n, steps[..k]), v, t, source) && Watched(idOf, t)
    ensures Files(Run(n, steps), v, t, source)
    decreases |steps|
  {
    hide NetValid, Do, Assumptions, Initial, FloodInvariant, Files;
    InitialIsValid(n);
    var j := |steps| - 1;
    if k == |steps| {
      assert steps[..k] == steps;
    } else {
      assert steps[j] in steps && forall s :: s in steps[..j] ==> s in steps;
      assert steps[..j][..k] == steps[..k];
      HonestPrefix(idOf, n, steps, horizon, j);
      StillFiled(idOf, n, steps[..j], horizon, k, v, t, source);
      StepKnows(idOf, Run(n, steps[..j]), horizon, steps[j]);
      FiledMeans(idOf, Run(n, steps[..j]), Run(n, steps), v, t, source);
    }
  }

  lemma FiledMeans(idOf: IdOf, n: Net, n': Net, v: PeerId, t: TxId, source: PeerId)
    requires KnowsMore(idOf, n, n') && Watched(idOf, t) && Files(n, v, t, source)
    ensures Files(n', v, t, source)
  {
    assert Source(n, v, t) == source;
  }

  // ---- Delivery ----

  ghost predicate HeldBy(n: Net, v: PeerId, t: TxId) {
    v in n.nodes && n.nodes[v].Holds(t)
  }

  /** At step `k`, `v` takes `t` up from `source` and does not pass it on to `p`, for reason `r`. */
  ghost predicate SkippedAt(n: Net, steps: seq<Step>, k: nat, v: PeerId, p: PeerId, t: TxId, source: PeerId, r: Reason)
    requires NetValid(n)
  {
    WithheldDuring(n, steps, k, Copy(Link(v, p), t), source, r)
  }

  /** On a fixed graph of honest nodes, once no copy is on its way from a holder to a neighbour, that
      neighbour holds the transaction; or at the step at which the holder took it up, from the source it
      still has filed, the route from that source to the neighbour was disabled, or the neighbour's
      queue refused, or the holder does not forward; or a copy was dropped on the way. */
  lemma DeliveryAtQuiescence(idOf: IdOf, n: Net, steps: seq<Step>, horizon: nat, v: PeerId, p: PeerId, t: TxId)
    requires HonestRun(idOf, n, steps, horizon) && NamesAuthor(idOf, n.nodes.Keys) && Static(steps) && EverybodyLooks(n)
    requires HeldBy(Run(n, steps), v, t) && Watched(idOf, t) && p in Run(n, steps).nodes[v].peers
    requires Copies(idOf, InFlight(Run(n, steps), Link(v, p)), t) == 0
    ensures || HeldBy(Run(n, steps), p, t)
            || (exists k: nat, r :: SkippedAt(n, steps, k, v, p, t, Source(Run(n, steps), v, t), r))
            || (exists k: nat :: DroppedAt(idOf, n, steps, k, Link(v, p), t))
  {
    hide Initial, Assumptions, NamesAuthor, FloodInvariant, Static, Copies, InFlight, NetValid, AllPassedOn,
         AllAccounted, EverybodyLooks, Run, WithheldDuring, DroppedAt;
    InitialIsValid(n);
    RunBooks(idOf, n, steps, horizon);
    RunFlood(idOf, n, steps, horizon);
    RunNodes(n, steps);
    var n' := Run(n, steps);
    QuietNeighbour(idOf, n', v, p, t);
    var c := Copy(Link(v, p), t);
    if !HeldBy(n', p, t) {
      if c in n'.withheld {
        var k, source := WithheldForCause(n, steps, c);
        FiledLater(idOf, n, steps, horizon, k, c, source, n'.withheld[c]);
        assert SkippedAt(n, steps, k, v, p, t, Source(n', v, t), n'.withheld[c]);
      } else {
        var k := LossForCause(idOf, n, steps, horizon, c);
      }
    }
  }

  /** The source from which the transaction was taken up is the one still filed at the end. */
  lemma FiledLater(idOf: IdOf, n: Net, steps: seq<Step>, horizon: nat, k: nat, c: Copy, source: PeerId, r: Reason)
    requires HonestRun(idOf, n, steps, horizon) && Static(steps) && WithheldDuring(n, steps, k, c, source, r)
    requires Watched(idOf, c.id)
    ensures Source(Run(n, steps), c.link.from, c.id) == source
  {
    hide Initial, Assumptions, NetValid, Do, Purged, Consistent, Cause, Enabled;
    InitialIsValid(n);
    assert steps[..k + 1][..k] == steps[..k];
    assert Run(n, steps[..k + 1]) == After(Run(n, steps[..k]), steps[k]);
    StillFiled(idOf, n, steps, horizon, k + 1, c.link.from, c.id, source);
  }

  // ---- Without refusals and losses ----

  ghost function StateAt(n: Net, steps: seq<Step>, k: nat): Net
    requires NetValid(n) && k <= |steps|
  {
    Run(n, steps[..k])
  }

  ghost predicate NothingDisabled(n: Net) {
    forall v :: v in n.nodes ==> n.nodes[v].router.disabled == []
  }

  ghost predicate NobodyRefuses(n: Net) {
    forall v, p {:trigger Refuses(n.nodes[v].peers, p)} :: v in n.nodes ==> !Refuses(n.nodes[v].peers, p)
  }

  /** No route is disabled in any state of the run. */
  ghost predicate NeverDisabled(n: Net, steps: seq<Step>)
    requires NetValid(n)
  {
    forall k: nat {:trigger StateAt(n, steps, k)} :: k <= |steps| ==> NothingDisabled(StateAt(n, steps, k))
  }

  /** No queue is full in any state of the run. */
  ghost predicate NeverRefused(n: Net, steps: seq<Step>)
    requires NetValid(n)
  {
    forall k: nat {:trigger StateAt(n, steps, k)} :: k <= |steps| ==> NobodyRefuses(StateAt(n, steps, k))
  }

  /** No copy of `t` is dropped in the run. */
  ghost predicate NeverDropped(idOf: IdOf, n: Net, steps: seq<Step>, t: TxId)
    requires NetValid(n)
  {
    forall k: nat, l {:trigger DroppedAt(idOf, n, steps, k, l, t)} :: !DroppedAt(idOf, n, steps, k, l, t)
  }

  ghost predicate EverybodyForwards(n: Net) {
    forall v :: v in n.nodes ==> n.nodes[v].cfg.forwardTransactions
  }

  /** At step `k`, `v` takes `t` up from `source` while the route from there to `p` is disabled. */
  ghost predicate DisabledWhenTaken(n: Net, steps: seq<Step>, k: nat, v: PeerId, p: PeerId, t: TxId, source: PeerId)
    requires NetValid(n)
  {
    && k < |steps| && TakesUpAt(StateAt(n, steps, k), steps[k], v, t, source)
    && Route(source, p) in StateAt(n, steps, k).nodes[v].router.disabled
  }

  lemma StateForwards(n: Net, steps: seq<Step>, k: nat)
    requires Initial(n) && Static(steps) && EverybodyForwards(n) && k <= |steps|
    ensures EverybodyForwards(StateAt(n, steps, k))
  {
    hide Initial, Run;
    assert forall s :: s in steps[..k] ==> s in steps;
    RunTopology(n, steps[..k]);
  }

  /** With all nodes forwarding and no queue full, a node skips a neighbour only for a disabled route. */
  lemma SkippedForRoute(n: Net, steps: seq<Step>, k: nat, v: PeerId, p: PeerId, t: TxId, source: PeerId, r: Reason)
    requires Initial(n) && Static(steps) && EverybodyForwards(n) && NeverRefused(n, steps)
    requires SkippedAt(n, steps, k, v, p, t, source, r)
    ensures DisabledWhenTaken(n, steps, k, v, p, t, source)
  {
    hide Initial, Run, Refuses, TakesUpAt, Static;
    InitialIsValid(n);
    StateForwards(n, steps, k);
    assert NobodyRefuses(StateAt(n, steps, k));
    assert v in StateAt(n, steps, k).nodes && !Refuses(StateAt(n, steps, k).nodes[v].peers, p);
  }

  /** With all nodes forwarding, no queue full and no copy dropped, a quiet neighbour of a holder holds
      the transaction, or the route to it was disabled when the holder took the transaction up. */
  lemma DeliveredOrDisabled(idOf: IdOf, n: Net, steps: seq<Step>, horizon: nat, v: PeerId, p: PeerId, t: TxId)
    requires HonestRun(idOf, n, steps, horizon) && NamesAuthor(idOf, n.nodes.Keys) && Static(steps) && EverybodyLooks(n)
    requires EverybodyForwards(n) && NeverRefused(n, steps) && NeverDropped(idOf, n, steps, t)
    requires HeldBy(Run(n, steps), v, t) && Watched(idOf, t) && p in Run(n, steps).nodes[v].peers
    requires Copies(idOf, InFlight(Run(n, steps), Link(v, p)), t) == 0
    ensures HeldBy(Run(n, steps), p, t)
            || exists k: nat :: DisabledWhenTaken(n, steps, k, v, p, t, Source(Run(n, steps), v, t))
  {
    hide Initial, Assumptions, NamesAuthor, Static, Copies, InFlight, NetValid, EverybodyLooks, Run, SkippedAt,
         DroppedAt, HeldBy, DisabledWhenTaken, NeverRefused, EverybodyForwards, Source;
    InitialIsValid(n);
    DeliveryAtQuiescence(idOf, n, steps, horizon, v, p, t);
    var source := Source(Run(n, steps), v, t);
    if k: nat, r :| SkippedAt(n, steps, k, v, p, t, source, r) {
      SkippedForRoute(n, steps, k, v, p, t, source, r);
    }
  }

  ghost predicate NoneUnderWay(idOf: IdOf, n: Net, t: TxId) {
    forall l {:trigger InFlight(n, l)} :: Copies(idOf, InFlight(n, l), t) == 0
  }

  ghost predicate IsPath(n: Net, path: seq<PeerId>) {
    forall i :: 0 <= i < |path| - 1 ==> path[i] in n.nodes && path[i + 1] in n.nodes[path[i]].peers
  }

  lemma NextHolds(idOf: IdOf, n: Net, steps: seq<Step>, horizon: nat, v: PeerId, p: PeerId, t: TxId)
    requires HonestRun(idOf, n, steps, horizon) && NamesAuthor(idOf, n.nodes.Keys) && Static(steps) && EverybodyLooks(n)
    requires EverybodyForwards(n) && NeverRefused(n, steps) && NeverDropped(idOf, n, steps, t)
    requires NeverDisabled(n, steps)
    requires NoneUnderWay(idOf, Run(n, steps), t)
    requires HeldBy(Run(n, steps), v, t) && Watched(idOf, t) && p in Run(n, steps).nodes[v].peers
    ensures HeldBy(Run(n, steps), p, t)
  {
    hide Initial, Assumptions, NamesAuthor, Static, Copies, InFlight, NetValid, EverybodyLooks, Run, HeldBy, TakesUpAt,
         NeverRefused, NeverDropped, EverybodyForwards, Source;
    InitialIsValid(n);
    assert Copies(idOf, InFlight(Run(n, steps), Link(v, p)), t) == 0;
    DeliveredOrDisabled(idOf, n, steps, horizon, v, p, t);
    if k: nat :| DisabledWhenTaken(n, steps, k, v, p, t, Source(Run(n, steps), v, t)) {
      NotDisabled(n, steps, k, v, p, t, Source(Run(n, steps), v, t));
    }
  }

  lemma NotDisabled(n: Net, steps: seq<Step>, k: nat, v: PeerId, p: PeerId, t: TxId, source: PeerId)
    requires NetValid(n) && NeverDisabled(n, steps)
    ensures !DisabledWhenTaken(n, steps, k, v, p, t, source)
  {
    hide Run, Purged, Consistent, After;
    if k <= |steps| {
      assert NothingDisabled(StateAt(n, steps, k));
    }
  }

  lemma {:induction false} PathHolds(idOf: IdOf, n: Net, steps: seq<Step>, horizon: nat, path: seq<PeerId>, t: TxId)
    requires HonestRun(idOf, n, steps, horizon) && NamesAuthor(idOf, n.nodes.Keys) && Static(steps) && EverybodyLooks(n)
    requires EverybodyForwards(n) && NeverRefused(n, steps) && NeverDropped(idOf, n, steps, t)
    requires NeverDisabled(n, steps)
    requires NoneUnderWay(idOf, Run(n, steps), t)
    requires path != [] && IsPath(Run(n, steps), path) && HeldBy(Run(n, steps), path[0], t) && Watched(idOf, t)
    ensures HeldBy(Run(n, steps), path[|path| - 1], t)
    decreases |path|
  {
    hide HonestRun, NamesAuthor, Static, EverybodyLooks, EverybodyForwards, NeverRefused, NeverDropped, NeverDisabled,
         NoneUnderWay, HeldBy, NetValid, Run;
    if |path| > 1 {
      NextHolds(idOf, n, steps, horizon, path[0], path[1], t);
      PathHolds(idOf, n, steps, horizon, path[1..], t);
    }
  }

  lemma AuthorWatched(idOf: IdOf, t: TxId, author: PeerId)
    requires AuthorOf(idOf, t, author)
    ensures Watched(idOf, t)
  {}

  /** If no route is ever disabled, no queue is ever full, no copy is dropped and everybody forwards, the
      flood of a transaction that anybody holds reaches everybody: once nothing of it is on its way,
      every node connected to its author holds it. */
  lemma EverybodyReached(idOf: IdOf, n: Net, steps: seq<Step>, horizon: nat, holder: PeerId, path: seq<PeerId>, t: TxId)
    requires HonestRun(idOf, n, steps, horizon) && NamesAuthor(idOf, n.nodes.Keys) && Static(steps) && EverybodyLooks(n)
    requires EverybodyForwards(n) && NeverRefused(n, steps) && NeverDropped(idOf, n, steps, t)
    requires NeverDisabled(n, steps)
    requires NoneUnderWay(idOf, Run(n, steps), t) && HeldBy(Run(n, steps), holder, t)
    requires path != [] && path[0] in n.nodes && AuthorOf(idOf, t, path[0]) && IsPath(Run(n, steps), path)
    ensures HeldBy(Run(n, steps), path[|path| - 1], t)
  {
    hide Initial, Assumptions, NamesAuthor, Static, EverybodyLooks, EverybodyForwards, NeverRefused, NeverDropped,
         NeverDisabled, NoneUnderWay, NetValid, Run, AuthorOf, FloodInvariant, InFlight, IsPath;
    InitialIsValid(n);
    RunFlood(idOf, n, steps, horizon);
    RunNodes(n, steps);
    var a := Abs(Run(n, steps));
    AbsKnows(Run(n, steps));
    assert a.Holds(holder, t);
    AuthorWatched(idOf, t, path[0]);
    AuthorAlwaysHolds(idOf, a, holder, t, path[0]);
    PathHolds(idOf, n, steps, horizon, path, t);
  }
}

/** Why a copy was withheld: the reason the network records for it was true when it was recorded. */
module Withholding {
  import opened Types
  import opened TimeCache
  import opened Routing
  import opened SendQueues
  import opened Nodes
  import opened NodeFacts
  import opened Networks
  import opened NetworkRuns

  /** Reason `r` for not sending over `l` a transaction that came from `source` holds in `n`. */
  ghost predicate Cause(n: Net, l: Link, source: PeerId, r: Reason) {
    && l.from in n.nodes && l.to in n.nodes[l.from].peers
    && var node := n.nodes[l.from];
       match r
       case NotForwarding => !node.cfg.forwardTransactions && source != l.from
       case RouteDisabled => Route(source, l.to) in node.router.disabled
       case QueueFull => Refuses(node.peers, l.to)
  }

  ghost predicate Files(n: Net, v: PeerId, id: TxId, source: PeerId) {
    v in n.nodes && id in n.nodes[v].cache.values && n.nodes[v].cache.values[id] == source
  }

  /** Step `s` has `v` take up `id` from `source`: it publishes the transaction itself, or is handed it,
      has no live entry for it before the step, and files it under `source`. */
  ghost predicate TakesUpAt(n: Net, s: Step, v: PeerId, id: TxId, source: PeerId)
    requires NetValid(n)
  {
    && Enabled(n, s) && v in n.nodes && Consistent(n.nodes[v].cache)
    && ((s.PublishAt? && s.v == v && source == v) || (s.Deliver? && s.link.to == v && s.link.from == source))
    && id !in Purged(n.nodes[v].cache, n.clock).values
    && Files(After(n, s), v, id, source)
  }

  ghost function After(n: Net, s: Step): (n': Net)
    requires NetValid(n)
    ensures NetValid(n')
  {
    DoValid(n, s);
    Do(n, s)
  }

  /** At step `s` of `n` the sender of `c` takes the transaction up, and the reason for which it does not
      pass it on over that link holds. */
  ghost predicate WithheldAt(n: Net, s: Step, c: Copy, source: PeerId, r: Reason)
    requires NetValid(n)
  {
    TakesUpAt(n, s, c.link.from, c.id, source) && Cause(n, c.link, source, r) && c.link.to != source
  }

  lemma WithholdCauses(n: Net, v: PeerId, source: PeerId, author: PeerId, id: TxId, out: map<PeerId, RpcOut>, c: Copy)
    requires v in n.nodes && n.nodes[v].Own() == v && ReasonsHold(n.nodes[v], source, author, out)
    requires c in Withhold(n, v, source, author, id, out)
    ensures var r := Withhold(n, v, source, author, id, out)[c];
            || (c in n.withheld && n.withheld[c] == r)
            || (c.link.from == v && c.id == id && Cause(n, c.link, source, r) && c.link.to != source)
  {
    hide Refuses;
  }

  lemma PublishCauses(n: Net, v: PeerId, data: Bytes, order: seq<PeerId>, c: Copy)
    requires NetValid(n) && Enabled(n, PublishAt(v, data, order)) && Consistent(n.nodes[v].cache)
    requires c in DoPublish(n, v, data, order).withheld
    ensures var n' := DoPublish(n, v, data, order);
            || (c in n.withheld && n.withheld[c] == n'.withheld[c])
            || (c.link.from == v && c.id !in Purged(n.nodes[v].cache, n.clock).values && Files(n', v, c.id, v)
                && Cause(n, c.link, v, n'.withheld[c]) && c.link.to != v)
  {
    hide PublishData, Spoke, Built, NodeValid, Consistent, Calm, IsOrderOf, Withhold, PublishOut, NetValid, ReasonsHold,
         Cause, Purged;
    NodeFactsOf(n, v);
    var node := n.nodes[v];
    PublishFacts(node, n.clock, data, order);
    if PublishesNew(node, data) {
      var raw := Built(node, data).value;
      var id := node.cfg.transactionId(Transaction(raw.from, raw.seqno, data));
      PurgedShrinks(node.cache, n.clock);
      WithholdCauses(n, v, v, v, id, PublishOut(node, n.clock, raw, order), c);
    }
  }

  lemma {:induction false} PurgedShrinks<K, V>(c: Cache<K, V>, now: nat)
    requires Consistent(c)
    ensures forall k :: k in Purged(c, now).values ==> k in c.values && Purged(c, now).values[k] == c.values[k]
    decreases |c.list|
  {
    if c.list != [] && c.list[0].expiration <= now {
      PopConsistent(c);
      PurgedShrinks(Popped(c), now);
    }
  }

  /** Only cache and counter differ between the node that receives and the node that forwards. */
  lemma ForwardReasons(n: Node, now: nat, m: RpcOut, source: PeerId, order: seq<PeerId>)
    requires Consistent(n.cache) && Calm(n) && source in n.peers && IsOrderOf(order, n.peers.Keys)
    requires FirstTime(n, now, m, source)
    ensures ReasonsHold(n, source, m.tx.from, DeliverOut(n, now, m, source, order))
  {
    hide Spoke, IsOrderOf, ReasonsHold, Consistent, Inserted, ForwardOut;
    ForwardFacts(n, now, m.tx, source, order);
  }

  lemma DeliverCauses(n: Net, l: Link, order: seq<PeerId>, pick: nat, c: Copy)
    requires NetValid(n) && Enabled(n, Deliver(l, order, pick)) && Consistent(n.nodes[l.to].cache)
    requires c in DoDeliver(n, l, order, pick).withheld
    ensures var n' := DoDeliver(n, l, order, pick);
            || (c in n.withheld && n.withheld[c] == n'.withheld[c])
            || (c.link.from == l.to && c.id !in Purged(n.nodes[l.to].cache, n.clock).values &&
                Files(n', l.to, c.id, l.from)
                && Cause(n, c.link, l.from, n'.withheld[c]) && c.link.to != l.from)
  {
    hide ReceiveRpc, Spoke, DeliverOut, RoutesAfter, NodeValid, Consistent, IsOrderOf, Withhold, CreditsMove, NetValid,
         Purged, ReasonsHold, Cause, Calm;
    NodeFactsOf(n, l.to);
    var node, m := n.nodes[l.to], n.wire[l][0];
    DeliverFacts(n, l, order, pick);
    if FirstTime(node, n.clock, m, l.from) {
      ForwardReasons(node, n.clock, m, l.from, order);
      WithholdCauses(n, l.to, l.from, m.tx.from, node.cfg.RawId(m.tx).value,
                     DeliverOut(node, n.clock, m, l.from, order), c);
    }
  }

  lemma StepCauses(n: Net, s: Step, c: Copy) returns (source: PeerId)
    requires NetValid(n) && (forall v :: v in n.nodes ==> Consistent(n.nodes[v].cache)) && c in Do(n, s).withheld
    ensures (c in n.withheld && n.withheld[c] == Do(n, s).withheld[c]) ||
              WithheldAt(n, s, c, source, Do(n, s).withheld[c])
  {
    hide DoPublish, DoDeliver, NetValid, Consistent, Cause, Files, AdjustRedundancy, AdjustOut, PollNext, PollStale,
         CopiesLost, Closed, NodeValid, SendQueue.Valid, Purged;
    source := c.link.from;
    if s.PublishAt? && Enabled(n, s) {
      PublishCauses(n, s.v, s.data, s.order, c);
    } else if s.Deliver? && Enabled(n, s) {
      source := s.link.from;
      DeliverCauses(n, s.link, s.order, s.pick, c);
    } else {
      OthersWithholdNothing(n, s);
    }
  }

  lemma OthersWithholdNothing(n: Net, s: Step)
    requires (forall v :: v in n.nodes ==> Consistent(n.nodes[v].cache)) &&
               !((s.PublishAt? || s.Deliver?) && Enabled(n, s))
    ensures Do(n, s).withheld == n.withheld
  {
    hide Consistent, AdjustRedundancy, AdjustOut, PollNext, PollStale, CopiesLost, Closed, Established, IsOrderOf,
         IsCreditorChoice, ResetRoutesWith;
  }

  ghost predicate WithheldDuring(n: Net, steps: seq<Step>, k: nat, c: Copy, source: PeerId, r: Reason)
    requires NetValid(n)
  {
    k < |steps| && WithheldAt(Run(n, steps[..k]), steps[k], c, source, r)
  }

  lemma DuringLonger(n: Net, steps: seq<Step>, k: nat, c: Copy, source: PeerId, r: Reason)
    requires NetValid(n) && steps != [] && WithheldDuring(n, steps[..|steps| - 1], k, c, source, r)
    ensures WithheldDuring(n, steps, k, c, source, r)
  {
    hide WithheldAt, NetValid, Run;
    assert steps[..|steps| - 1][..k] == steps[..k];
  }

  /** A copy is withheld only at the step at which its sender takes the transaction up, and for a reason
      that holds then: the route from the source to the neighbour is disabled, its queue refuses, or
      the node does not forward at all. */
  lemma {:induction false} WithheldForCause(n: Net, steps: seq<Step>, c: Copy) returns (k: nat, source: PeerId)
    requires Initial(n) && c in Run(n, steps).withheld
    ensures WithheldDuring(n, steps, k, c, source, Run(n, steps).withheld[c])
  {
    hide NetValid, Do, WithheldAt, WithheldDuring;
    InitialIsValid(n);
    var j := |steps| - 1;
    assert steps != [];
    var before := Run(n, steps[..j]);
    DoValid(before, steps[j]);
    source := StepCauses(before, steps[j], c);
    var r := Run(n, steps).withheld[c];
    if c in before.withheld && before.withheld[c] == r {
      k, source := WithheldForCause(n, steps[..j], c);
      DuringLonger(n, steps, k, c, source, r);
    } else {
      k := j;
      assert WithheldDuring(n, steps, k, c, source, r) by { LastDuring(n, steps, c, source, r); }
    }
  }

  lemma LastDuring(n: Net, steps: seq<Step>, c: Copy, source: PeerId, r: Reason)
    requires NetValid(n) && steps != [] && WithheldAt(Run(n, steps[..|steps| - 1]), steps[|steps| - 1], c, source, r)
    ensures WithheldDuring(n, steps, |steps| - 1, c, source, r)
  {
    hide WithheldAt, NetValid, Run;
  }
}

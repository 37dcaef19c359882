/** A flood comes to an end: a measure on the state that no step raises and every arrival lowers.
    A copy arrives at most once on every link. */
module FloodEnd {
  import opened Types
  import opened TimeCache
  import opened Nodes
  import opened NodeFacts
  import opened Networks
  import opened NetworkRuns
  import opened FloodSpec
  import opened FloodRefinement
  import opened FloodTheorems
  import opened FixedTopology

  /** Step `s` hands a copy of `t` to a node. */
  ghost predicate Arrives(idOf: IdOf, n: Net, s: Step, t: TxId) {
    s.Deliver? && Enabled(n, s) && IsCopy(idOf, n.wire[s.link][0], t)
  }

  /** What a step adds to the record of a link covers what it adds to the link and what arrives. */
  ghost predicate Balanced(idOf: IdOf, n: Net, n': Net, l: Link, t: TxId, arrived: nat) {
    l in n.log && l in n'.log
    && Copies(idOf, InFlight(n', l), t) + arrived + Copies(idOf, n.log[l], t) <=
         Copies(idOf, InFlight(n, l), t) + Copies(idOf, n'.log[l], t)
  }

  lemma ActBalanced(idOf: IdOf, n: Net, v: PeerId, node': Node, out: map<PeerId, RpcOut>, l: Link, t: TxId)
    requires v in n.nodes && l in n.wire && l in n.log && Spoke(n.nodes[v].peers, node'.peers, out)
    ensures Balanced(idOf, n, Act(n, v, node', out), l, t, 0)
  {
    hide Copies, Spoke, InFlight, Act;
    ActGets(idOf, n, v, node', out, l);
    ActFrame(n, v, node', out);
    var n' := Act(n, v, node', out);
    assert Copies(idOf, InFlight(n', l), t) >= 0 && Copies(idOf, n'.log[l], t) >= 0;
  }

  lemma SameBalanced(idOf: IdOf, n: Net, n1: Net, n': Net, l: Link, t: TxId, arrived: nat)
    requires Balanced(idOf, n, n1, l, t, arrived) && n'.nodes == n1.nodes && n'.wire == n1.wire && n'.log == n1.log
    ensures Balanced(idOf, n, n', l, t, arrived)
  {
    hide Copies;
  }

  lemma PublishBalanced(idOf: IdOf, n: Net, v: PeerId, data: Bytes, order: seq<PeerId>, l: Link, t: TxId)
    requires NetValid(n) && Enabled(n, PublishAt(v, data, order)) && Consistent(n.nodes[v].cache) && l in n.log
    ensures Balanced(idOf, n, DoPublish(n, v, data, order), l, t, 0)
  {
    hide PublishData, Inserted, Spoke, Built, NodeValid, Consistent, Calm, IsOrderOf, Withhold, PublishOut, NetValid,
         ReasonsHold, Balanced;
    NodeFactsOf(n, v);
    WiresAndLogs(n);
    var node := n.nodes[v];
    PublishFacts(node, n.clock, data, order);
    SpokeNothing(node.peers);
    var node' := PublishData(node, n.clock, data, order).0.node;
    var out := if PublishesNew(node, data) then PublishOut(node, n.clock, Built(node, data).value, order) else map[];
    ActBalanced(idOf, n, v, node', out, l, t);
    SameBalanced(idOf, n, Act(n, v, node', out), DoPublish(n, v, data, order), l, t, 0);
  }

  lemma DeliverBalanced(idOf: IdOf, n: Net, l: Link, order: seq<PeerId>, pick: nat, k: Link, t: TxId)
    requires NetValid(n) && Enabled(n, Deliver(l, order, pick)) && Consistent(n.nodes[l.to].cache) && k in n.log
    ensures Balanced(idOf, n, DoDeliver(n, l, order, pick), k, t,
                     if k == l && IsCopy(idOf, n.wire[l][0], t) then 1 else 0)
  {
    hide ReceiveRpc, Inserted, Spoke, DeliverOut, RoutesAfter, NodeValid, Consistent, IsOrderOf, FirstTime, Withhold,
         CreditsMove, NetValid, Copies, InFlight;
    WiresAndLogs(n);
    var node, m := n.nodes[l.to], n.wire[l][0];
    DeliverFacts(n, l, order, pick);
    var n1 := n.(wire := n.wire[l := n.wire[l][1..]]);
    var node', out := ReceiveRpc(node, n.clock, AsRpc(m), l.from, order, pick).node,
        DeliverOut(node, n.clock, m, l.from, order);
    PoppedFlight(idOf, n, l);
    ActBalanced(idOf, n1, l.to, node', out, k, t);
    SameBalanced(idOf, n1, Act(n1, l.to, node', out), DoDeliver(n, l, order, pick), k, t, 0);
    if k == l {
      assert Copies(idOf, InFlight(n1, l), t) + (if IsCopy(idOf, m, t) then 1 else 0) ==
             Copies(idOf, InFlight(n, l), t);
    }
  }

  lemma StepBalanced(idOf: IdOf, n: Net, s: Step, l: Link, t: TxId)
    requires NetValid(n) && (forall v :: v in n.nodes ==> Consistent(n.nodes[v].cache)) && l in n.log
    requires !s.Connect? && !s.Disconnect?
    ensures Balanced(idOf, n, Do(n, s), l, t, if Arrives(idOf, n, s, t) && s.link == l then 1 else 0)
  {
    hide DoPublish, DoDeliver, AdjustRedundancy, AdjustOut, Spoke, CreditsMove, Consistent, NetValid, DoTransmit,
         DoDropStale, DoLose, DoDropPeeked, SetQueue, InFlight, Copies, Act;
    if Enabled(n, s) {
      if IsLinkStep(s) {
        LinkStepFrame(n, s);
        LinkStepSubset(idOf, n, s);
        assert Copies(idOf, InFlight(Do(n, s), s.link), t) <= Copies(idOf, InFlight(n, s.link), t);
      } else if s.PublishAt? {
        PublishBalanced(idOf, n, s.v, s.data, s.order, l, t);
      } else if s.Deliver? {
        DeliverBalanced(idOf, n, s.link, s.order, s.pick, l, t);
      } else if s.Tick? {
        WiresAndLogs(n);
        AdjustFacts(n.nodes[s.v], s.choice);
        ActBalanced(idOf, n, s.v, AdjustRedundancy(n.nodes[s.v], s.choice).node, AdjustOut(n.nodes[s.v], s.choice), l,
                    t);
      } else {
        AdvanceInFlight(n, s.d, l);
      }
    }
  }

  lemma AdvanceInFlight(n: Net, d: nat, l: Link)
    ensures InFlight(n.(clock := n.clock + d), l) == InFlight(n, l)
  {}

  // ---- Arrivals over a run ----

  /** How often a copy of `t` has arrived over `l`. */
  ghost function ArrivalsOn(idOf: IdOf, n: Net, steps: seq<Step>, l: Link, t: TxId): nat
    requires NetValid(n)
  {
    if steps == [] then 0
    else
      var k := |steps| - 1;
      ArrivalsOn(idOf, n, steps[..k], l, t) + if Arrives(idOf, Run(n, steps[..k]), steps[k], t) && steps[k].link == l
          then 1 else 0
  }

  /** How often a copy of `t` has arrived anywhere. */
  ghost function Arrivals(idOf: IdOf, n: Net, steps: seq<Step>, t: TxId): nat
    requires NetValid(n)
  {
    if steps == [] then 0
    else
      var k := |steps| - 1;
      Arrivals(idOf, n, steps[..k], t) + if Arrives(idOf, Run(n, steps[..k]), steps[k], t) then 1 else 0
  }

  ghost predicate Nowhere(idOf: IdOf, n: Net, l: Link, t: TxId) {
    l !in n.log || (Copies(idOf, InFlight(n, l), t) == 0 && Copies(idOf, n.log[l], t) == 0)
  }

  lemma InitialNowhere(idOf: IdOf, n: Net, l: Link, t: TxId)
    requires Initial(n)
    ensures Nowhere(idOf, n, l, t)
  {
    hide NetValid, NodeValid;
    InitialInFlight(n, l);
  }

  /** What has arrived and what is on its way never exceed what was accepted. */
  lemma {:induction false} ArrivalsCovered(idOf: IdOf, n: Net, steps: seq<Step>, l: Link, t: TxId)
    requires Initial(n) && Static(steps) && l in n.log
    ensures l in Run(n, steps).log
    ensures ArrivalsOn(idOf, n, steps, l, t) + Copies(idOf, InFlight(Run(n, steps), l), t) <=
              Copies(idOf, Run(n, steps).log[l], t)
  {
    hide Initial, NetValid, Do, Copies, InFlight, Arrives;
    InitialIsValid(n);
    if steps == [] {
      InitialNowhere(idOf, n, l, t);
    } else {
      var k := |steps| - 1;
      assert steps[k] in steps && forall s :: s in steps[..k] ==> s in steps;
      ArrivalsCovered(idOf, n, steps[..k], l, t);
      DoValid(Run(n, steps[..k]), steps[k]);
      StepBalanced(idOf, Run(n, steps[..k]), steps[k], l, t);
    }
  }

  /** In an honest run over a fixed graph no link delivers a transaction twice. */
  lemma OneArrivalPerLink(idOf: IdOf, n: Net, steps: seq<Step>, horizon: nat, l: Link, t: TxId)
    requires HonestRun(idOf, n, steps, horizon) && Static(steps) && l in n.log
    ensures ArrivalsOn(idOf, n, steps, l, t) <= 1
    ensures ArrivalsOn(idOf, n, steps, l, t) == 1 ==>
              l in CopyLinks(idOf, Abs(Run(n, steps)), t) && Copies(idOf, InFlight(Run(n, steps), l), t) == 0
  {
    hide Initial, Assumptions, FloodInvariant, Copies, InFlight, ArrivalsOn, NetValid, Static;
    InitialIsValid(n);
    ArrivalsCovered(idOf, n, steps, l, t);
    RunFlood(idOf, n, steps, horizon);
    var a := Abs(Run(n, steps));
    RecordAtMostOne(idOf, a, l, t);
  }

  lemma RecordAtMostOne(idOf: IdOf, a: Flood, l: Link, t: TxId)
    requires FloodInvariant(idOf, a) && l in a.sent
    ensures Copies(idOf, a.sent[l], t) <= 1
  {
    hide Copies, HaveTxsFit, SentFirst, SourceFits, IsRooted;
    assert LinkFits(idOf, a, l, a.sent[l]);
  }

  // ---- What is still to come ----

  /** The links with a copy of `t` under way. */
  ghost function UnderWay(idOf: IdOf, n: Net, t: TxId): set<Link> {
    set l | l in n.log && Copies(idOf, InFlight(n, l), t) > 0
  }

  /** What the flood of `t` has left on a graph with E edges: of the 2E copies there can be, those not
      yet accepted by a queue and those under way. It is read off the state alone. */
  ghost function Remaining(idOf: IdOf, n0: Net, n: Net, t: TxId): int {
    2 * |Edges(n0)| - |AcceptedCopies(idOf, Abs(n), t)| + |UnderWay(idOf, n, t)|
  }

  /** The links over which a copy of `t` went and is gone. */
  ghost function Settled(idOf: IdOf, n: Net, t: TxId): set<Link> {
    set l | l in n.log && Copies(idOf, n.log[l], t) > 0 && Copies(idOf, InFlight(n, l), t) == 0
  }

  lemma RecordOnce(idOf: IdOf, n: Net, l: Link, t: TxId)
    requires FloodInvariant(idOf, Abs(n)) && l in n.log
    ensures Copies(idOf, n.log[l], t) <= 1
  {
    hide FloodInvariant, Copies, InFlight;
    RecordAtMostOne(idOf, Abs(n), l, t);
  }

  ghost predicate FlightOnRecord(idOf: IdOf, n: Net, t: TxId) {
    forall l :: l in n.log ==> Copies(idOf, InFlight(n, l), t) <= Copies(idOf, n.log[l], t)
  }

  lemma RunFlightOnRecord(idOf: IdOf, n: Net, steps: seq<Step>, t: TxId)
    requires Initial(n) && Static(steps)
    ensures FlightOnRecord(idOf, Run(n, steps), t)
  {
    hide Initial, NetValid, Run, Copies, InFlight, Static, ArrivalsOn;
    InitialIsValid(n);
    RunLogs(n, steps);
    forall l | l in Run(n, steps).log
      ensures Copies(idOf, InFlight(Run(n, steps), l), t) <= Copies(idOf, Run(n, steps).log[l], t)
    {
      ArrivalsCovered(idOf, n, steps, l, t);
    }
  }

  lemma RunLogs(n: Net, steps: seq<Step>)
    requires Initial(n)
    ensures Run(n, steps).log.Keys == n.log.Keys
  {
    hide Initial, NodeValid, Run;
    InitialIsValid(n);
    RunNodes(n, steps);
  }

  /** What remains of a flood is twice the edges less the links that are done with. */
  lemma RemainingIsUnsettled(idOf: IdOf, n0: Net, n: Net, t: TxId)
    requires FloodInvariant(idOf, Abs(n)) && FlightOnRecord(idOf, n, t)
    ensures Remaining(idOf, n0, n, t) == 2 * |Edges(n0)| - |Settled(idOf, n, t)|
  {
    hide FloodInvariant, AcceptedCopies, Copies, InFlight, Edges;
    var a := Abs(n);
    CopiesAreLinks(idOf, a, t);
    assert CopyLinks(idOf, a, t) == Settled(idOf, n, t) + UnderWay(idOf, n, t);
    assert Settled(idOf, n, t) !! UnderWay(idOf, n, t);
  }

  /** A link that is done with stays so, and an arrival settles its link. */
  lemma StepSettles(idOf: IdOf, n: Net, s: Step, t: TxId)
    requires NetValid(n) && (forall v :: v in n.nodes ==> Consistent(n.nodes[v].cache))
    requires !s.Connect? && !s.Disconnect? && n.log.Keys == Do(n, s).log.Keys
    requires FlightOnRecord(idOf, n, t) && FloodInvariant(idOf, Abs(Do(n, s)))
    ensures Settled(idOf, n, t) <= Settled(idOf, Do(n, s), t)
    ensures Arrives(idOf, n, s, t) ==>
              s.Deliver? && s.link in Settled(idOf, Do(n, s), t) && s.link !in Settled(idOf, n, t)
  {
    hide NetValid, Consistent, Do, FloodInvariant, Copies, Abs, InFlight, Arrives;
    var n' := Do(n, s);
    forall l | l in Settled(idOf, n, t)
      ensures l in Settled(idOf, n', t)
    {
      StepBalanced(idOf, n, s, l, t);
      RecordOnce(idOf, n', l, t);
    }
    if Arrives(idOf, n, s, t) {
      ArrivesOnWire(idOf, n, s, t);
      var l := s.link;
      StepBalanced(idOf, n, s, l, t);
      RecordOnce(idOf, n', l, t);
    }
  }

  lemma ArrivesOnWire(idOf: IdOf, n: Net, s: Step, t: TxId)
    requires NetValid(n) && Arrives(idOf, n, s, t)
    ensures s.Deliver? && s.link in n.log && Copies(idOf, InFlight(n, s.link), t) > 0
  {
    hide NetValid, Copies, InFlight;
    WiresAndLogs(n);
    PoppedFlight(idOf, n, s.link);
    var n1 := n.(wire := n.wire[s.link := n.wire[s.link][1..]]);
    assert Copies(idOf, InFlight(n1, s.link), t) >= 0;
  }

  /** What the reachable states of an honest run over a fixed graph have in common. */
  lemma ReachedFacts(idOf: IdOf, n: Net, steps: seq<Step>, horizon: nat, t: TxId)
    requires HonestRun(idOf, n, steps, horizon) && Static(steps)
    ensures Initial(n) && Run(n, steps).log.Keys == n.log.Keys
    ensures FloodInvariant(idOf, Abs(Run(n, steps))) && FlightOnRecord(idOf, Run(n, steps), t)
    ensures forall v :: v in Run(n, steps).nodes ==> Consistent(Run(n, steps).nodes[v].cache)
  {
    hide Initial, Assumptions, FloodInvariant, Abs, Run, Static, FlightOnRecord, Consistent;
    InitialIsValid(n);
    RunFlood(idOf, n, steps, horizon);
    RunFlightOnRecord(idOf, n, steps, t);
    RunLogs(n, steps);
    AllConsistent(Run(n, steps));
  }

  /** No step of a run raises what remains of a flood, and every arrival lowers it. */
  lemma StepUsesUp(idOf: IdOf, n: Net, steps: seq<Step>, horizon: nat, t: TxId)
    requires HonestRun(idOf, n, steps, horizon) && Static(steps) && steps != []
    ensures var k := |steps| - 1;
            var before, after := Remaining(idOf, n, Run(n, steps[..k]), t), Remaining(idOf, n, Run(n, steps), t);
            after <= before && (Arrives(idOf, Run(n, steps[..k]), steps[k], t) ==> after < before)
  {
    hide Initial, NetValid, Assumptions, FloodInvariant, Abs, FlightOnRecord, Consistent, Do, Remaining, Settled,
         Arrives, Edges;
    var k := |steps| - 1;
    InitialIsValid(n);
    HonestPrefix(idOf, n, steps, horizon, k);
    StaticPrefix(steps, k);
    ReachedFacts(idOf, n, steps, horizon, t);
    ReachedFacts(idOf, n, steps[..k], horizon, t);
    var before, after := Run(n, steps[..k]), Run(n, steps);
    assert after == Do(before, steps[k]) && steps[k] in steps;
    StepSettles(idOf, before, steps[k], t);
    RemainingIsUnsettled(idOf, n, before, t);
    RemainingIsUnsettled(idOf, n, after, t);
    var old', new' := Settled(idOf, before, t), Settled(idOf, after, t);
    Smaller(old', new');
    if Arrives(idOf, before, steps[k], t) {
      Smaller(old' + {steps[k].link}, new');
    }
  }

  lemma StaticPrefix(steps: seq<Step>, k: nat)
    requires Static(steps) && k <= |steps|
    ensures Static(steps[..k])
  {
    assert forall s :: s in steps[..k] ==> s in steps;
  }

  lemma InitialRemaining(idOf: IdOf, n: Net, t: TxId)
    requires Initial(n)
    ensures Remaining(idOf, n, n, t) == 2 * |Edges(n)|
  {
    hide NetValid, NodeValid, Edges;
    forall l | l in n.log
      ensures Copies(idOf, InFlight(n, l), t) == 0
    {
      InitialInFlight(n, l);
    }
    assert UnderWay(idOf, n, t) == {};
    assert AcceptedCopies(idOf, Abs(n), t) == {};
  }

  lemma {:induction false} ArrivalsUseUp(idOf: IdOf, n: Net, steps: seq<Step>, horizon: nat, t: TxId)
    requires HonestRun(idOf, n, steps, horizon) && Static(steps)
    ensures Arrivals(idOf, n, steps, t) + Remaining(idOf, n, Run(n, steps), t) <= 2 * |Edges(n)|
  {
    hide Initial, NetValid, Assumptions, Remaining, Arrives, Edges, Do;
    InitialIsValid(n);
    if steps == [] {
      InitialRemaining(idOf, n, t);
    } else {
      HonestPrefix(idOf, n, steps, horizon, |steps| - 1);
      StaticPrefix(steps, |steps| - 1);
      ArrivalsUseUp(idOf, n, steps[..|steps| - 1], horizon, t);
      StepUsesUp(idOf, n, steps, horizon, t);
    }
  }

  /** The flood of a transaction ends. What remains of it is never negative, and never less than the
      holders besides the author; no step of a run over a fixed graph raises it and every arrival of
      a copy lowers it, so that on a graph with E edges at most 2E copies ever arrive, and one less
      for every holder besides the author. */
  lemma FloodEnds(idOf: IdOf, n: Net, steps: seq<Step>, horizon: nat, t: TxId)
    requires HonestRun(idOf, n, steps, horizon) && NamesAuthor(idOf, n.nodes.Keys) && Static(steps) && Watched(idOf, t)
    ensures var remaining, holders := Remaining(idOf, n, Run(n, steps), t), |Holders(Abs(Run(n, steps)), t)|;
            && remaining >= 0 && (holders > 0 ==> remaining >= holders - 1)
            && Arrivals(idOf, n, steps, t) + remaining <= 2 * |Edges(n)|
    ensures steps != [] ==>
              var k := |steps| - 1;
              var before, after := Remaining(idOf, n, Run(n, steps[..k]), t), Remaining(idOf, n, Run(n, steps), t);
              after <= before && (Arrives(idOf, Run(n, steps[..k]), steps[k], t) ==> after < before)
  {
    hide HonestRun, NamesAuthor, Static, Arrives, Edges, AcceptedCopies, UnderWay, Holders, Abs, Run;
    HonestInitial(idOf, n, steps, horizon);
    ArrivalsUseUp(idOf, n, steps, horizon, t);
    CopyBound(idOf, n, steps, horizon, t);
    if steps != [] {
      StepUsesUp(idOf, n, steps, horizon, t);
    }
  }
}

/** Floods over a fixed graph: how many copies there can be, and who has the transaction when no
    copy is on its way any more. */
module FixedTopology {
  import opened Types
  import opened TimeCache
  import opened SendQueues
  import opened Nodes
  import opened NodeFacts
  import opened Networks
  import opened NetworkRuns
  import opened FloodSpec
  import opened FloodRefinement
  import opened FloodTheorems

  /** Nobody connects or disconnects. */
  ghost predicate Static(steps: seq<Step>) {
    forall s :: s in steps ==> !s.Connect? && !s.Disconnect?
  }

  /** The peers are those of `n0`, and messages have been sent along its links only. */
  ghost predicate SameTopology(n0: Net, n: Net) {
    && n.nodes.Keys == n0.nodes.Keys
    && (forall v :: v in n.nodes ==>
        n.nodes[v].peers.Keys == n0.nodes[v].peers.Keys && n.nodes[v].cfg == n0.nodes[v].cfg)
    && (forall l :: l in n.log && n.log[l] != [] ==> Connected(n0, l))
  }

  lemma ActTopology(n0: Net, n: Net, v: PeerId, node': Node, out: map<PeerId, RpcOut>)
    requires SameTopology(n0, n) && v in n.nodes && Spoke(n.nodes[v].peers, node'.peers, out)
    requires node'.cfg == n.nodes[v].cfg
    ensures SameTopology(n0, Act(n, v, node', out))
  {
    hide Took;
  }

  lemma SameLogTopology(n0: Net, n: Net, n': Net)
    requires SameTopology(n0, n) && n'.log == n.log && n'.nodes.Keys == n.nodes.Keys
    requires forall v :: v in n.nodes ==>
               n'.nodes[v].peers.Keys == n.nodes[v].peers.Keys && n'.nodes[v].cfg == n.nodes[v].cfg
    ensures SameTopology(n0, n')
  {}

  lemma PublishTopology(n0: Net, n: Net, v: PeerId, data: Bytes, order: seq<PeerId>)
    requires NetValid(n) && Enabled(n, PublishAt(v, data, order)) && Consistent(n.nodes[v].cache) && SameTopology(n0, n)
    ensures SameTopology(n0, DoPublish(n, v, data, order))
  {
    hide PublishData, Inserted, Spoke, Built, NodeValid, Consistent, Calm, IsOrderOf, Withhold, PublishOut, NetValid,
         SameTopology, ReasonsHold;
    NodeFactsOf(n, v);
    var node := n.nodes[v];
    PublishFacts(node, n.clock, data, order);
    SpokeNothing(node.peers);
    var node' := PublishData(node, n.clock, data, order).0.node;
    var out := if PublishesNew(node, data) then PublishOut(node, n.clock, Built(node, data).value, order) else map[];
    ActTopology(n0, n, v, node', out);
    SameLogTopology(n0, Act(n, v, node', out), DoPublish(n, v, data, order));
  }

  lemma DeliverTopology(n0: Net, n: Net, l: Link, order: seq<PeerId>, pick: nat)
    requires NetValid(n) && Enabled(n, Deliver(l, order, pick)) && Consistent(n.nodes[l.to].cache)
    requires SameTopology(n0, n)
    ensures SameTopology(n0, DoDeliver(n, l, order, pick))
  {
    hide ReceiveRpc, Inserted, Spoke, DeliverOut, RoutesAfter, NodeValid, Consistent, IsOrderOf, FirstTime, Withhold,
         CreditsMove, NetValid, SameTopology;
    var node, m := n.nodes[l.to], n.wire[l][0];
    DeliverFacts(n, l, order, pick);
    var n1 := n.(wire := n.wire[l := n.wire[l][1..]]);
    var node', out := ReceiveRpc(node, n.clock, AsRpc(m), l.from, order, pick).node,
        DeliverOut(node, n.clock, m, l.from, order);
    SameLogTopology(n0, n, n1);
    ActTopology(n0, n1, l.to, node', out);
    SameLogTopology(n0, Act(n1, l.to, node', out), DoDeliver(n, l, order, pick));
  }

  lemma StepTopology(n0: Net, n: Net, s: Step)
    requires NetValid(n) && (forall v :: v in n.nodes ==> Consistent(n.nodes[v].cache)) && SameTopology(n0, n)
    requires !s.Connect? && !s.Disconnect?
    ensures SameTopology(n0, Do(n, s))
  {
    hide DoPublish, DoDeliver, AdjustRedundancy, AdjustOut, Spoke, CreditsMove, Consistent, NetValid, DoTransmit,
         DoDropStale, DoLose, DoDropPeeked, SetQueue, SameTopology, InFlight;
    if Enabled(n, s) {
      if IsLinkStep(s) {
        LinkStepFrame(n, s);
        SameLogTopology(n0, n, Do(n, s));
      } else if s.PublishAt? {
        PublishTopology(n0, n, s.v, s.data, s.order);
      } else if s.Deliver? {
        DeliverTopology(n0, n, s.link, s.order, s.pick);
      } else if s.Tick? {
        AdjustFacts(n.nodes[s.v], s.choice);
        ActTopology(n0, n, s.v, AdjustRedundancy(n.nodes[s.v], s.choice).node, AdjustOut(n.nodes[s.v], s.choice));
      } else {
        SameLogTopology(n0, n, Do(n, s));
      }
    }
  }

  lemma InitialTopology(n: Net)
    requires Initial(n)
    ensures SameTopology(n, n)
  {
    hide NetValid, NodeValid;
  }

  lemma {:induction false} RunTopology(n: Net, steps: seq<Step>)
    requires Initial(n) && Static(steps)
    ensures SameTopology(n, Run(n, steps))
  {
    hide Initial, NetValid, Do, SameTopology;
    InitialIsValid(n);
    if steps == [] {
      InitialTopology(n);
    } else {
      var k := |steps| - 1;
      assert steps[k] in steps && forall s :: s in steps[..k] ==> s in steps;
      RunTopology(n, steps[..k]);
      DoValid(Run(n, steps[..k]), steps[k]);
      StepTopology(n, Run(n, steps[..k]), steps[k]);
    }
  }

  // ---- Copy bound ----

  ghost function ConnectedLinks(n: Net): set<Link> {
    set v, p | v in n.nodes && p in n.nodes[v].peers :: Link(v, p)
  }

  /** The edges of the graph: of the two links between connected nodes, the one that goes up. */
  ghost function Edges(n: Net): set<Link> {
    set l | l in ConnectedLinks(n) && l.from.key < l.to.key
  }

  lemma {:induction false} AsManyBack(s: set<Link>)
    ensures |set l | l in s :: Back(l)| == |s|
  {
    if s != {} {
      var x :| x in s;
      AsManyBack(s - {x});
      assert (set l | l in s :: Back(l)) == (set l | l in s - {x} :: Back(l)) + {Back(x)};
    }
  }

  /** Every edge is two links. */
  lemma TwoLinksPerEdge(n: Net)
    requires NetValid(n)
    ensures |ConnectedLinks(n)| == 2 * |Edges(n)|
  {
    hide NetValid;
    var up, down := Edges(n), set l | l in Edges(n) :: Back(l);
    AsManyBack(up);
    forall l | l in ConnectedLinks(n)
      ensures Back(l) in ConnectedLinks(n) && (l in up || l in down)
    {
      LinkGoesBothWays(n, l);
      assert Back(Back(l)) == l;
    }
    assert ConnectedLinks(n) == up + down;
    assert up !! down;
  }

  lemma LinkGoesBothWays(n: Net, l: Link)
    requires NetValid(n) && l in ConnectedLinks(n)
    ensures Back(l) in ConnectedLinks(n) && l.from.key != l.to.key
  {
    hide Consistent, SendQueue.Valid;
    assert NodeValid(n.nodes[l.from], l.from, n.nodes.Keys);
    assert Connected(n, l);
  }

  /** On a graph with E edges, while R nodes hold a watched transaction, at least R - 1 and at most
      2E - (R - 1) copies of it have been accepted, each on a link of its own. */
  lemma CopyBound(idOf: IdOf, n: Net, steps: seq<Step>, horizon: nat, t: TxId)
    requires HonestRun(idOf, n, steps, horizon) && NamesAuthor(idOf, n.nodes.Keys) && Static(steps) && Watched(idOf, t)
    ensures var a := Abs(Run(n, steps));
            var copies, holders := |AcceptedCopies(idOf, a, t)|, |Holders(a, t)|;
            && (holders == 0 ==> copies == 0)
            && (holders > 0 ==> holders - 1 <= copies <= 2 * |Edges(n)| - (holders - 1))
  {
    hide Initial, Assumptions, FloodInvariant, AcceptedCopies, CopyLinks, Holders, Receivers, TreeLinks, BackLinks,
         Copies, Static, Abs, NamesAuthor;
    InitialIsValid(n);
    RunFlood(idOf, n, steps, horizon);
    RunTopology(n, steps);
    var a := Abs(Run(n, steps));
    CopiesAreLinks(idOf, a, t);
    TreeAndBackLinks(idOf, a, t);
    TreeLinkCounts(a, t);
    TwoLinksPerEdge(n);
    CopyLinksConnected(idOf, n, Run(n, steps), t);
    if Holders(a, t) != {} {
      AbsKnows(Run(n, steps));
      OneAuthor(idOf, a, t);
      Fits(CopyLinks(idOf, a, t), BackLinks(a, t), ConnectedLinks(n));
      Smaller(TreeLinks(a, t), CopyLinks(idOf, a, t));
    } else {
      NobodyNothing(idOf, a, t);
    }
  }

  lemma AbsKnows(n: Net)
    ensures Abs(n).know.Keys == n.nodes.Keys
  {
    hide InFlight;
  }

  lemma Smaller<T>(s: set<T>, u: set<T>)
    requires s <= u
    ensures |s| <= |u|
  {
    assert u == s + (u - s);
  }

  lemma Fits<T>(s: set<T>, r: set<T>, u: set<T>)
    requires s !! r && s <= u && r <= u
    ensures |s| + |r| <= |u|
  {
    assert |s + r| == |s| + |r|;
    Smaller(s + r, u);
  }

  lemma NobodyNothing(idOf: IdOf, a: Flood, t: TxId)
    requires FloodInvariant(idOf, a) && Holders(a, t) == {}
    ensures CopyLinks(idOf, a, t) == {}
  {
    hide Copies, HaveTxsFit, SentFirst, IsRooted;
    forall l | l in CopyLinks(idOf, a, t)
      ensures l.from in Holders(a, t)
    {
      CopyAt(idOf, a.sent[l], t);
      var i :| 0 <= i < |a.sent[l]| && IsCopy(idOf, a.sent[l][i], t);
      assert LinkFits(idOf, a, l, a.sent[l]);
      assert CopyFits(a, l, a.sent[l][i], t);
    }
  }

  /** Copies, and with them tree edges, stay on the links of the graph. */
  lemma CopyLinksConnected(idOf: IdOf, n0: Net, n: Net, t: TxId)
    requires NetValid(n0) && SameTopology(n0, n) && FloodInvariant(idOf, Abs(n)) && Watched(idOf, t)
    ensures CopyLinks(idOf, Abs(n), t) <= ConnectedLinks(n0) && BackLinks(Abs(n), t) <= ConnectedLinks(n0)
  {
    hide FloodInvariant, NodeValid;
    var a := Abs(n);
    forall l | l in CopyLinks(idOf, a, t)
      ensures l in ConnectedLinks(n0)
    {
      assert n.log[l] != [];
    }
    forall v | v in Receivers(a, t)
      ensures Link(v, a.know[v][t]) in ConnectedLinks(n0)
    {
      assert a.Holds(v, t);
      SourceSentOnce(idOf, a, v, t);
      assert Link(a.know[v][t], v) in ConnectedLinks(n0);
    }
  }
}

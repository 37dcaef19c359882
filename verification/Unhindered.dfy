/** Settings under which nothing stands in the way of a flood: nobody complains about duplicates or
    nobody listens to complaints, queues have room for the whole run, and no message can time out. */
module Unhindered {
  import opened Types
  import opened TimeCache
  import opened Routing
  import opened SendQueues
  import opened Nodes
  import opened NodeFacts
  import opened Networks
  import opened NetworkRuns
  import opened Credit
  import opened FloodSpec
  import opened FloodRefinement
  import opened FloodTheorems
  import opened FixedTopology
  import opened FloodDelivery
  import opened Withholding
  import opened Delivery

  // ---- No route is disabled ----

  ghost predicate NobodyListens(n: Net) {
    forall v :: v in n.nodes ==> n.nodes[v].cfg.ignoreHaveTx
  }

  ghost predicate NobodyComplains(n: Net) {
    forall v :: v in n.nodes ==> !n.nodes[v].cfg.sendHaveTx
  }

  ghost predicate NoComplaint(s: seq<RpcOut>) {
    forall m :: m in s ==> !m.HaveTx?
  }

  ghost predicate NoComplaints(n: Net) {
    forall l {:trigger InFlight(n, l)} :: l in n.wire ==> NoComplaint(InFlight(n, l))
  }

  ghost predicate Uncut(n: Net) {
    NothingDisabled(n) && (NobodyListens(n) || (NobodyComplains(n) && NoComplaints(n)))
  }

  lemma ActUncut(n: Net, v: PeerId, node': Node, out: map<PeerId, RpcOut>)
    requires n.wire.Keys == n.log.Keys && v in n.nodes && Spoke(n.nodes[v].peers, node'.peers, out) && Uncut(n)
    requires node'.cfg == n.nodes[v].cfg && node'.router.disabled == []
    requires NobodyListens(n) || forall p :: p in out ==> !out[p].HaveTx?
    ensures Uncut(Act(n, v, node', out))
  {
    hide Spoke, InFlight, Act, Copies;
    var n' := Act(n, v, node', out);
    ActFrame(n, v, node', out);
    if !NobodyListens(n) {
      forall l | l in n'.wire
        ensures NoComplaint(InFlight(n', l))
      {
        ActGets(raw => None, n, v, node', out, l);
        assert NoComplaint(InFlight(n, l));
      }
    }
  }

  lemma SameUncut(n: Net, n': Net)
    requires Uncut(n) && n'.nodes.Keys == n.nodes.Keys && n'.wire.Keys == n.wire.Keys
    requires forall v :: v in n.nodes ==> n'.nodes[v].cfg == n.nodes[v].cfg && n'.nodes[v].router == n.nodes[v].router
    requires forall l, m {:trigger m in InFlight(n', l)} :: l in n.wire && m in InFlight(n', l) ==> m in InFlight(n, l)
    ensures Uncut(n')
  {
    hide InFlight;
    if !NobodyListens(n) {
      forall l | l in n'.wire
        ensures NoComplaint(InFlight(n', l))
      {
        assert NoComplaint(InFlight(n, l));
      }
    }
  }

  lemma PublishUncut(n: Net, v: PeerId, data: Bytes, order: seq<PeerId>)
    requires NetValid(n) && Enabled(n, PublishAt(v, data, order)) && Consistent(n.nodes[v].cache) && Uncut(n)
    ensures Uncut(DoPublish(n, v, data, order))
  {
    hide PublishData, Inserted, Spoke, Built, NodeValid, Consistent, Calm, IsOrderOf, Withhold, PublishOut, NetValid,
         ReasonsHold, InFlight, NobodyListens, Act, Uncut;
    NodeFactsOf(n, v);
    WiresAndLogs(n);
    var node := n.nodes[v];
    PublishFacts(node, n.clock, data, order);
    SpokeNothing(node.peers);
    UncutMeans(n, v);
    var node' := PublishData(node, n.clock, data, order).0.node;
    var out := if PublishesNew(node, data) then PublishOut(node, n.clock, Built(node, data).value, order) else map[];
    ActUncut(n, v, node', out);
    WithheldAside(Act(n, v, node', out), DoPublish(n, v, data, order));
  }

  lemma UncutMeans(n: Net, v: PeerId)
    requires Uncut(n) && v in n.nodes
    ensures n.nodes[v].router.disabled == []
    ensures n.nodes[v].cfg.ignoreHaveTx ||
              (!n.nodes[v].cfg.sendHaveTx && forall l :: l in n.wire ==> NoComplaint(InFlight(n, l)))
    ensures NobodyListens(n) || !n.nodes[v].cfg.sendHaveTx
  {
    hide InFlight, NoComplaint;
  }

  lemma WithheldAside(n: Net, n': Net)
    requires Uncut(n) && n' == n.(withheld := n'.withheld)
    ensures Uncut(n')
  {
    forall l
      ensures InFlight(n', l) == InFlight(n, l)
    {}
    hide InFlight;
    SameUncut(n, n');
  }

  /** What a node makes of a message when it has no route disabled. */
  lemma RoutesStayOpen(node: Node, m: RpcOut, source: PeerId, pick: nat)
    requires node.router.disabled == [] && (m.HaveTx? ==> node.cfg.ignoreHaveTx)
    ensures RoutesAfter(node, m, source, pick) == []
  {}

  lemma SaysNoHaveTx(node: Node, now: nat, m: RpcOut, source: PeerId, order: seq<PeerId>)
    requires Consistent(node.cache) && !node.cfg.sendHaveTx
    ensures forall p :: p in DeliverOut(node, now, m, source, order) ==>
              !DeliverOut(node, now, m, source, order)[p].HaveTx?
  {
    hide FilterValid, ForwardCandidates, Consistent, Inserted;
  }

  lemma PoppedUncut(n: Net, l: Link)
    requires Uncut(n) && l in n.wire && n.wire[l] != []
    ensures Uncut(n.(wire := n.wire[l := n.wire[l][1..]]))
    ensures n.wire[l][0] in InFlight(n, l)
  {
    hide InFlight, Uncut;
    PoppedFlight(raw => None, n, l);
    SameUncut(n, n.(wire := n.wire[l := n.wire[l][1..]]));
  }

  lemma DeliverUncut(n: Net, l: Link, order: seq<PeerId>, pick: nat)
    requires NetValid(n) && Enabled(n, Deliver(l, order, pick)) && Consistent(n.nodes[l.to].cache) && Uncut(n)
    ensures Uncut(DoDeliver(n, l, order, pick))
  {
    hide ReceiveRpc, Inserted, Spoke, DeliverOut, RoutesAfter, NodeValid, Consistent, IsOrderOf, FirstTime, Withhold,
         CreditsMove, NetValid, InFlight, NobodyListens, Act, Uncut;
    WiresAndLogs(n);
    var node, m := n.nodes[l.to], n.wire[l][0];
    DeliverFacts(n, l, order, pick);
    UncutMeans(n, l.to);
    PoppedUncut(n, l);
    var n1 := n.(wire := n.wire[l := n.wire[l][1..]]);
    var node', out := ReceiveRpc(node, n.clock, AsRpc(m), l.from, order, pick).node,
        DeliverOut(node, n.clock, m, l.from, order);
    RoutesStayOpen(node, m, l.from, pick);
    if !NobodyListens(n) {
      SaysNoHaveTx(node, n.clock, m, l.from, order);
    }
    assert NobodyListens(n) ==> NobodyListens(n1) by { Listening(n, n1); }
    ActUncut(n1, l.to, node', out);
    WithheldAside(Act(n1, l.to, node', out), DoDeliver(n, l, order, pick));
  }

  lemma Listening(n: Net, n': Net)
    requires n'.nodes == n.nodes
    ensures NobodyListens(n') <==> NobodyListens(n)
  {}

  lemma StepUncut(n: Net, s: Step)
    requires NetValid(n) && Uncut(n) && !s.Connect? && !s.Disconnect?
    ensures Uncut(After(n, s))
  {
    hide DoPublish, DoDeliver, AdjustRedundancy, AdjustOut, Spoke, CreditsMove, Consistent, NetValid, DoTransmit,
         DoDropStale, DoLose, DoDropPeeked, SetQueue, InFlight, Act, Uncut, Copies;
    AllConsistent(n);
    if Enabled(n, s) {
      if IsLinkStep(s) {
        LinkStepFrame(n, s);
        LinkStepSubset(raw => None, n, s);
        SameUncut(n, Do(n, s));
      } else if s.PublishAt? {
        PublishUncut(n, s.v, s.data, s.order);
      } else if s.Deliver? {
        DeliverUncut(n, s.link, s.order, s.pick);
      } else if s.Tick? {
        WiresAndLogs(n);
        UncutMeans(n, s.v);
        AdjustFacts(n.nodes[s.v], s.choice);
        OnlyResets(n.nodes[s.v], s.choice);
        ActUncut(n, s.v, AdjustRedundancy(n.nodes[s.v], s.choice).node, AdjustOut(n.nodes[s.v], s.choice));
      } else {
        ClockAside(n, s.d);
      }
    }
  }

  lemma OnlyResets(n: Node, choice: Option<PeerId>)
    ensures forall p :: p in AdjustOut(n, choice) ==> AdjustOut(n, choice)[p] == ResetRoute
  {}

  lemma ClockAside(n: Net, d: nat)
    requires Uncut(n)
    ensures Uncut(n.(clock := n.clock + d))
  {
    forall l
      ensures InFlight(n.(clock := n.clock + d), l) == InFlight(n, l)
    {}
    hide InFlight;
    SameUncut(n, n.(clock := n.clock + d));
  }

  lemma {:induction false} RunUncut(n: Net, steps: seq<Step>)
    requires Initial(n) && Static(steps) && (NobodyListens(n) || NobodyComplains(n))
    ensures Uncut(Run(n, steps))
  {
    hide Initial, NetValid, Do, Uncut;
    InitialIsValid(n);
    if steps == [] {
      InitialUncut(n);
    } else {
      var k := |steps| - 1;
      assert steps[k] in steps && forall s :: s in steps[..k] ==> s in steps;
      RunUncut(n, steps[..k]);
      StepUncut(Run(n, steps[..k]), steps[k]);
    }
  }

  lemma InitialUncut(n: Net)
    requires Initial(n) && (NobodyListens(n) || NobodyComplains(n))
    ensures Uncut(n)
  {
    hide NetValid, InFlight;
    forall l
      ensures InFlight(n, l) == []
    {
      InitialInFlight(n, l);
    }
  }

  // ---- Room in the queues ----

  /** After `k` steps no queue has taken more than `k` messages of either bounded kind. */
  ghost predicate QueueRoom(q: SendQueue, queueLen: nat, k: nat) {
    q.cap == queueLen / 2 && q.len <= k && |q.nonPriority| <= k
  }

  ghost predicate Room(n: Net, k: nat) {
    forall v, p {:trigger p in n.nodes[v].peers} ::
      v in n.nodes && p in n.nodes[v].peers ==> QueueRoom(n.nodes[v].peers[p].queue, n.nodes[v].cfg.queueLen, k)
  }

  lemma ActRoom(n: Net, v: PeerId, node': Node, out: map<PeerId, RpcOut>, k: nat)
    requires v in n.nodes && Spoke(n.nodes[v].peers, node'.peers, out) && node'.cfg == n.nodes[v].cfg && Room(n, k)
    ensures Room(Act(n, v, node', out), k + 1)
  {
    hide SendQueue.Valid;
    var n' := Act(n, v, node', out);
    forall u, p {:trigger p in n'.nodes[u].peers} | u in n'.nodes && p in n'.nodes[u].peers
      ensures QueueRoom(n'.nodes[u].peers[p].queue, n'.nodes[u].cfg.queueLen, k + 1)
    {
      assert p in n.nodes[u].peers;
      if u == v {
        assert Took(n.nodes[v].peers[p].queue, node'.peers[p].queue, Said(out, p));
      }
    }
  }

  lemma SameRoom(n: Net, n': Net, k: nat)
    requires Room(n, k) && n'.nodes == n.nodes
    ensures Room(n', k) && Room(n', k + 1)
  {
    forall v, p {:trigger p in n'.nodes[v].peers} | v in n'.nodes && p in n'.nodes[v].peers
      ensures QueueRoom(n'.nodes[v].peers[p].queue, n'.nodes[v].cfg.queueLen, k)
    {
      assert p in n.nodes[v].peers;
    }
  }

  lemma QueueStepRoom(n: Net, s: Step, queueLen: nat, k: nat)
    requires IsLinkStep(s) && !s.Lose? && Connected(n, s.link)
    requires n.nodes[s.link.from].peers[s.link.to].queue.Valid()
    requires QueueRoom(n.nodes[s.link.from].peers[s.link.to].queue, queueLen, k)
    ensures QueueRoom(QueueAfter(n, s), queueLen, k)
  {
    PollNextValid(n.nodes[s.link.from].peers[s.link.to].queue);
  }

  lemma SetQueueRoom(n: Net, n': Net, l: Link, q: SendQueue, k: nat)
    requires Connected(n, l) && Room(n, k) && n'.nodes == SetQueue(n, l, q).nodes
    requires QueueRoom(q, n.nodes[l.from].cfg.queueLen, k)
    ensures Room(n', k)
  {
    forall v, p {:trigger p in n'.nodes[v].peers} | v in n'.nodes && p in n'.nodes[v].peers
      ensures QueueRoom(n'.nodes[v].peers[p].queue, n'.nodes[v].cfg.queueLen, k)
    {
      assert p in n.nodes[v].peers;
    }
  }

  lemma LinkStepRoom(n: Net, s: Step, k: nat)
    requires NetValid(n) && Enabled(n, s) && IsLinkStep(s) && Room(n, k) &&
               (forall v :: v in n.nodes ==> Consistent(n.nodes[v].cache))
    ensures Room(Do(n, s), k)
  {
    hide NetValid, PollNext, PollStale, PollIsEmpty, DropHead, CopiesLost, Consistent, SetQueue, Room, SendQueue.Valid,
         QueueRoom;
    if s.Lose? {
      SameRoom(n, Do(n, s), k);
    } else {
      QueueFactsOf(n, s.link);
      RoomMeans(n, s.link, k);
      QueueStepRoom(n, s, n.nodes[s.link.from].cfg.queueLen, k);
      SetQueueRoom(n, Do(n, s), s.link, QueueAfter(n, s), k);
    }
  }

  lemma RoomMeans(n: Net, l: Link, k: nat)
    requires Room(n, k) && Connected(n, l)
    ensures QueueRoom(n.nodes[l.from].peers[l.to].queue, n.nodes[l.from].cfg.queueLen, k)
  {}

  lemma MoreRoom(n: Net, k: nat)
    requires Room(n, k)
    ensures Room(n, k + 1)
  {
    SameRoom(n, n, k);
  }

  lemma PublishRoom(n: Net, v: PeerId, data: Bytes, order: seq<PeerId>, k: nat)
    requires NetValid(n) && Enabled(n, PublishAt(v, data, order)) && Consistent(n.nodes[v].cache) && Room(n, k)
    ensures Room(DoPublish(n, v, data, order), k + 1)
  {
    hide PublishData, Inserted, Spoke, Built, NodeValid, Consistent, Calm, IsOrderOf, Withhold, PublishOut, NetValid,
         ReasonsHold, Room;
    NodeFactsOf(n, v);
    var node := n.nodes[v];
    PublishFacts(node, n.clock, data, order);
    SpokeNothing(node.peers);
    var node' := PublishData(node, n.clock, data, order).0.node;
    var out := if PublishesNew(node, data) then PublishOut(node, n.clock, Built(node, data).value, order) else map[];
    ActRoom(n, v, node', out, k);
    SameRoom(Act(n, v, node', out), DoPublish(n, v, data, order), k + 1);
  }

  lemma DeliverRoom(n: Net, l: Link, order: seq<PeerId>, pick: nat, k: nat)
    requires NetValid(n) && Enabled(n, Deliver(l, order, pick)) && Consistent(n.nodes[l.to].cache) && Room(n, k)
    ensures Room(DoDeliver(n, l, order, pick), k + 1)
  {
    hide ReceiveRpc, Inserted, Spoke, DeliverOut, RoutesAfter, NodeValid, Consistent, IsOrderOf, FirstTime, Withhold,
         CreditsMove, NetValid, Room;
    var node, m := n.nodes[l.to], n.wire[l][0];
    DeliverFacts(n, l, order, pick);
    var n1 := n.(wire := n.wire[l := n.wire[l][1..]]);
    var node', out := ReceiveRpc(node, n.clock, AsRpc(m), l.from, order, pick).node,
        DeliverOut(node, n.clock, m, l.from, order);
    SameRoom(n, n1, k);
    ActRoom(n1, l.to, node', out, k);
    SameRoom(Act(n1, l.to, node', out), DoDeliver(n, l, order, pick), k + 1);
  }

  lemma StepRoom(n: Net, s: Step, k: nat)
    requires NetValid(n) && Room(n, k) && !s.Connect? && !s.Disconnect?
    ensures Room(After(n, s), k + 1)
  {
    hide DoPublish, DoDeliver, AdjustRedundancy, AdjustOut, Spoke, CreditsMove, Consistent, NetValid, DoTransmit,
         DoDropStale, DoLose, DoDropPeeked, SetQueue, Act, Room;
    AllConsistent(n);
    if !Enabled(n, s) {
      MoreRoom(n, k);
    } else if IsLinkStep(s) {
      LinkStepRoom(n, s, k);
      MoreRoom(Do(n, s), k);
    } else if s.PublishAt? {
      PublishRoom(n, s.v, s.data, s.order, k);
    } else if s.Deliver? {
      DeliverRoom(n, s.link, s.order, s.pick, k);
    } else if s.Tick? {
      AdjustFacts(n.nodes[s.v], s.choice);
      ActRoom(n, s.v, AdjustRedundancy(n.nodes[s.v], s.choice).node, AdjustOut(n.nodes[s.v], s.choice), k);
    } else {
      SameRoom(n, Do(n, s), k);
    }
  }

  lemma {:induction false} RunRoom(n: Net, steps: seq<Step>)
    requires Initial(n) && Static(steps)
    ensures Room(Run(n, steps), |steps|)
  {
    hide Initial, NetValid, Do, Room;
    InitialIsValid(n);
    if steps == [] {
      InitialRoom(n);
    } else {
      var k := |steps| - 1;
      assert steps[k] in steps && forall s :: s in steps[..k] ==> s in steps;
      RunRoom(n, steps[..k]);
      StepRoom(Run(n, steps[..k]), steps[k], k);
    }
  }

  lemma InitialRoom(n: Net)
    requires Initial(n)
    ensures Room(n, 0)
  {
    hide NetValid;
  }

  /** Every queue has room for the whole run in either of its halves. */
  ghost predicate Roomy(n: Net, k: nat) {
    forall v :: v in n.nodes ==> k < n.nodes[v].cfg.queueLen / 2
  }

  lemma RoomRefusesNobody(n: Net, k: nat)
    requires Room(n, k) && Roomy(n, k)
    ensures NobodyRefuses(n)
  {
    forall v, p {:trigger Refuses(n.nodes[v].peers, p)} | v in n.nodes
      ensures !Refuses(n.nodes[v].peers, p)
    {
      if p in n.nodes[v].peers {
        assert QueueRoom(n.nodes[v].peers[p].queue, n.nodes[v].cfg.queueLen, k);
      }
    }
  }

  lemma RoomyRunRefusesNobody(n: Net, steps: seq<Step>)
    requires Initial(n) && Static(steps) && Roomy(n, |steps|)
    ensures NeverRefused(n, steps)
  {
    hide Initial, NetValid, Run, Room, NobodyRefuses;
    InitialIsValid(n);
    forall k: nat {:trigger StateAt(n, steps, k)} | k <= |steps|
      ensures NobodyRefuses(StateAt(n, steps, k))
    {
      assert forall s :: s in steps[..k] ==> s in steps;
      RunRoom(n, steps[..k]);
      RunTopology(n, steps[..k]);
      StillRoomy(n, Run(n, steps[..k]), k, |steps|);
      RoomRefusesNobody(Run(n, steps[..k]), k);
    }
  }

  lemma StillRoomy(n: Net, n': Net, k: nat, total: nat)
    requires Roomy(n, total) && SameTopology(n, n') && k <= total
    ensures Roomy(n', k)
  {}

  // ---- Nothing times out ----

  ghost predicate Patient(s: seq<RpcOut>, horizon: nat) {
    forall m :: m in s && !m.IsControl() ==> m.deadline > horizon
  }

  ghost predicate AllPatient(n: Net, horizon: nat) {
    forall l {:trigger InFlight(n, l)} :: l in n.wire ==> Patient(InFlight(n, l), horizon)
  }

  ghost predicate LongDeadlines(n: Net, start: nat, horizon: nat) {
    forall v :: v in n.nodes ==>
        start + n.nodes[v].cfg.publishDuration > horizon && start + n.nodes[v].cfg.forwardDuration > horizon
  }

  ghost predicate PatientOut(out: map<PeerId, RpcOut>, horizon: nat) {
    forall p :: p in out && !out[p].IsControl() ==> out[p].deadline > horizon
  }

  lemma ActPatient(n: Net, v: PeerId, node': Node, out: map<PeerId, RpcOut>, horizon: nat)
    requires n.wire.Keys == n.log.Keys && v in n.nodes && Spoke(n.nodes[v].peers, node'.peers, out)
    requires AllPatient(n, horizon) && PatientOut(out, horizon)
    ensures AllPatient(Act(n, v, node', out), horizon)
  {
    hide Spoke, InFlight, Act, Copies;
    var n' := Act(n, v, node', out);
    ActFrame(n, v, node', out);
    forall l {:trigger InFlight(n', l)} | l in n'.wire
      ensures Patient(InFlight(n', l), horizon)
    {
      ActGets(raw => None, n, v, node', out, l);
      assert Patient(InFlight(n, l), horizon);
    }
  }

  lemma FewerPatient(n: Net, n': Net, horizon: nat)
    requires AllPatient(n, horizon) && n'.wire.Keys == n.wire.Keys
    requires forall l, m {:trigger m in InFlight(n', l)} :: l in n.wire && m in InFlight(n', l) ==> m in InFlight(n, l)
    ensures AllPatient(n', horizon)
  {
    hide InFlight;
    forall l {:trigger InFlight(n', l)} | l in n'.wire
      ensures Patient(InFlight(n', l), horizon)
    {
      assert Patient(InFlight(n, l), horizon);
    }
  }

  lemma SameFlight(n: Net, n': Net)
    requires n'.nodes == n.nodes && n'.wire == n.wire
    ensures forall l :: InFlight(n', l) == InFlight(n, l)
  {}

  lemma PublishOutPatient(node: Node, now: nat, raw: RawTransaction, order: seq<PeerId>, horizon: nat)
    requires now + node.cfg.publishDuration > horizon
    ensures PatientOut(PublishOut(node, now, raw, order), horizon)
  {
    hide FilterValid;
  }

  lemma DeliverOutPatient(node: Node, now: nat, m: RpcOut, source: PeerId, order: seq<PeerId>, horizon: nat)
    requires Consistent(node.cache) && now + node.cfg.forwardDuration > horizon
    ensures PatientOut(DeliverOut(node, now, m, source, order), horizon)
  {
    hide FilterValid, ForwardCandidates, Consistent, Inserted;
  }

  lemma PublishPatient(n: Net, v: PeerId, data: Bytes, order: seq<PeerId>, horizon: nat)
    requires NetValid(n) && Enabled(n, PublishAt(v, data, order)) && Consistent(n.nodes[v].cache)
    requires AllPatient(n, horizon) && n.clock + n.nodes[v].cfg.publishDuration > horizon
    ensures AllPatient(DoPublish(n, v, data, order), horizon)
  {
    hide PublishData, Inserted, Spoke, Built, NodeValid, Consistent, Calm, IsOrderOf, Withhold, PublishOut, NetValid,
         ReasonsHold, InFlight, Act, AllPatient;
    NodeFactsOf(n, v);
    WiresAndLogs(n);
    var node := n.nodes[v];
    PublishFacts(node, n.clock, data, order);
    SpokeNothing(node.peers);
    var node' := PublishData(node, n.clock, data, order).0.node;
    var out := if PublishesNew(node, data) then PublishOut(node, n.clock, Built(node, data).value, order) else map[];
    if PublishesNew(node, data) {
      PublishOutPatient(node, n.clock, Built(node, data).value, order, horizon);
    }
    ActPatient(n, v, node', out, horizon);
    var n1, n' := Act(n, v, node', out), DoPublish(n, v, data, order);
    SameFlight(n1, n');
    FewerPatient(n1, n', horizon);
  }

  lemma DeliverPatient(n: Net, l: Link, order: seq<PeerId>, pick: nat, horizon: nat)
    requires NetValid(n) && Enabled(n, Deliver(l, order, pick)) && Consistent(n.nodes[l.to].cache)
    requires AllPatient(n, horizon) && n.clock + n.nodes[l.to].cfg.forwardDuration > horizon
    ensures AllPatient(DoDeliver(n, l, order, pick), horizon)
  {
    hide ReceiveRpc, Inserted, Spoke, DeliverOut, RoutesAfter, NodeValid, Consistent, IsOrderOf, FirstTime, Withhold,
         CreditsMove, NetValid, InFlight, Act, AllPatient;
    WiresAndLogs(n);
    var node, m := n.nodes[l.to], n.wire[l][0];
    DeliverFacts(n, l, order, pick);
    PoppedFlight(raw => None, n, l);
    var n1 := n.(wire := n.wire[l := n.wire[l][1..]]);
    FewerPatient(n, n1, horizon);
    var node', out := ReceiveRpc(node, n.clock, AsRpc(m), l.from, order, pick).node,
        DeliverOut(node, n.clock, m, l.from, order);
    DeliverOutPatient(node, n.clock, m, l.from, order, horizon);
    ActPatient(n1, l.to, node', out, horizon);
    var n2, n' := Act(n1, l.to, node', out), DoDeliver(n, l, order, pick);
    SameFlight(n2, n');
    FewerPatient(n2, n', horizon);
  }

  lemma StepPatient(n: Net, s: Step, start: nat, horizon: nat)
    requires NetValid(n) && AllPatient(n, horizon) && LongDeadlines(n, start, horizon) && start <= n.clock
    requires !s.Connect? && !s.Disconnect?
    ensures AllPatient(After(n, s), horizon)
  {
    hide DoPublish, DoDeliver, AdjustRedundancy, AdjustOut, Spoke, CreditsMove, Consistent, NetValid, DoTransmit,
         DoDropStale, DoLose, DoDropPeeked, SetQueue, InFlight, Act, AllPatient, Copies;
    AllConsistent(n);
    if Enabled(n, s) {
      if IsLinkStep(s) {
        LinkStepFrame(n, s);
        LinkStepSubset(raw => None, n, s);
        FewerPatient(n, Do(n, s), horizon);
      } else if s.PublishAt? {
        PublishPatient(n, s.v, s.data, s.order, horizon);
      } else if s.Deliver? {
        DeliverPatient(n, s.link, s.order, s.pick, horizon);
      } else if s.Tick? {
        WiresAndLogs(n);
        AdjustFacts(n.nodes[s.v], s.choice);
        OnlyResets(n.nodes[s.v], s.choice);
        ActPatient(n, s.v, AdjustRedundancy(n.nodes[s.v], s.choice).node, AdjustOut(n.nodes[s.v], s.choice), horizon);
      } else {
        SameFlight(n, Do(n, s));
        FewerPatient(n, Do(n, s), horizon);
      }
    }
  }

  lemma {:induction false} RunPatient(n: Net, steps: seq<Step>, horizon: nat)
    requires Initial(n) && Static(steps) && LongDeadlines(n, n.clock, horizon)
    ensures AllPatient(Run(n, steps), horizon) && Run(n, steps).clock >= n.clock
  {
    hide Initial, NetValid, Do, AllPatient;
    InitialIsValid(n);
    if steps == [] {
      InitialPatient(n, horizon);
    } else {
      var k := |steps| - 1;
      assert steps[k] in steps && forall s :: s in steps[..k] ==> s in steps;
      RunPatient(n, steps[..k], horizon);
      RunTopology(n, steps[..k]);
      DoValid(Run(n, steps[..k]), steps[k]);
      ClockMonotone(Run(n, steps[..k]), steps[k]);
      StepPatient(Run(n, steps[..k]), steps[k], n.clock, horizon);
    }
  }

  lemma InitialPatient(n: Net, horizon: nat)
    requires Initial(n)
    ensures AllPatient(n, horizon)
  {
    hide NetValid, InFlight;
    forall l
      ensures InFlight(n, l) == []
    {
      InitialInFlight(n, l);
    }
  }

  /** A step of the handler that has nothing to drop leaves what is on the link alone. */
  lemma PatientKeeps(n: Net, s: Step, horizon: nat)
    requires NetValid(n) && Enabled(n, s) && (s.Transmit? || s.DropStale? || s.Peek?)
    requires s.link in n.wire && Patient(InFlight(n, s.link), horizon) && n.clock <= horizon
    ensures InFlight(After(n, s), s.link) == InFlight(n, s.link)
  {
    hide NetValid, PollNext, PollStale, PollIsEmpty, SetQueue, InFlight, DoTransmit, CopiesLost, Consistent;
    var l := s.link;
    AllConsistent(n);
    if s.Transmit? {
      var m, rest := TransmitShape(n, l);
      assert m in InFlight(n, l);
    } else if s.DropStale? {
      var q := n.nodes[l.from].peers[l.to].queue;
      var q' := PollStale(q, n.clock).0;
      StaleShape(q, n.clock);
      QueueInFlight(n, l, q);
      QueueInFlight(n, l, q');
      DroppedInFlight(n, l);
      HeadsInFlight(n, l);
    } else {
      QueueInFlight(n, l, n.nodes[l.from].peers[l.to].queue);
      PeekSame(n.nodes[l.from].peers[l.to].queue);
      QueueInFlight(n, l, PollIsEmpty(n.nodes[l.from].peers[l.to].queue).0);
    }
  }

  lemma PeekSame(q: SendQueue)
    ensures PollIsEmpty(q).0.priority == q.priority && PollIsEmpty(q).0.nonPriority == q.nonPriority
  {}

  lemma HeadsInFlight(n: Net, l: Link)
    requires Connected(n, l)
    ensures var q := n.nodes[l.from].peers[l.to].queue;
            && (q.priority != [] ==> q.priority[0] in InFlight(n, l))
            && (q.nonPriority != [] ==> q.nonPriority[0] in InFlight(n, l))
  {}

  /** Nothing is lost on a wire and no handler is disabled. */
  ghost predicate Lossless(steps: seq<Step>) {
    forall s :: s in steps ==> !s.Lose? && !s.DropPeeked?
  }

  lemma LosslessRunDropsNothing(idOf: IdOf, n: Net, steps: seq<Step>, horizon: nat, t: TxId)
    requires HonestRun(idOf, n, steps, horizon) && Static(steps) && Lossless(steps)
    requires LongDeadlines(n, n.clock, horizon)
    ensures NeverDropped(idOf, n, steps, t)
  {
    hide Initial, Assumptions, NetValid, Run, DroppedAt, LongDeadlines;
    InitialIsValid(n);
    forall k: nat, l {:trigger DroppedAt(idOf, n, steps, k, l, t)}
      ensures !DroppedAt(idOf, n, steps, k, l, t)
    {
      if k < |steps| {
        NotDroppedAt(idOf, n, steps, horizon, k, l, t);
      } else {
        TooLate(idOf, n, steps, k, l, t);
      }
    }
  }

  lemma TooLate(idOf: IdOf, n: Net, steps: seq<Step>, k: nat, l: Link, t: TxId)
    requires NetValid(n) && k >= |steps|
    ensures !DroppedAt(idOf, n, steps, k, l, t)
  {
    hide DropsCopy;
  }

  lemma NotDroppedAt(idOf: IdOf, n: Net, steps: seq<Step>, horizon: nat, k: nat, l: Link, t: TxId)
    requires HonestRun(idOf, n, steps, horizon) && Static(steps) && Lossless(steps)
    requires LongDeadlines(n, n.clock, horizon)
    requires k < |steps|
    ensures !DroppedAt(idOf, n, steps, k, l, t)
  {
    hide Initial, Assumptions, NetValid, Run, LongDeadlines, InFlight, Copies, Enabled, After;
    InitialIsValid(n);
    assert steps[k] in steps && forall s :: s in steps[..k] ==> s in steps;
    var before := Run(n, steps[..k]);
    RunPatient(n, steps[..k], horizon);
    ClockUntil(n, steps, k);
    HonestClock(idOf, n, steps, horizon);
    if IsLinkStep(steps[k]) && Enabled(before, steps[k]) {
      LinkHasOwnWire(before, steps[k]);
      assert Patient(InFlight(before, steps[k].link), horizon);
      PatientKeeps(before, steps[k], horizon);
    }
  }

  lemma LinkHasOwnWire(n: Net, s: Step)
    requires NetValid(n) && Enabled(n, s) && IsLinkStep(s)
    ensures s.link in n.wire
  {
    hide NodeValid, PollNext;
    if s.DropStale? || s.Peek? || s.DropPeeked? {
      QueueFactsOf(n, s.link);
    }
  }

  // ---- Together ----

  lemma UncutRunDisablesNothing(n: Net, steps: seq<Step>)
    requires Initial(n) && Static(steps) && (NobodyListens(n) || NobodyComplains(n))
    ensures NeverDisabled(n, steps)
  {
    hide Initial, NetValid, Run, NobodyListens, NobodyComplains;
    InitialIsValid(n);
    forall k: nat {:trigger StateAt(n, steps, k)} | k <= |steps|
      ensures NothingDisabled(StateAt(n, steps, k))
    {
      assert forall s :: s in steps[..k] ==> s in steps;
      RunUncut(n, steps[..k]);
    }
  }

  /** All that has to be known of the settings and of the steps. */
  ghost predicate NothingInTheWay(n: Net, steps: seq<Step>, horizon: nat) {
    && (NobodyListens(n) || NobodyComplains(n))
    && EverybodyForwards(n) && EverybodyLooks(n)
    && Roomy(n, |steps|) && LongDeadlines(n, n.clock, horizon)
    && Static(steps) && Lossless(steps)
  }

  /** On a fixed graph of honest, forwarding nodes that send no HaveTx, or that ignore them, with queues
      longer than twice the run and deadlines beyond its end, and without losses: once nothing of a
      transaction that anybody holds is on its way, every node connected to its author holds it. */
  lemma SettingsReachEverybody(idOf: IdOf, n: Net, steps: seq<Step>, horizon: nat, holder: PeerId, path: seq<PeerId>,
                               t: TxId)
    requires HonestRun(idOf, n, steps, horizon) && NamesAuthor(idOf, n.nodes.Keys) && NothingInTheWay(n, steps, horizon)
    requires NoneUnderWay(idOf, Run(n, steps), t) && HeldBy(Run(n, steps), holder, t)
    requires path != [] && path[0] in n.nodes && AuthorOf(idOf, t, path[0]) && IsPath(Run(n, steps), path)
    ensures HeldBy(Run(n, steps), path[|path| - 1], t)
  {
    hide Initial, Assumptions, NamesAuthor, Static, EverybodyLooks, EverybodyForwards, NeverRefused, NeverDropped,
         NeverDisabled, NoneUnderWay, NetValid, Run, AuthorOf, IsPath, HeldBy, NobodyListens, NobodyComplains, Roomy,
         LongDeadlines, Lossless;
    InitialIsValid(n);
    UncutRunDisablesNothing(n, steps);
    RoomyRunRefusesNobody(n, steps);
    LosslessRunDropsNothing(idOf, n, steps, horizon, t);
    EverybodyReached(idOf, n, steps, horizon, holder, path, t);
  }
}

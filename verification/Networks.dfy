/** A network of nodes that all run behaviour.rs. Every ordered pair of nodes has a link: the send
    queue the first keeps for the second, followed by a FIFO wire. */
module Networks {
  import opened Types
  import opened TimeCache
  import opened Routing
  import opened SendQueues
  import opened Nodes
  import opened NodeFacts

  datatype Link = Link(from: PeerId, to: PeerId)

  /** A copy of a transaction on its way over a link. */
  datatype Copy = Copy(link: Link, id: TxId)

  /** `log`, `withheld` and `lost` are history that no step reads: every RPC a queue has accepted,
      the copies a node did not send with the reason, and the copies that were dropped. */
  datatype Net = Net(
    nodes: map<PeerId, Node>,
    wire: map<Link, seq<RpcOut>>,
    clock: nat,
    log: map<Link, seq<RpcOut>>,
    withheld: map<Copy, Reason>,
    lost: set<Copy>)

  function Back(l: Link): Link { Link(l.to, l.from) }

  function AllLinks(peers: set<PeerId>): set<Link> {
    set p, q | p in peers && q in peers :: Link(p, q)
  }

  /** `all` are the nodes there are. */
  ghost predicate NodeValid(node: Node, v: PeerId, all: set<PeerId>) {
    && node.Own() == v && v !in node.peers
    && Consistent(node.cache)
    && node.peers.Keys <= all
    && forall p :: p in node.peers ==> node.peers[p].queue.Valid() && !node.peers[p].queue.closed
  }

  ghost predicate Connected(n: Net, l: Link) {
    l.from in n.nodes && l.to in n.nodes[l.from].peers
  }

  ghost predicate Symmetric(n: Net) {
    forall l {:trigger Connected(n, l)} :: Connected(n, l) && l.to in n.nodes ==> Connected(n, Back(l))
  }

  ghost predicate NetValid(n: Net) {
    && n.wire.Keys == AllLinks(n.nodes.Keys) && n.log.Keys == AllLinks(n.nodes.Keys)
    && (forall v :: v in n.nodes ==> NodeValid(n.nodes[v], v, n.nodes.Keys))
    && Symmetric(n)
  }

  /** What is queued at the sender of a connected link. */
  ghost function Queued(n: Net, l: Link): seq<RpcOut> {
    if Connected(n, l) then n.nodes[l.from].peers[l.to].queue.priority + n.nodes[l.from].peers[l.to].queue.nonPriority
        else []
  }

  /** Everything between the sender and the receiver of a link: the wire, then the priority
      channel, then the other one. */
  ghost function InFlight(n: Net, l: Link): seq<RpcOut> {
    (if l in n.wire then n.wire[l] else []) + Queued(n, l)
  }

  datatype Step =
    | PublishAt(v: PeerId, data: Bytes, order: seq<PeerId>)
    | Deliver(link: Link, order: seq<PeerId>, pick: nat)
    | Tick(v: PeerId, choice: Option<PeerId>)
    | Transmit(link: Link)
    | DropStale(link: Link)
    | Peek(link: Link)
    | DropPeeked(link: Link, priority: bool)
    | Lose(link: Link, index: nat)
    | Advance(d: nat)
    | Connect(link: Link, c1: ConnectionId, c2: ConnectionId)
    | Disconnect(link: Link, choiceFrom: Option<PeerId>, choiceTo: Option<PeerId>)

  predicate Between(n: Net, l: Link) {
    l.from in n.nodes && l.to in n.nodes && l.from != l.to
  }

  /** The message in one of the peek slots of the handler at the sending end. */
  function PeekedHead(n: Net, l: Link, priority: bool): Option<RpcOut>
    requires l.from in n.nodes && l.to in n.nodes[l.from].peers
  {
    var q := n.nodes[l.from].peers[l.to].queue;
    if priority then (if q.priorityPeeked && q.priority != [] then Some(q.priority[0]) else None)
    else if q.forwardPeeked && q.nonPriority != [] then Some(q.nonPriority[0]) else None
  }

  /** The environment can take step `s`: its random and hash-order outcomes are possible ones,
      and RPCs are handed only to a node that is connected to the sender. */
  ghost predicate Enabled(n: Net, s: Step) {
    match s
    case PublishAt(v, _, order) => v in n.nodes && IsOrderOf(order, n.nodes[v].peers.Keys)
    case Deliver(l, order, _) =>
      && Between(n, l)
      && l in n.wire && n.wire[l] != [] && Connected(n, Link(l.to, l.from))
      && IsOrderOf(order, n.nodes[l.to].peers.Keys)
    case Tick(v, choice) => v in n.nodes && IsCreditorChoice(n.nodes[v].router, choice)
    case Transmit(l) => Between(n, l) && l in n.wire && Connected(n, l) &&
        PollNext(n.nodes[l.from].peers[l.to].queue).1 != Pending
    case DropStale(l) => Connected(n, l)
    case Peek(l) => Connected(n, l)
    case DropPeeked(l, priority) => Connected(n, l) && PeekedHead(n, l, priority).Some?
    case Lose(l, index) => Between(n, l) && l in n.wire && index < |n.wire[l]|
    case Advance(_) => true
    case Connect(l, _, _) => Between(n, l) && !Connected(n, l)
    case Disconnect(l, choiceFrom, choiceTo) =>
      && Between(n, l) && Connected(n, l)
      && IsCreditorChoice(n.nodes[l.from].router, choiceFrom) && IsCreditorChoice(n.nodes[l.to].router, choiceTo)
  }

  /** Steps of the handler and the wire, which concern one link only. */
  predicate IsLinkStep(s: Step) {
    s.Transmit? || s.DropStale? || s.Peek? || s.DropPeeked? || s.Lose?
  }

  // ---- Effects ----

  /** Node `v` becomes `node'`, and its queues have accepted the messages of `out`. */
  function Act(n: Net, v: PeerId, node': Node, out: map<PeerId, RpcOut>): Net {
    n.(nodes := n.nodes[v := node'],
       log := map l | l in n.log :: if l.from == v && l.to in out then n.log[l] + [out[l.to]] else n.log[l])
  }

  function Withhold(n: Net, v: PeerId, source: PeerId, author: PeerId, id: TxId,
                    out: map<PeerId, RpcOut>): map<Copy, Reason>
    requires v in n.nodes
  {
    n.withheld + map p | p in n.nodes[v].peers && p !in out && p != source && p != author ::
                       Copy(Link(v, p), id) := ReasonFor(n.nodes[v], source, p)
  }

  function CopiesLost(cfg: Config, l: Link, s: seq<RpcOut>): set<Copy> {
    set m | m in s && !m.IsControl() && cfg.RawId(m.tx).Some? :: Copy(l, cfg.RawId(m.tx).value)
  }

  ghost function DoPublish(n: Net, v: PeerId, data: Bytes, order: seq<PeerId>): Net
    requires v in n.nodes && Consistent(n.nodes[v].cache)
  {
    var node := n.nodes[v];
    var node' := PublishData(node, n.clock, data, order).0.node;
    if !PublishesNew(node, data) then Act(n, v, node', map[])
    else
      var raw := Built(node, data).value;
      var id := node.cfg.transactionId(Transaction(raw.from, raw.seqno, data));
      var out := PublishOut(node, n.clock, raw, order);
      Act(n, v, node', out).(withheld := Withhold(n, v, v, v, id, out))
  }

  /** What the receiver of the message at the head of the wire sends in response. */
  ghost function DeliverOut(node: Node, now: nat, m: RpcOut, source: PeerId, order: seq<PeerId>): map<PeerId, RpcOut>
    requires Consistent(node.cache)
  {
    if !m.IsControl() && LooksAtTransactions(node.cfg) then ReceiveOut(node, now, m.tx, source, order) else map[]
  }

  ghost predicate FirstTime(node: Node, now: nat, m: RpcOut, source: PeerId)
    requires Consistent(node.cache)
  {
    && !m.IsControl() && LooksAtTransactions(node.cfg) && node.cfg.RawId(m.tx).Some?
    && Inserted(node.cache, now, node.cfg.RawId(m.tx).value, source).1
  }

  ghost function DoDeliver(n: Net, l: Link, order: seq<PeerId>, pick: nat): Net
    requires Between(n, l) && Consistent(n.nodes[l.to].cache) && l in n.wire && n.wire[l] != []
  {
    var node, m := n.nodes[l.to], n.wire[l][0];
    var node' := ReceiveRpc(node, n.clock, AsRpc(m), l.from, order, pick).node;
    var out := DeliverOut(node, n.clock, m, l.from, order);
    var n1 := Act(n.(wire := n.wire[l := n.wire[l][1..]]), l.to, node', out);
    if FirstTime(node, n.clock, m, l.from) then
      n1.(withheld := Withhold(n, l.to, l.from, m.tx.from, node.cfg.RawId(m.tx).value, out))
    else n1
  }

  function DoTick(n: Net, v: PeerId, choice: Option<PeerId>): Net
    requires v in n.nodes
  {
    Act(n, v, AdjustRedundancy(n.nodes[v], choice).node, AdjustOut(n.nodes[v], choice))
  }

  function SetQueue(n: Net, l: Link, q: SendQueue): Net
    requires l.from in n.nodes && l.to in n.nodes[l.from].peers
  {
    var node := n.nodes[l.from];
    n.(nodes := n.nodes[l.from := node.(peers := node.peers[l.to := node.peers[l.to].(queue := q)])])
  }

  /** The handler takes the next message: it goes out, or is dropped because its time is up. */
  function DoTransmit(n: Net, l: Link): Net
    requires l.from in n.nodes && l.to in n.nodes[l.from].peers && l in n.wire
  {
    var (q, polled) := PollNext(n.nodes[l.from].peers[l.to].queue);
    var n1 := SetQueue(n, l, q);
    match polled
    case Ready(Some(m)) =>
      if m.TimedOut(n.clock) then n1.(lost := n.lost + CopiesLost(n.nodes[l.from].cfg, l, [m]))
      else n1.(wire := n.wire[l := n.wire[l] + [m]])
    case _ => n1
  }

  function DoDropStale(n: Net, l: Link): Net
    requires l.from in n.nodes && l.to in n.nodes[l.from].peers
  {
    var (q, polled) := PollStale(n.nodes[l.from].peers[l.to].queue, n.clock);
    var n1 := SetQueue(n, l, q);
    match polled
    case Ready(Some(m)) => n1.(lost := n.lost + CopiesLost(n.nodes[l.from].cfg, l, [m]))
    case _ => n1
  }

  /** A handler that is disabled drops its receiver, and a peeked head with it. Anything it was about
      to send is a transmission that is lost. */
  function DoDropPeeked(n: Net, l: Link, priority: bool): Net
    requires l.from in n.nodes && l.to in n.nodes[l.from].peers && PeekedHead(n, l, priority).Some?
  {
    SetQueue(n, l, DropHead(n.nodes[l.from].peers[l.to].queue, priority))
    .(lost := n.lost + CopiesLost(n.nodes[l.from].cfg, l, [PeekedHead(n, l, priority).value]))
  }

  function DoLose(n: Net, l: Link, index: nat): Net
    requires l in n.wire && index < |n.wire[l]| && l.from in n.nodes
  {
    n.(wire := n.wire[l := RemoveAt(n.wire[l], index)],
       lost := n.lost + CopiesLost(n.nodes[l.from].cfg, l, [n.wire[l][index]]))
  }

  function DoConnect(n: Net, l: Link, c1: ConnectionId, c2: ConnectionId): Net
    requires l.from in n.nodes && l.to in n.nodes && l.from != l.to
  {
    n.(nodes := n.nodes[l.from := Established(n.nodes[l.from], l.to, c1)]
                                [l.to := Established(n.nodes[l.to], l.from, c2)],
       wire := n.wire[l := []][Back(l) := []])
  }

  /** One side of a disconnect: the queue for the peer goes, and the redundancy is adjusted. */
  function CloseSide(n: Net, l: Link, choice: Option<PeerId>): Net
    requires l.from in n.nodes
  {
    var node := n.nodes[l.from];
    var (r, _) := ResetRoutesWith(node.router, l.to);
    var rest := node.(router := r, peers := node.peers - {l.to});
    Act(n, l.from, Closed(node, l.to, ConnectionId(0), 0, choice).node, AdjustOut(rest, choice))
  }

  /** Both ends close and whatever was on its way between them is gone. */
  function DoDisconnect(n: Net, l: Link, choiceFrom: Option<PeerId>, choiceTo: Option<PeerId>): Net
    requires l.from in n.nodes && l.to in n.nodes && l.from != l.to
  {
    CloseSide(CloseSide(n, l, choiceFrom), Back(l), choiceTo).(wire := n.wire[l := []][Back(l) := []])
  }

  ghost function Do(n: Net, s: Step): Net
    requires forall v :: v in n.nodes ==> Consistent(n.nodes[v].cache)
  {
    if !Enabled(n, s) then n
    else match s
      case PublishAt(v, data, order) => DoPublish(n, v, data, order)
      case Deliver(l, order, pick) => DoDeliver(n, l, order, pick)
      case Tick(v, choice) => DoTick(n, v, choice)
      case Transmit(l) => DoTransmit(n, l)
      case DropStale(l) => DoDropStale(n, l)
      case Peek(l) => SetQueue(n, l, PollIsEmpty(n.nodes[l.from].peers[l.to].queue).0)
      case DropPeeked(l, priority) => DoDropPeeked(n, l, priority)
      case Lose(l, index) => DoLose(n, l, index)
      case Advance(d) => n.(clock := n.clock + d)
      case Connect(l, c1, c2) => DoConnect(n, l, c1, c2)
      case Disconnect(l, choiceFrom, choiceTo) => DoDisconnect(n, l, choiceFrom, choiceTo)
  }
}

/** The hypotheses of the network theorems can be met together: for any finite set of peers there is a
    network of honest nodes with default ids, whatever the horizon and the length of the runs. */
module HonestNetworks {
  import opened Types
  import opened SendQueues
  import opened Nodes
  import opened Networks
  import opened NetworkRuns
  import opened FloodSpec
  import opened FloodRefinement
  import opened FloodTheorems
  import opened FloodDelivery
  import opened Delivery
  import opened TransactionIds
  import opened OwnPublishes
  import opened Lifetimes
  import opened Unhindered

  /** A text of `width` bytes for a peer: all zero but for one place. */
  function OneHot(width: nat, p: PeerId): (b: Bytes)
    ensures |b| == width
  {
    seq(width, i => if i == p.key then 1 else 0)
  }

  lemma OneHotTellsApart(width: nat, p: PeerId, q: PeerId)
    requires p.key < width && OneHot(width, p) == OneHot(width, q)
    ensures p == q
  {
    assert OneHot(width, p)[p.key] == 1 && OneHot(width, q)[p.key] == 1;
  }

  lemma {:induction false} Width(all: set<PeerId>) returns (width: nat)
    ensures forall p :: p in all ==> p.key < width
  {
    if all == {} {
      width := 0;
    } else {
      var p :| p in all;
      width := Width(all - {p});
      if width <= p.key {
        width := p.key + 1;
      }
    }
  }

  function TextOf(width: nat): PeerId -> Bytes {
    p => OneHot(width, p)
  }

  function IdsOf(width: nat): IdOf {
    (raw: RawTransaction) => Some(DefaultId(OneHot(width, raw.from), raw.seqno))
  }

  /** Default ids, the identity transform, unsigned transactions; caches and deadlines that outlast
      the horizon and queues with room for runs of the given length. */
  function Settings(width: nat, horizon: nat, runLength: nat, sendHaveTx: bool): Config {
    Config(None, 2 * (runLength + 1), horizon + 1, 1.0, 10, horizon + 1, horizon + 1, 65536, true, sendHaveTx, false,
           (tx: Transaction) => DefaultId(OneHot(width, tx.from), tx.seqno),
           (raw: RawTransaction) => Some(Transaction(raw.from, raw.seqno, raw.data)),
           (data: Bytes) => Some(data),
           (author: PeerId, seqno: nat, data: Bytes) => None)
  }

  function FreshNode(all: set<PeerId>, cfg: Config, v: PeerId): Node {
    NewNode(cfg, Author(v, 0)).(peers := map p | p in all && p != v :: Peer([ConnectionId(0)], NewQueue(cfg.queueLen)))
  }

  /** Everybody is connected to everybody. */
  function FreshNet(all: set<PeerId>, cfg: Config): Net {
    Net(map v | v in all :: FreshNode(all, cfg, v), map l | l in AllLinks(all) :: [], 0,
        map l | l in AllLinks(all) :: [], map[], {})
  }

  lemma FreshNodeValid(all: set<PeerId>, cfg: Config, v: PeerId)
    requires v in all
    ensures NodeValid(FreshNode(all, cfg, v), v, all)
  {}

  lemma FreshNetInitial(all: set<PeerId>, cfg: Config)
    ensures Initial(FreshNet(all, cfg))
  {
    hide NodeValid;
    var n := FreshNet(all, cfg);
    assert n.nodes.Keys == all && n.wire.Keys == AllLinks(all) && n.log.Keys == AllLinks(all);
    forall v | v in all
      ensures NodeValid(n.nodes[v], v, all)
    {
      FreshNodeValid(all, cfg, v);
    }
  }

  lemma SettingsHonest(width: nat, horizon: nat, runLength: nat, sendHaveTx: bool)
    ensures Honest(Settings(width, horizon, runLength, sendHaveTx), IdsOf(width))
  {}

  lemma FreshNetHonest(all: set<PeerId>, cfg: Config, idOf: IdOf, horizon: nat)
    requires Honest(cfg, idOf) && cfg.cacheTime > horizon
    ensures EverybodyHonest(FreshNet(all, cfg), idOf) && CachesOutlive(FreshNet(all, cfg), 0, horizon)
  {
    hide Honest;
  }

  /** For every finite set of peers, every horizon and every length of runs there are default ids and a
      network, with or without HaveTx, that meet what the theorems on floods, on delivery and on own
      publications ask for: all its runs that end by the horizon are honest ones. */
  lemma HypothesesCanBeMet(all: set<PeerId>, horizon: nat, runLength: nat, sendHaveTx: bool)
    returns (idOf: IdOf, text: PeerId -> Bytes, n: Net)
    ensures n.nodes.Keys == all && Initial(n) && CachesOutlive(n, n.clock, horizon)
    ensures forall steps {:trigger Run(n, steps)} :: Run(n, steps).clock <= horizon ==>
              HonestRun(idOf, n, steps, horizon)
    ensures DefaultIds(idOf, text, all) && NamesAuthor(idOf, all) && EverybodyHonest(n, idOf)
    ensures EverybodyLooks(n) && EverybodyForwards(n) && Roomy(n, runLength) && LongDeadlines(n, n.clock, horizon)
    ensures !sendHaveTx ==> NobodyComplains(n)
    ensures forall v, p :: v in all && p in all && v != p ==> p in n.nodes[v].peers
  {
    hide Initial, HonestRun, Honest, EverybodyHonest, DefaultId, CachesOutlive, Run;
    var width := Width(all);
    var cfg := Settings(width, horizon, runLength, sendHaveTx);
    idOf, text, n := IdsOf(width), TextOf(width), FreshNet(all, cfg);
    SettingsHonest(width, horizon, runLength, sendHaveTx);
    FreshNetInitial(all, cfg);
    FreshNetHonest(all, cfg, idOf, horizon);
    InitialIsValid(n);
    forall steps {:trigger Run(n, steps)} | Run(n, steps).clock <= horizon
      ensures HonestRun(idOf, n, steps, horizon)
    {
      ShortRunIsHonest(idOf, n, steps, horizon);
    }
    forall p, q | p in all && q in all && text(p) == text(q)
      ensures p == q
    {
      OneHotTellsApart(width, p, q);
    }
    DefaultIdsNameAuthors(idOf, text, all);
  }
}

/** What every reachable state of a flood has in common: the tree of first deliveries, the bound on
    copies, and HaveTx messages that never cut a tree edge. */
module FloodTheorems {
  import opened Types
  import opened Routing
  import opened NodeFacts
  import opened Networks
  import opened NetworkRuns
  import opened FloodSpec
  import opened FloodRefinement

  /** Among the known peers equal ids mean equal authors, as for the default transaction id. */
  ghost predicate NamesAuthor(idOf: IdOf, known: set<PeerId>) {
    forall r1: RawTransaction, r2: RawTransaction {:trigger idOf(r1), idOf(r2)} ::
      idOf(r1).Some? && idOf(r1) == idOf(r2) && r1.from in known && r2.from in known ==> r1.from == r2.from
  }

  /** Some transaction of this id is by `u`. */
  ghost predicate AuthorOf(idOf: IdOf, t: TxId, u: PeerId) {
    exists raw: RawTransaction :: idOf(raw) == Some(t) && raw.from == u
  }

  /** The network an honest run leads to. */
  ghost function Reached(idOf: IdOf, n: Net, steps: seq<Step>, horizon: nat): (a: Flood)
    requires HonestRun(idOf, n, steps, horizon)
    ensures FloodInvariant(idOf, a)
  {
    RunFlood(idOf, n, steps, horizon);
    Abs(Run(n, steps))
  }

  // ---- The tree of first deliveries ----

  /** The node `i` sources up from `v`. */
  ghost function Ancestor(a: Flood, v: PeerId, t: TxId, k: nat, i: nat): PeerId
    requires Rooted(a, v, t, k) && i <= k
    decreases i
  {
    if i == 0 then v else Ancestor(a, a.Source(v, t), t, k - 1, i - 1)
  }

  lemma {:induction false} AncestorRooted(a: Flood, v: PeerId, t: TxId, k: nat, i: nat)
    requires Rooted(a, v, t, k) && i <= k
    ensures Rooted(a, Ancestor(a, v, t, k, i), t, k - i)
    decreases i
  {
    if i > 0 {
      AncestorRooted(a, a.Source(v, t), t, k - 1, i - 1);
    }
  }

  lemma {:induction false} RootedOnce(a: Flood, v: PeerId, t: TxId, j: nat, k: nat)
    requires Rooted(a, v, t, j) && Rooted(a, v, t, k)
    ensures j == k
    decreases j
  {
    if j > 0 && k > 0 {
      RootedOnce(a, a.Source(v, t), t, j - 1, k - 1);
    }
  }

  lemma {:induction false} AncestorStep(a: Flood, v: PeerId, t: TxId, k: nat, i: nat)
    requires Rooted(a, v, t, k) && i < k
    ensures var w := Ancestor(a, v, t, k, i);
            a.Holds(w, t) && a.Source(w, t) == Ancestor(a, v, t, k, i + 1) && a.Source(w, t) != w
    decreases i
  {
    if i > 0 {
      AncestorStep(a, a.Source(v, t), t, k - 1, i - 1);
    }
  }

  /** A source sent its receiver exactly one copy. */
  lemma SourceSentOnce(idOf: IdOf, a: Flood, v: PeerId, t: TxId)
    requires FloodInvariant(idOf, a) && a.Holds(v, t) && a.Source(v, t) != v && Watched(idOf, t)
    ensures var l := Link(a.Source(v, t), v); l in a.sent && Copies(idOf, a.sent[l], t) == 1
  {
    hide Copies, HaveTxsFit, SentFirst, IsRooted;
    var l := Link(a.Source(v, t), v);
    assert SourceFits(idOf, a, v, t);
    assert LinkFits(idOf, a, l, a.sent[l]);
    assert Copies(idOf, a.sent[l], t) <= 1;
  }

  /** A node that is its own source is the author. */
  lemma OwnSourceIsAuthor(idOf: IdOf, a: Flood, v: PeerId, t: TxId, raw: RawTransaction)
    requires FloodInvariant(idOf, a) && NamesAuthor(idOf, a.know.Keys)
    requires a.Holds(v, t) && a.Source(v, t) == v && idOf(raw) == Some(t) && raw.from in a.know
    ensures raw.from == v
  {
    hide LinkFits, HaveTxsFit, SentFirst, IsRooted;
    assert Watched(idOf, t);
    assert SourceFits(idOf, a, v, t);
    var own: RawTransaction :| idOf(own) == Some(t) && own.from == v;
  }

  /** In every reachable state the sources of a watched transaction form a tree rooted at its author:
      following them from any holder visits only holders, none of them twice, moves every time
      to a node that sent exactly one copy down that edge, and ends at the author. */
  lemma FirstDeliveryTree(idOf: IdOf, n: Net, steps: seq<Step>, horizon: nat, v: PeerId, t: TxId) returns (k: nat)
    requires HonestRun(idOf, n, steps, horizon) && NamesAuthor(idOf, n.nodes.Keys)
    requires Reached(idOf, n, steps, horizon).Holds(v, t) && Watched(idOf, t)
    ensures var a := Reached(idOf, n, steps, horizon);
            && Rooted(a, v, t, k)
            && AuthorOf(idOf, t, Ancestor(a, v, t, k, k))
            && (forall u :: AuthorOf(idOf, t, u) && u in n.nodes ==> Ancestor(a, v, t, k, k) == u)
            && (forall i, j :: 0 <= i < j <= k ==> Ancestor(a, v, t, k, i) != Ancestor(a, v, t, k, j))
            && (forall i :: 0 <= i <= k ==> a.Holds(Ancestor(a, v, t, k, i), t))
            && (forall i :: 0 <= i < k ==>
                  var l := Link(Ancestor(a, v, t, k, i + 1), Ancestor(a, v, t, k, i));
                  l in a.sent && Copies(idOf, a.sent[l], t) == 1)
  {
    hide HonestRun, LinkFits, HaveTxsFit, SentFirst, SourceFits, Rooted, Reached, AuthorOf, NamesAuthor;
    var a := Reached(idOf, n, steps, horizon);
    ReachedKnows(idOf, n, steps, horizon);
    assert IsRooted(a, v, t);
    k :| Rooted(a, v, t, k);
    RootIsAuthor(idOf, a, v, t, k);
    forall i | 0 <= i <= k
      ensures a.Holds(Ancestor(a, v, t, k, i), t)
    {
      AncestorHolds(a, v, t, k, i);
    }
    forall i, j | 0 <= i < j <= k
      ensures Ancestor(a, v, t, k, i) != Ancestor(a, v, t, k, j)
    {
      AncestorsDiffer(a, v, t, k, i, j);
    }
    forall i | 0 <= i < k
      ensures var l := Link(Ancestor(a, v, t, k, i + 1), Ancestor(a, v, t, k, i));
              l in a.sent && Copies(idOf, a.sent[l], t) == 1
    {
      AncestorStep(a, v, t, k, i);
      SourceSentOnce(idOf, a, Ancestor(a, v, t, k, i), t);
    }
  }

  lemma ReachedKnows(idOf: IdOf, n: Net, steps: seq<Step>, horizon: nat)
    requires HonestRun(idOf, n, steps, horizon)
    ensures Reached(idOf, n, steps, horizon).know.Keys == n.nodes.Keys
  {
    hide Initial, Assumptions, Run, FloodInvariant;
    InitialIsValid(n);
    RunNodes(n, steps);
  }

  lemma AncestorHolds(a: Flood, v: PeerId, t: TxId, k: nat, i: nat)
    requires Rooted(a, v, t, k) && i <= k
    ensures a.Holds(Ancestor(a, v, t, k, i), t)
  {
    AncestorRooted(a, v, t, k, i);
  }

  lemma RootIsAuthor(idOf: IdOf, a: Flood, v: PeerId, t: TxId, k: nat)
    requires FloodInvariant(idOf, a) && NamesAuthor(idOf, a.know.Keys) && Rooted(a, v, t, k) && Watched(idOf, t)
    ensures AuthorOf(idOf, t, Ancestor(a, v, t, k, k))
    ensures forall u :: AuthorOf(idOf, t, u) && u in a.know ==> Ancestor(a, v, t, k, k) == u
  {
    hide FloodInvariant, NamesAuthor;
    AncestorRooted(a, v, t, k, k);
    var root := Ancestor(a, v, t, k, k);
    OwnSourceWrote(idOf, a, root, t);
    forall u | AuthorOf(idOf, t, u) && u in a.know
      ensures root == u
    {
      var raw: RawTransaction :| idOf(raw) == Some(t) && raw.from == u;
      OwnSourceIsAuthor(idOf, a, root, t, raw);
    }
  }

  lemma OwnSourceWrote(idOf: IdOf, a: Flood, v: PeerId, t: TxId)
    requires FloodInvariant(idOf, a) && a.Holds(v, t) && a.Source(v, t) == v && Watched(idOf, t)
    ensures AuthorOf(idOf, t, v)
  {
    hide LinkFits, HaveTxsFit, SentFirst, IsRooted;
    assert SourceFits(idOf, a, v, t);
  }

  lemma AncestorsDiffer(a: Flood, v: PeerId, t: TxId, k: nat, i: nat, j: nat)
    requires Rooted(a, v, t, k) && i < j <= k
    ensures Ancestor(a, v, t, k, i) != Ancestor(a, v, t, k, j)
  {
    AncestorRooted(a, v, t, k, i);
    AncestorRooted(a, v, t, k, j);
    if Ancestor(a, v, t, k, i) == Ancestor(a, v, t, k, j) {
      RootedOnce(a, Ancestor(a, v, t, k, i), t, k - i, k - j);
    }
  }

  // ---- HaveTx ----

  /** In every reachable state, a HaveTx on its way from `l.from` to `l.to` finds at `l.to` a cached
      source other than the sender, so the guard against self-sources never fires: it disables
      exactly the route from that source to the sender. And it does not cut the tree edge of the
      transaction that caused it, for the sender has not got that from `l.to`. */
  lemma HaveTxCutsOneRouteAndNoTreeEdge(idOf: IdOf, n: Net, steps: seq<Step>, horizon: nat, l: Link, t: TxId)
    requires HonestRun(idOf, n, steps, horizon) && Watched(idOf, t)
    requires l.to in Run(n, steps).nodes && l in Run(n, steps).wire && HaveTx(t) in InFlight(Run(n, steps), l)
    ensures var a, node := Abs(Run(n, steps)), Run(n, steps).nodes[l.to];
            && a.Holds(l.from, t) && a.Source(l.from, t) != l.to
            && a.Holds(l.to, t) && a.Source(l.to, t) != l.from
            && (!node.cfg.ignoreHaveTx ==>
                RouteCut(node, t, l.from) == DisableRoute(node.router, a.Source(l.to, t), l.from))
  {
    hide Initial, Assumptions, LinkFits, SentFirst, SourceFits, IsRooted, InFlight;
    InitialIsValid(n);
    RunFlood(idOf, n, steps, horizon);
    var a := Abs(Run(n, steps));
    assert HaveTxsFit(idOf, a, l, a.flight[l]);
    assert HaveTxFits(a, l, HaveTx(t).id);
  }

  // ---- Copies ----

  /** One acceptance of a copy: the link and the place in its record. */
  datatype Acceptance = Acceptance(link: Link, index: nat)

  ghost function AcceptedCopies(idOf: IdOf, a: Flood, t: TxId): set<Acceptance> {
    set l, i | l in a.sent && 0 <= i < |a.sent[l]| && IsCopy(idOf, a.sent[l][i], t) :: Acceptance(l, i)
  }

  lemma TwoCopies(idOf: IdOf, s: seq<RpcOut>, t: TxId, i: nat, j: nat)
    requires i < j < |s| && IsCopy(idOf, s[i], t) && IsCopy(idOf, s[j], t)
    ensures Copies(idOf, s, t) >= 2
  {
    hide Copies;
    assert s == s[..i] + ([s[i]] + s[i + 1..j]) + ([s[j]] + s[j + 1..]);
    CopiesConcat(idOf, s[..i] + ([s[i]] + s[i + 1..j]), [s[j]] + s[j + 1..], t);
    CopiesConcat(idOf, s[..i], [s[i]] + s[i + 1..j], t);
    CopiesConcat(idOf, [s[i]], s[i + 1..j], t);
    CopiesConcat(idOf, [s[j]], s[j + 1..], t);
    CopiesOne(idOf, s[i], t);
    CopiesOne(idOf, s[j], t);
  }

  ghost function CopyLinks(idOf: IdOf, a: Flood, t: TxId): set<Link> {
    set l | l in a.sent && Copies(idOf, a.sent[l], t) > 0
  }

  lemma CopyAt(idOf: IdOf, s: seq<RpcOut>, t: TxId)
    ensures Copies(idOf, s, t) > 0 <==> exists i :: 0 <= i < |s| && IsCopy(idOf, s[i], t)
  {
    NoCopies(idOf, s, t);
  }

  ghost predicate OncePerLink(s: set<Acceptance>) {
    forall x, y :: x in s && y in s && x.link == y.link ==> x == y
  }

  lemma {:induction false} AsManyLinks(s: set<Acceptance>)
    requires OncePerLink(s)
    ensures |s| == |set x | x in s :: x.link|
  {
    var links := set x | x in s :: x.link;
    if s != {} {
      var x :| x in s;
      AsManyLinks(s - {x});
      assert (set y | y in s - {x} :: y.link) == links - {x.link};
    }
  }

  /** Every link carries at most one copy of a transaction, so that accepted copies can be counted
      by links. */
  lemma CopiesAreLinks(idOf: IdOf, a: Flood, t: TxId)
    requires FloodInvariant(idOf, a)
    ensures |AcceptedCopies(idOf, a, t)| == |CopyLinks(idOf, a, t)|
  {
    hide Copies, HaveTxsFit, SentFirst, SourceFits, IsRooted;
    var s := AcceptedCopies(idOf, a, t);
    forall x, y | x in s && y in s && x.link == y.link
      ensures x == y
    {
      assert LinkFits(idOf, a, x.link, a.sent[x.link]);
      assert Copies(idOf, a.sent[x.link], t) <= 1;
      if x.index < y.index {
        TwoCopies(idOf, a.sent[x.link], t, x.index, y.index);
      } else if y.index < x.index {
        TwoCopies(idOf, a.sent[x.link], t, y.index, x.index);
      }
    }
    AsManyLinks(s);
    forall l | l in a.sent
      ensures l in CopyLinks(idOf, a, t) <==> exists x :: x in s && x.link == l
    {
      CopyAt(idOf, a.sent[l], t);
      if i :| 0 <= i < |a.sent[l]| && IsCopy(idOf, a.sent[l][i], t) {
        assert Acceptance(l, i) in s;
      }
    }
    assert (set x | x in s :: x.link) == CopyLinks(idOf, a, t);
  }

  ghost function Holders(a: Flood, t: TxId): set<PeerId> {
    set v | v in a.know && t in a.know[v]
  }

  /** The holders that got the transaction from somebody else. */
  ghost function Receivers(a: Flood, t: TxId): set<PeerId> {
    set v | v in a.know && t in a.know[v] && a.know[v][t] != v
  }

  ghost function TreeLinks(a: Flood, t: TxId): set<Link> {
    set v | v in Receivers(a, t) :: Link(a.know[v][t], v)
  }

  ghost function BackLinks(a: Flood, t: TxId): set<Link> {
    set v | v in Receivers(a, t) :: Link(v, a.know[v][t])
  }

  lemma {:induction false} LinkCount(s: set<PeerId>, f: PeerId -> PeerId)
    ensures |set v | v in s :: Link(f(v), v)| == |s| && |set v | v in s :: Link(v, f(v))| == |s|
  {
    if s != {} {
      var x :| x in s;
      LinkCount(s - {x}, f);
      assert (set v | v in s :: Link(f(v), v)) == (set v | v in s - {x} :: Link(f(v), v)) + {Link(f(x), x)};
      assert (set v | v in s :: Link(v, f(v))) == (set v | v in s - {x} :: Link(v, f(v))) + {Link(x, f(x))};
    }
  }

  lemma TreeLinkCounts(a: Flood, t: TxId)
    ensures |TreeLinks(a, t)| == |Receivers(a, t)| && |BackLinks(a, t)| == |Receivers(a, t)|
  {
    var f := (v: PeerId) => if v in a.know && t in a.know[v] then a.know[v][t] else v;
    LinkCount(Receivers(a, t), f);
    assert TreeLinks(a, t) == set v | v in Receivers(a, t) :: Link(f(v), v);
    assert BackLinks(a, t) == set v | v in Receivers(a, t) :: Link(v, f(v));
  }

  /** There is exactly one holder that is its own source, as soon as there is any holder. */
  lemma OneAuthor(idOf: IdOf, a: Flood, t: TxId)
    requires FloodInvariant(idOf, a) && NamesAuthor(idOf, a.know.Keys) && Holders(a, t) != {} && Watched(idOf, t)
    ensures |Receivers(a, t)| == |Holders(a, t)| - 1
  {
    hide LinkFits, HaveTxsFit, SentFirst;
    var v :| v in Holders(a, t);
    assert a.Holds(v, t);
    assert IsRooted(a, v, t);
    var k: nat :| Rooted(a, v, t, k);
    AncestorRooted(a, v, t, k, k);
    var root := Ancestor(a, v, t, k, k);
    assert a.Holds(root, t) && SourceFits(idOf, a, root, t);
    var raw: RawTransaction :| idOf(raw) == Some(t) && raw.from == root;
    forall w | w in Holders(a, t) && w !in Receivers(a, t)
      ensures w == root
    {
      assert a.Holds(w, t);
      OwnSourceIsAuthor(idOf, a, w, t, raw);
    }
    assert Holders(a, t) == Receivers(a, t) + {root};
  }

  /** No copy travels back along a tree edge; every tree edge carries one. */
  lemma TreeAndBackLinks(idOf: IdOf, a: Flood, t: TxId)
    requires FloodInvariant(idOf, a) && Watched(idOf, t)
    ensures TreeLinks(a, t) <= CopyLinks(idOf, a, t) && CopyLinks(idOf, a, t) !! BackLinks(a, t)
  {
    hide Copies, HaveTxsFit, SentFirst, IsRooted;
    forall v | v in Receivers(a, t)
      ensures Link(a.know[v][t], v) in CopyLinks(idOf, a, t)
    {
      assert a.Holds(v, t);
      SourceSentOnce(idOf, a, v, t);
    }
    forall l | l in CopyLinks(idOf, a, t) && l.from in Receivers(a, t)
      ensures a.know[l.from][t] != l.to
    {
      CopyAt(idOf, a.sent[l], t);
      var i :| 0 <= i < |a.sent[l]| && IsCopy(idOf, a.sent[l][i], t);
      assert LinkFits(idOf, a, l, a.sent[l]);
      assert CopyFits(a, l, a.sent[l][i], t);
    }
  }
}

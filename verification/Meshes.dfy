/** The random mesh of experiment.py: every node dials random targets until it has enough
    connections. The random numbers are an infinite sequence in which every number turns up again
    and again. */
module Meshes {

  type NodeId = nat

  /** `peers` is the mesh relation, one set per node; `dials` lists whom each node dials. */
  datatype Mesh = Mesh(peers: seq<set<NodeId>>, dials: seq<seq<NodeId>>)

  /** Numbers below `n`, none of which stays away for ever. */
  ghost predicate Draws(draw: nat -> nat, n: nat) {
    && (forall k: nat :: draw(k) < n)
    && forall k: nat, x: nat {:trigger Drawn(draw, k, x)} :: x < n ==> Drawn(draw, k, x)
  }

  /** `x` is drawn at or after `k`. */
  ghost predicate Drawn(draw: nat -> nat, k: nat, x: nat) {
    exists j: nat :: k <= j && draw(j) == x
  }

  function Occurrences(s: seq<NodeId>, x: NodeId): nat {
    if s == [] then 0 else Occurrences(s[..|s| - 1], x) + if s[|s| - 1] == x then 1 else 0
  }

  lemma OccurrencesAppend(s: seq<NodeId>, y: NodeId, x: NodeId)
    ensures Occurrences(s + [y], x) == Occurrences(s, x) + if y == x then 1 else 0
  {
    assert (s + [y])[..|s|] == s;
  }

  ghost predicate Shaped(m: Mesh, n: nat) {
    |m.peers| == n && |m.dials| == n && forall u: nat, v: nat {:trigger v in m.peers[u]} :: u < n && v in m.peers[u] ==>
        v < n
  }

  ghost predicate IsSymmetric(m: Mesh, n: nat)
    requires Shaped(m, n)
  {
    forall u: nat, v: nat :: u < n && v < n ==> (v in m.peers[u] <==> u in m.peers[v])
  }

  ghost predicate IsIrreflexive(m: Mesh, n: nat)
    requires Shaped(m, n)
  {
    forall u: nat :: u < n ==> u !in m.peers[u]
  }

  /** How often the edge between `u` and `v` is dialled, from either end. */
  function Dialled(m: Mesh, u: NodeId, v: NodeId): nat
    requires u < |m.dials| && v < |m.dials|
  {
    Occurrences(m.dials[u], v) + if u == v then 0 else Occurrences(m.dials[v], u)
  }

  /** Every edge of the mesh is dialled exactly once, and nothing else is dialled. */
  ghost predicate DialledOnce(m: Mesh, n: nat)
    requires Shaped(m, n)
  {
    forall u: nat, v: nat {:trigger Dialled(m, u, v)} :: u < n && v < n ==> Dialled(m, u, v) == if v in m.peers[u]
        then 1 else 0
  }

  ghost predicate Sound(m: Mesh, n: nat) {
    Shaped(m, n) && IsSymmetric(m, n) && IsIrreflexive(m, n) && DialledOnce(m, n)
  }

  /** `u` dials `v`, and both know each other. */
  function Connected(m: Mesh, u: NodeId, v: NodeId): Mesh
    requires u < |m.peers| && v < |m.peers| && |m.dials| == |m.peers|
  {
    var p := m.peers[u := m.peers[u] + {v}];
    Mesh(p[v := p[v] + {u}], m.dials[u := m.dials[u] + [v]])
  }

  lemma ConnectedKnows(m: Mesh, n: nat, u: NodeId, v: NodeId)
    requires Shaped(m, n) && u < n && v < n && u != v
    ensures var m' := Connected(m, u, v);
            forall x: nat, y: nat :: x < n ==>
                (y in m'.peers[x] <==> y in m.peers[x] || (x == u && y == v) || (x == v && y == u))
  {}

  lemma ConnectedDialled(m: Mesh, n: nat, u: NodeId, v: NodeId, x: NodeId, y: NodeId)
    requires Shaped(m, n) && u < n && v < n && u != v && x < n && y < n
    ensures Dialled(Connected(m, u, v), x, y) == Dialled(m, x, y) + if (x == u && y == v) || (x == v && y == u) then 1
              else 0
  {
    hide Occurrences;
    OccurrencesAppend(m.dials[u], v, x);
    OccurrencesAppend(m.dials[u], v, y);
    var m' := Connected(m, u, v);
    assert m'.dials[x] == if x == u then m.dials[x] + [v] else m.dials[x];
    assert m'.dials[y] == if y == u then m.dials[y] + [v] else m.dials[y];
  }

  lemma ConnectedSound(m: Mesh, n: nat, u: NodeId, v: NodeId)
    requires Sound(m, n) && u < n && v < n && u != v && v !in m.peers[u]
    ensures Sound(Connected(m, u, v), n)
  {
    hide Dialled;
    var m' := Connected(m, u, v);
    ConnectedKnows(m, n, u, v);
    forall x: nat, y: nat | x < n && y < n
      ensures Dialled(m', x, y) == if y in m'.peers[x] then 1 else 0
    {
      ConnectedDialled(m, n, u, v, x, y);
      assert Dialled(m, x, y) == if y in m.peers[x] then 1 else 0;
    }
  }

  function Nodes(n: nat): (s: set<NodeId>)
    ensures |s| == n && forall x: nat :: x in s <==> x < n
  {
    if n == 0 then {} else Nodes(n - 1) + {n - 1}
  }

  /** The nodes `u` can still dial. */
  function FreshTargets(m: Mesh, n: nat, u: NodeId): set<NodeId>
    requires u < |m.peers|
  {
    Nodes(n) - (m.peers[u] + {u})
  }

  /** A node with fewer connections than there are other nodes has somebody left to dial. */
  lemma SomebodyLeft(m: Mesh, n: nat, u: NodeId)
    requires Sound(m, n) && u < n && |m.peers[u]| < n - 1
    ensures FreshTargets(m, n, u) != {}
  {
    hide Dialled;
    var taken := m.peers[u] + {u};
    assert taken <= Nodes(n) by {
      forall x | x in m.peers[u]
        ensures x < n
      {}
    }
    assert Nodes(n) == FreshTargets(m, n, u) + taken;
    assert |taken| == |m.peers[u]| + 1;
  }

  /** Whom `u` knew when its turn to dial was over: whoever dialled it before, and whom it dialled. */
  ghost function KnownAtTurn(m: Mesh, u: NodeId): set<NodeId>
    requires u < |m.peers| && u < |m.dials|
  {
    set v | v in m.peers[u] && (v < u || v in m.dials[u])
  }

  /** `u` has dialled until it had the connections asked for, and nobody if it had them before. */
  ghost predicate HadItsTurn(m: Mesh, u: NodeId, wanted: nat)
    requires u < |m.peers| && u < |m.dials|
  {
    |KnownAtTurn(m, u)| >= wanted && (m.dials[u] != [] ==> |KnownAtTurn(m, u)| == wanted)
  }

  lemma {:induction false} OccurrencesMeans(s: seq<NodeId>, x: NodeId)
    ensures Occurrences(s, x) > 0 <==> x in s
  {
    if s != [] {
      assert s == s[..|s| - 1] + [s[|s| - 1]];
      OccurrencesMeans(s[..|s| - 1], x);
    }
  }

  /** A turn that is over is not touched by a later one. */
  lemma TurnStays(m: Mesh, n: nat, node: NodeId, target: NodeId, u: NodeId, wanted: nat)
    requires Sound(m, n) && u < node < n && target < n && target != node && target !in m.peers[node]
    requires HadItsTurn(m, u, wanted)
    ensures HadItsTurn(Connected(m, node, target), u, wanted)
  {
    hide Dialled, HadItsTurn;
    var m' := Connected(m, node, target);
    ConnectedKnows(m, n, node, target);
    if u == target {
      NotDialled(m, n, u, node);
    }
    assert KnownAtTurn(m', u) == KnownAtTurn(m, u);
    SameTurn(m, m', u, wanted);
  }

  lemma SameTurn(m: Mesh, m': Mesh, u: NodeId, wanted: nat)
    requires u < |m.peers| && u < |m.dials| && u < |m'.peers| && u < |m'.dials|
    requires KnownAtTurn(m', u) == KnownAtTurn(m, u) && m'.dials[u] == m.dials[u] && HadItsTurn(m, u, wanted)
    ensures HadItsTurn(m', u, wanted)
  {}

  lemma NotDialled(m: Mesh, n: nat, u: NodeId, v: NodeId)
    requires Sound(m, n) && u < n && v < n && u !in m.peers[v]
    ensures v !in m.dials[u]
  {
    OccurrencesMeans(m.dials[u], v);
    assert Dialled(m, u, v) == 0;
  }

  /** At its turn a node knows whom it has dialled and earlier nodes only. */
  lemma KnowsAll(m: Mesh, n: nat, u: NodeId)
    requires Sound(m, n) && u < n && forall v :: u < v < n ==> m.dials[v] == []
    ensures KnownAtTurn(m, u) == m.peers[u]
  {
    forall v | v in m.peers[u] && v > u
      ensures v in m.dials[u]
    {
      assert Dialled(m, u, v) == 1;
      OccurrencesMeans(m.dials[u], v);
      OccurrencesMeans(m.dials[v], u);
    }
  }

  /** `random_mesh_connections`. It returns, for the draws given, a symmetric and irreflexive mesh in
      which every node has at least the connections asked for and every edge is dialled once. It
      needs more nodes than connections: otherwise the source never stops drawing. */
  method RandomMeshConnections(n: nat, wanted: nat, draw: nat -> nat) returns (m: Mesh)
    requires wanted < n || n == 0
    requires n > 0 ==> Draws(draw, n)
    ensures Sound(m, n)
    ensures forall u :: 0 <= u < n ==> |m.peers[u]| >= wanted && HadItsTurn(m, u, wanted)
  {
    hide HadItsTurn, Draws, Drawn, Dialled, Occurrences, IsSymmetric, IsIrreflexive, DialledOnce, Nodes, Connected,
         FreshTargets;
    m := Mesh(seq(n, i => {}), seq(n, i => []));
    EmptySound(n);
    var k := 0;
    for node := 0 to n
      invariant Sound(m, n)
      invariant forall u :: 0 <= u < node ==> |m.peers[u]| >= wanted && HadItsTurn(m, u, wanted)
      invariant forall u :: node <= u < n ==> m.dials[u] == []
    {
      ghost var goal, due := NextGoal(m, n, node, wanted, draw, k);
      while |m.peers[node]| < wanted
        invariant Sound(m, n)
        invariant forall u :: 0 <= u < node ==> |m.peers[u]| >= wanted && HadItsTurn(m, u, wanted)
        invariant forall u :: node < u < n ==> m.dials[u] == []
        invariant m.dials[node] != [] ==> |m.peers[node]| <= wanted
        invariant |m.peers[node]| < wanted ==> k <= due && draw(due) == goal && goal in FreshTargets(m, n, node)
        decreases wanted - |m.peers[node]|, due as int - k as int
      {
        var target := draw(k);
        DrawsBelow(draw, n, k);
        FreshMeans(m, n, node, goal);
        k := k + 1;
        if target == node || target in m.peers[node] {
          continue;
        }
        ConnectedSound(m, n, node, target);
        ConnectedGrows(m, n, node, target);
        DialsOne(m, n, node, target);
        forall u: nat | u < node
          ensures HadItsTurn(Connected(m, node, target), u, wanted)
        {
          TurnStays(m, n, node, target, u, wanted);
        }
        m := Connected(m, node, target);
        goal, due := NextGoal(m, n, node, wanted, draw, k);
      }
      TurnOver(m, n, node, wanted);
    }
  }

  lemma DialsOne(m: Mesh, n: nat, u: NodeId, v: NodeId)
    requires Shaped(m, n) && u < n && v < n
    ensures forall x :: 0 <= x < n ==> Connected(m, u, v).dials[x] == m.dials[x] + if x == u then [v] else []
  {}

  lemma TurnOver(m: Mesh, n: nat, u: NodeId, wanted: nat)
    requires Sound(m, n) && u < n && forall v :: u < v < n ==> m.dials[v] == []
    requires |m.peers[u]| >= wanted && (m.dials[u] != [] ==> |m.peers[u]| <= wanted)
    ensures HadItsTurn(m, u, wanted)
  {
    hide IsSymmetric, IsIrreflexive, DialledOnce, KnownAtTurn;
    KnowsAll(m, n, u);
  }

  lemma DrawsBelow(draw: nat -> nat, n: nat, k: nat)
    requires Draws(draw, n)
    ensures draw(k) < n
  {}

  lemma FreshMeans(m: Mesh, n: nat, u: NodeId, x: NodeId)
    requires u < |m.peers|
    ensures x in FreshTargets(m, n, u) <==> x < n && x != u && x !in m.peers[u]
  {}

  /** A fresh target, and when it is drawn next. */
  lemma NextGoal(m: Mesh, n: nat, u: NodeId, wanted: nat, draw: nat -> nat, k: nat) returns (goal: nat, due: nat)
    requires Sound(m, n) && u < n && wanted < n && Draws(draw, n)
    ensures |m.peers[u]| < wanted ==> k <= due && draw(due) == goal && goal in FreshTargets(m, n, u)
  {
    hide IsSymmetric, IsIrreflexive, DialledOnce;
    goal, due := 0, 0;
    if |m.peers[u]| < wanted {
      SomebodyLeft(m, n, u);
      goal :| goal in FreshTargets(m, n, u);
      assert Drawn(draw, k, goal);
      due :| k <= due && draw(due) == goal;
    }
  }

  lemma ConnectedGrows(m: Mesh, n: nat, u: NodeId, v: NodeId)
    requires Shaped(m, n) && u < n && v < n && u != v && v !in m.peers[u]
    ensures var m' := Connected(m, u, v);
            |m'.peers[u]| == |m.peers[u]| + 1 && forall x :: 0 <= x < n ==> |m'.peers[x]| >= |m.peers[x]|
  {
    assert |m.peers[v] + {u}| >= |m.peers[v]| by {
      if u in m.peers[v] {
        assert m.peers[v] + {u} == m.peers[v];
      }
    }
  }

  lemma EmptySound(n: nat)
    ensures Sound(Mesh(seq(n, i => {}), seq(n, i => [])), n)
  {}

  /** A node cannot have as many connections as there are nodes, so that a loop that waits for them
      never ends: the condition of `RandomMeshConnections` is the weakest one. */
  lemma NeverThatMany(m: Mesh, n: nat, u: NodeId)
    requires Sound(m, n) && u < n
    ensures |m.peers[u]| < n
  {
    hide Dialled;
    var taken := m.peers[u] + {u};
    assert taken <= Nodes(n) by {
      forall x | x in m.peers[u]
        ensures x < n
      {}
    }
    assert |Nodes(n)| == |Nodes(n) - taken| + |taken|;
  }
}

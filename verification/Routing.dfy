/** The router and the redundancy controller of dog.rs. */
module Routing {
  import opened Types

  /** `disabled` may hold the same route several times. */
  datatype RouterState = RouterState(disabled: seq<Route>, haveTxSent: map<PeerId, nat>)

  function Credit(r: RouterState, peer: PeerId): nat {
    if peer in r.haveTxSent then r.haveTxSent[peer] else 0
  }

  function DisableRoute(r: RouterState, source: PeerId, target: PeerId): RouterState {
    r.(disabled := r.disabled + [Route(source, target)])
  }

  /** The positions of the disabled routes that lead to `peer`. */
  function IndicesTo(disabled: seq<Route>, peer: PeerId): (s: seq<nat>)
    ensures forall i :: i in s ==> i < |disabled| && disabled[i].target == peer
    ensures |s| == CountTo(disabled, peer)
  {
    if disabled == [] then []
    else
      var n := |disabled| - 1;
      IndicesTo(disabled[..n], peer) + if disabled[n].target == peer then [n] else []
  }

  /** How many disabled routes lead to `peer`, counted with repetition. */
  function CountTo(disabled: seq<Route>, peer: PeerId): nat {
    if disabled == [] then 0
    else CountTo(disabled[..|disabled| - 1], peer) + if disabled[|disabled| - 1].target == peer then 1 else 0
  }

  function RemoveAt<T>(s: seq<T>, i: nat): seq<T>
    requires i < |s|
  {
    s[..i] + s[i + 1..]
  }

  /** `enable_random_route_to_peer`: `pick` is the outcome of the random choice among the routes
      that lead to the peer. */
  function EnableRoute(r: RouterState, peer: PeerId, pick: nat): (RouterState, Option<Route>) {
    var candidates := IndicesTo(r.disabled, peer);
    if candidates == [] then (r, None)
    else
      var i := candidates[pick % |candidates|];
      assert i in candidates;
      (r.(disabled := RemoveAt(r.disabled, i)), Some(r.disabled[i]))
  }

  function Mentions(route: Route, peer: PeerId): bool {
    route.source == peer || route.target == peer
  }

  /** The routes that mention `peer` if `wanted`, the other ones otherwise; in order. */
  function Mentioning(disabled: seq<Route>, peer: PeerId, wanted: bool): (s: seq<Route>)
    ensures forall route :: route in s <==> route in disabled && Mentions(route, peer) == wanted
  {
    if disabled == [] then []
    else
      var n := |disabled| - 1;
      assert disabled == disabled[..n] + [disabled[n]];
      Mentioning(disabled[..n], peer, wanted) + if Mentions(disabled[n], peer) == wanted then [disabled[n]] else []
  }

  function ResetRoutesWith(r: RouterState, peer: PeerId): (RouterState, seq<Route>) {
    (r.(disabled := Mentioning(r.disabled, peer, false)), Mentioning(r.disabled, peer, true))
  }

  predicate Valid(r: RouterState, source: PeerId, target: PeerId) {
    Route(source, target) !in r.disabled
  }

  function FilterValid(r: RouterState, source: PeerId, targets: seq<PeerId>): (s: seq<PeerId>)
    ensures forall p :: p in s <==> p in targets && Valid(r, source, p)
  {
    if targets == [] then []
    else
      var n := |targets| - 1;
      assert targets == targets[..n] + [targets[n]];
      FilterValid(r, source, targets[..n]) + if Valid(r, source, targets[n]) then [targets[n]] else []
  }

  function RegisterHaveTx(r: RouterState, peer: PeerId): RouterState {
    r.(haveTxSent := r.haveTxSent[peer := Credit(r, peer) + 1])
  }

  function RemoveHaveTx(r: RouterState, peer: PeerId): RouterState {
    if Credit(r, peer) > 0 then r.(haveTxSent := r.haveTxSent[peer := Credit(r, peer) - 1]) else r
  }

  /** The peers with a positive credit: `get_random_have_tx_sent_peer` chooses among them. */
  function Creditors(r: RouterState): set<PeerId> {
    set p | p in r.haveTxSent && r.haveTxSent[p] > 0
  }

  /** The outcome of that choice: `None` when there is nobody to choose, otherwise `choice` as far
      as it is one of them. */
  ghost predicate IsCreditorChoice(r: RouterState, choice: Option<PeerId>) {
    match choice
    case None => Creditors(r) == {}
    case Some(p) => p in Creditors(r)
  }

  // ---- Disabled routes as a multiset, over whole runs of resets ----

  lemma {:induction false} CountToAppend(a: seq<Route>, b: seq<Route>, peer: PeerId)
    ensures CountTo(a + b, peer) == CountTo(a, peer) + CountTo(b, peer)
  {
    if b == [] {
      assert a + b == a;
    } else {
      CountToAppend(a, b[..|b| - 1], peer);
      assert (a + b)[..|a + b| - 1] == a + b[..|b| - 1];
    }
  }

  lemma CountToOne(route: Route, peer: PeerId)
    ensures CountTo([route], peer) == if route.target == peer then 1 else 0
  {
    assert [route][..0] == [];
  }

  lemma CountToRemoveAt(s: seq<Route>, i: nat, peer: PeerId)
    requires i < |s|
    ensures CountTo(s, peer) == CountTo(RemoveAt(s, i), peer) + if s[i].target == peer then 1 else 0
  {
    assert s == s[..i] + ([s[i]] + s[i + 1..]);
    CountToAppend(s[..i], [s[i]] + s[i + 1..], peer);
    CountToAppend([s[i]], s[i + 1..], peer);
    CountToAppend(s[..i], s[i + 1..], peer);
    CountToOne(s[i], peer);
  }

  /** A reset gives back one occurrence of one route to the peer, if there is one; every other
      occurrence stays. */
  lemma EnableRemovesOne(r: RouterState, peer: PeerId, pick: nat)
    ensures var (r', route) := EnableRoute(r, peer, pick);
            && r'.haveTxSent == r.haveTxSent
            && (route.None? <==> CountTo(r.disabled, peer) == 0)
            && (route.None? ==> r' == r)
            && (route.Some? ==>
                  && route.value.target == peer
                  && route.value in r.disabled
                  && multiset(r'.disabled) == multiset(r.disabled) - multiset{route.value})
            && forall p :: CountTo(r'.disabled, p) ==
                 CountTo(r.disabled, p) - (if route.Some? && p == peer then 1 else 0)
  {
    var (r', route) := EnableRoute(r, peer, pick);
    if route.Some? {
      var candidates := IndicesTo(r.disabled, peer);
      var i := candidates[pick % |candidates|];
      assert i in candidates;
      assert r.disabled == r.disabled[..i] + [r.disabled[i]] + r.disabled[i + 1..];
      forall p
        ensures CountTo(r'.disabled, p) == CountTo(r.disabled, p) - (if p == peer then 1 else 0)
      {
        CountToRemoveAt(r.disabled, i, p);
      }
    }
  }

  lemma {:induction false} IndicesAre(disabled: seq<Route>, peer: PeerId, i: nat)
    ensures i in IndicesTo(disabled, peer) <==> i < |disabled| && disabled[i].target == peer
  {
    if disabled != [] {
      IndicesAre(disabled[..|disabled| - 1], peer, i);
    }
  }

  /** With this choice the route at place `i` comes back, and every other one keeps its place in the order. */
  ghost predicate ComesBack(r: RouterState, peer: PeerId, pick: nat, i: nat) {
    && i < |r.disabled| && r.disabled[i].target == peer
    && EnableRoute(r, peer, pick) ==
         (r.(disabled := r.disabled[..i] + r.disabled[i + 1..]), Some(r.disabled[i]))
  }

  /** Every route that leads to the peer may be the one that comes back. */
  lemma AnyRouteMayComeBack(r: RouterState, peer: PeerId, i: nat) returns (pick: nat)
    requires i < |r.disabled| && r.disabled[i].target == peer
    ensures ComesBack(r, peer, pick, i)
  {
    hide IndicesTo, CountTo;
    var candidates := IndicesTo(r.disabled, peer);
    IndicesAre(r.disabled, peer, i);
    pick :| pick < |candidates| && candidates[pick] == i;
    SmallRemainder(pick, |candidates|);
  }

  lemma SmallRemainder(k: nat, n: nat)
    requires k < n
    ensures k % n == k
  {}

  /** And nothing else may. */
  lemma SomeRouteComesBack(r: RouterState, peer: PeerId, pick: nat) returns (i: nat)
    ensures if CountTo(r.disabled, peer) > 0 then ComesBack(r, peer, pick, i)
              else EnableRoute(r, peer, pick) == (r, None)
  {
    i := 0;
    var candidates := IndicesTo(r.disabled, peer);
    if candidates != [] {
      i := candidates[pick % |candidates|];
      assert i in candidates;
    }
  }

  lemma {:induction false} CountToZero(disabled: seq<Route>, peer: PeerId)
    ensures CountTo(disabled, peer) == 0 <==> forall route :: route in disabled ==> route.target != peer
  {
    if disabled != [] {
      var n := |disabled| - 1;
      assert disabled == disabled[..n] + [disabled[n]];
      CountToZero(disabled[..n], peer);
    }
  }

  /** A run of resets from the same peer, each with its own random outcome. */
  function EnableRoutes(r: RouterState, peer: PeerId, picks: seq<nat>): RouterState {
    if picks == [] then r
    else EnableRoute(EnableRoutes(r, peer, picks[..|picks| - 1]), peer, picks[|picks| - 1]).0
  }

  lemma {:induction false} EnableRoutesCount(r: RouterState, peer: PeerId, picks: seq<nat>)
    ensures var left := CountTo(r.disabled, peer) - |picks|;
            CountTo(EnableRoutes(r, peer, picks).disabled, peer) == if left > 0 then left else 0
  {
    if picks != [] {
      EnableRoutesCount(r, peer, picks[..|picks| - 1]);
      EnableRemovesOne(EnableRoutes(r, peer, picks[..|picks| - 1]), peer, picks[|picks| - 1]);
    }
  }

  /** Whatever the random choices, `peer` is a valid target from every source exactly when there
      were at least as many resets as disabled routes leading to it. */
  lemma ResetsOpenEveryRoute(r: RouterState, peer: PeerId, picks: seq<nat>)
    ensures (forall source :: Valid(EnableRoutes(r, peer, picks), source, peer))
            <==> |picks| >= CountTo(r.disabled, peer)
  {
    var r' := EnableRoutes(r, peer, picks);
    EnableRoutesCount(r, peer, picks);
    CountToZero(r'.disabled, peer);
    if |picks| < CountTo(r.disabled, peer) {
      var route :| route in r'.disabled && route.target == peer;
      assert !Valid(r', route.source, peer);
    }
  }

  lemma {:induction false} MentioningSplits(disabled: seq<Route>, peer: PeerId)
    ensures multiset(Mentioning(disabled, peer, true)) + multiset(Mentioning(disabled, peer, false)) ==
              multiset(disabled)
  {
    if disabled != [] {
      var n := |disabled| - 1;
      assert disabled == disabled[..n] + [disabled[n]];
      MentioningSplits(disabled[..n], peer);
    }
  }

  lemma {:induction false} MentioningCount(disabled: seq<Route>, peer: PeerId, p: PeerId)
    ensures CountTo(Mentioning(disabled, peer, false), p) <= CountTo(disabled, p)
  {
    if disabled != [] {
      var n := |disabled| - 1;
      MentioningCount(disabled[..n], peer, p);
      if !Mentions(disabled[n], peer) {
        CountToAppend(Mentioning(disabled[..n], peer, false), [disabled[n]], p);
        CountToOne(disabled[n], p);
      } else {
        assert Mentioning(disabled, peer, false) == Mentioning(disabled[..n], peer, false);
      }
    }
  }

  /** A disconnect splits the disabled routes in two without losing or making any: the ones it
      returns are those that mention the peer, and none of these is left. */
  lemma DisconnectPartitions(r: RouterState, peer: PeerId)
    ensures var (r', removed) := ResetRoutesWith(r, peer);
            && r'.haveTxSent == r.haveTxSent
            && multiset(removed) + multiset(r'.disabled) == multiset(r.disabled)
            && (forall route :: route in removed ==> Mentions(route, peer))
            && (forall route :: route in r'.disabled ==> !Mentions(route, peer))
            && (forall source :: Valid(r', source, peer))
            && (forall p :: CountTo(r'.disabled, p) <= CountTo(r.disabled, p))
  {
    MentioningSplits(r.disabled, peer);
    forall p
      ensures CountTo(ResetRoutesWith(r, peer).0.disabled, p) <= CountTo(r.disabled, p)
    {
      MentioningCount(r.disabled, peer, p);
    }
  }

  // ---- The router as a multiset of routes ----

  datatype RouterOp = Cut(source: PeerId, target: PeerId) | Reset(peer: PeerId, pick: nat) | Gone(peer: PeerId)

  function Operate(r: RouterState, op: RouterOp): RouterState {
    match op
    case Cut(source, target) => DisableRoute(r, source, target)
    case Reset(peer, pick) => EnableRoute(r, peer, pick).0
    case Gone(peer) => ResetRoutesWith(r, peer).0
  }

  function Operated(r: RouterState, ops: seq<RouterOp>): RouterState {
    if ops == [] then r else Operate(Operated(r, ops[..|ops| - 1]), ops[|ops| - 1])
  }

  /** What an operation does to the multiset of disabled routes: a HaveTx adds one, a reset takes one
      occurrence away if any route leads to the peer, a disconnect removes all that mention it. */
  ghost predicate MultisetStep(m: multiset<Route>, op: RouterOp, m': multiset<Route>) {
    match op
    case Cut(source, target) => m' == m + multiset{Route(source, target)}
    case Reset(peer, _) =>
      if exists route :: route in m && route.target == peer
      then exists route :: route in m && route.target == peer && m' == m - multiset{route}
      else m' == m
    case Gone(peer) => forall route :: m'[route] == if Mentions(route, peer) then 0 else m[route]
  }

  /** The multiset after the first `i` operations. */
  ghost function Picture(r: RouterState, ops: seq<RouterOp>, i: nat): multiset<Route>
    requires i <= |ops|
  {
    multiset(Operated(r, ops[..i]).disabled)
  }

  lemma StepRefines(r: RouterState, op: RouterOp)
    ensures MultisetStep(multiset(r.disabled), op, multiset(Operate(r, op).disabled))
  {
    match op
    case Cut(source, target) =>
    case Reset(peer, pick) =>
      EnableRemovesOne(r, peer, pick);
      CountToZero(r.disabled, peer);
      assert forall route :: route in multiset(r.disabled) <==> route in r.disabled;
    case Gone(peer) =>
      DisconnectPartitions(r, peer);
      var (r', removed) := ResetRoutesWith(r, peer);
      forall route
        ensures multiset(r'.disabled)[route] == if Mentions(route, peer) then 0 else multiset(r.disabled)[route]
      {
        assert (multiset(removed) + multiset(r'.disabled))[route] == multiset(r.disabled)[route];
        assert route in multiset(removed) <==> route in removed;
        assert route in multiset(r'.disabled) <==> route in r'.disabled;
      }
  }

  /** Over any run the list of disabled routes is a faithful picture of the multiset. */
  lemma RunRefines(r: RouterState, ops: seq<RouterOp>)
    ensures Picture(r, ops, 0) == multiset(r.disabled)
    ensures forall i :: 0 <= i < |ops| ==> MultisetStep(Picture(r, ops, i), ops[i], Picture(r, ops, i + 1))
  {
    hide MultisetStep, Operate;
    forall i | 0 <= i < |ops|
      ensures MultisetStep(Picture(r, ops, i), ops[i], Picture(r, ops, i + 1))
    {
      assert ops[..i + 1][..i] == ops[..i];
      StepRefines(Operated(r, ops[..i]), ops[i]);
    }
  }

  lemma FilterOneMore(r: RouterState, source: PeerId, s: seq<PeerId>, x: PeerId)
    ensures FilterValid(r, source, s + [x]) == FilterValid(r, source, s) + if Valid(r, source, x) then [x] else []
  {
    assert (s + [x])[..|s|] == s;
  }

  lemma NothingFiltered(r: RouterState, source: PeerId)
    ensures FilterValid(r, source, []) == []
  {}

  lemma FilterStep(r: RouterState, source: PeerId, a: seq<PeerId>, b: seq<PeerId>, x: PeerId)
    requires FilterValid(r, source, a + b) == FilterValid(r, source, a) + FilterValid(r, source, b)
    ensures FilterValid(r, source, a + (b + [x])) == FilterValid(r, source, a) + FilterValid(r, source, b + [x])
  {
    hide FilterValid, Valid;
    assert a + (b + [x]) == (a + b) + [x];
    FilterOneMore(r, source, a + b, x);
    FilterOneMore(r, source, b, x);
  }

  /** Filtering keeps order and repetition. */
  lemma {:induction false} FilterKeepsOrder(r: RouterState, source: PeerId, a: seq<PeerId>, b: seq<PeerId>)
    ensures FilterValid(r, source, a + b) == FilterValid(r, source, a) + FilterValid(r, source, b)
  {
    hide FilterValid, Valid;
    if b == [] {
      NothingFiltered(r, source);
      assert a + b == a && FilterValid(r, source, a) + [] == FilterValid(r, source, a);
    } else {
      var k := |b| - 1;
      FilterKeepsOrder(r, source, a, b[..k]);
      FilterStep(r, source, a, b[..k], b[k]);
      assert b[..k] + [b[k]] == b;
    }
  }

  /** And it looks at nothing but which routes are disabled. */
  lemma {:induction false} FilterBySupport(r: RouterState, r': RouterState, source: PeerId, targets: seq<PeerId>)
    requires multiset(r.disabled) == multiset(r'.disabled)
    ensures FilterValid(r, source, targets) == FilterValid(r', source, targets)
  {
    if targets != [] {
      var t := targets[|targets| - 1];
      FilterBySupport(r, r', source, targets[..|targets| - 1]);
      assert Route(source, t) in multiset(r.disabled) <==> Route(source, t) in r.disabled;
      assert Route(source, t) in multiset(r'.disabled) <==> Route(source, t) in r'.disabled;
    }
  }

  lemma MentioningOneMore(s: seq<Route>, x: Route, peer: PeerId, wanted: bool)
    ensures Mentioning(s + [x], peer, wanted) == Mentioning(s, peer, wanted) + if Mentions(x, peer) == wanted then [x]
              else []
  {
    assert (s + [x])[..|s|] == s;
  }

  lemma NothingMentioned(peer: PeerId, wanted: bool)
    ensures Mentioning([], peer, wanted) == []
  {}

  lemma StableStep(a: seq<Route>, b: seq<Route>, x: Route, peer: PeerId, wanted: bool)
    requires Mentioning(a + b, peer, wanted) == Mentioning(a, peer, wanted) + Mentioning(b, peer, wanted)
    ensures Mentioning(a + (b + [x]), peer, wanted) == Mentioning(a, peer, wanted) + Mentioning(b + [x], peer, wanted)
  {
    hide Mentioning, Mentions;
    assert a + (b + [x]) == (a + b) + [x];
    MentioningOneMore(a + b, x, peer, wanted);
    MentioningOneMore(b, x, peer, wanted);
  }

  /** A disconnect keeps the order of what it removes and of what it leaves. */
  lemma {:induction false} DisconnectIsStable(a: seq<Route>, b: seq<Route>, peer: PeerId, wanted: bool)
    ensures Mentioning(a + b, peer, wanted) == Mentioning(a, peer, wanted) + Mentioning(b, peer, wanted)
  {
    hide Mentioning, Mentions;
    if b == [] {
      NothingMentioned(peer, wanted);
      assert a + b == a && Mentioning(a, peer, wanted) + [] == Mentioning(a, peer, wanted);
    } else {
      var k := |b| - 1;
      DisconnectIsStable(a, b[..k], peer, wanted);
      StableStep(a, b[..k], b[k], peer, wanted);
      assert b[..k] + [b[k]] == b;
    }
  }

  /** The router object. */
  class Router {
    var disabledRoutes: seq<Route>
    var haveTxSentPerPeer: map<PeerId, nat>

    ghost function State(): RouterState
      reads this
    {
      RouterState(disabledRoutes, haveTxSentPerPeer)
    }

    constructor ()
      ensures State() == RouterState([], map[])
    {
      disabledRoutes, haveTxSentPerPeer := [], map[];
    }

    method Disable(source: PeerId, target: PeerId)
      modifies this
      ensures State() == DisableRoute(old(State()), source, target)
    {
      disabledRoutes := disabledRoutes + [Route(source, target)];
    }

    method EnableRandomRouteToPeer(peer: PeerId, pick: nat) returns (route: Option<Route>)
      modifies this
      ensures (State(), route) == EnableRoute(old(State()), peer, pick)
    {
      var candidates: seq<nat> := [];
      for i := 0 to |disabledRoutes|
        invariant candidates == IndicesTo(disabledRoutes[..i], peer)
      {
        assert disabledRoutes[..i + 1][..i] == disabledRoutes[..i];
        if disabledRoutes[i].target == peer {
          candidates := candidates + [i];
        }
      }
      assert disabledRoutes[..|disabledRoutes|] == disabledRoutes;
      if candidates != [] {
        var index := candidates[pick % |candidates|];
        assert index in candidates;
        route := Some(disabledRoutes[index]);
        disabledRoutes := disabledRoutes[..index] + disabledRoutes[index + 1..];
      } else {
        route := None;
      }
    }

    method ResetRoutesWithPeer(peer: PeerId) returns (removed: seq<Route>)
      modifies this
      ensures (State(), removed) == ResetRoutesWith(old(State()), peer)
    {
      var retained: seq<Route> := [];
      removed := [];
      for i := 0 to |disabledRoutes|
        invariant retained == Mentioning(disabledRoutes[..i], peer, false)
        invariant removed == Mentioning(disabledRoutes[..i], peer, true)
        invariant State() == old(State())
      {
        assert disabledRoutes[..i + 1][..i] == disabledRoutes[..i];
        if disabledRoutes[i].source == peer || disabledRoutes[i].target == peer {
          removed := removed + [disabledRoutes[i]];
        } else {
          retained := retained + [disabledRoutes[i]];
        }
      }
      assert disabledRoutes[..|disabledRoutes|] == disabledRoutes;
      disabledRoutes := retained;
    }

    method FilterValidRoutes(source: PeerId, targets: seq<PeerId>) returns (valid: seq<PeerId>)
      ensures valid == FilterValid(State(), source, targets)
    {
      valid := [];
      for i := 0 to |targets|
        invariant valid == FilterValid(State(), source, targets[..i])
      {
        assert targets[..i + 1][..i] == targets[..i];
        if Route(source, targets[i]) !in disabledRoutes {
          valid := valid + [targets[i]];
        }
      }
      assert targets[..|targets|] == targets;
    }

    method RegisterHaveTxSent(peer: PeerId)
      modifies this
      ensures State() == RegisterHaveTx(old(State()), peer)
    {
      var counter := if peer in haveTxSentPerPeer then haveTxSentPerPeer[peer] else 0;
      haveTxSentPerPeer := haveTxSentPerPeer[peer := counter + 1];
    }

    method RemoveHaveTxSent(peer: PeerId)
      modifies this
      ensures State() == RemoveHaveTx(old(State()), peer)
    {
      if peer in haveTxSentPerPeer {
        if haveTxSentPerPeer[peer] > 0 {
          haveTxSentPerPeer := haveTxSentPerPeer[peer := haveTxSentPerPeer[peer] - 1];
        }
      }
    }
  }

  // ---- Redundancy controller ----

  /** Redundancy is kept as an exact real number; the source uses `f64`. */
  datatype ControllerState = ControllerState(lower: real, upper: real, firstTime: nat, duplicates: nat,
                                             haveTxBlocked: bool)

  function NewController(target: real, deltaPercent: nat): ControllerState {
    var delta := target * (deltaPercent as real / 100.0);
    ControllerState(target - delta, target + delta, 0, 0, false)
  }

  function Redundancy(c: ControllerState): real {
    if c.firstTime == 0 then c.upper else c.duplicates as real / c.firstTime as real
  }

  /** `evaluate`: the redundancy, and whether to ask for a route back. */
  function Evaluate(c: ControllerState): (ControllerState, real, bool) {
    if c.firstTime + c.duplicates == 0 then (c, c.upper, false)
    else if Redundancy(c) < c.lower then (c, Redundancy(c), true)
    else (if Redundancy(c) > c.upper then c.(haveTxBlocked := false) else c, Redundancy(c), false)
  }

  function ResetCounters(c: ControllerState): ControllerState {
    c.(firstTime := 0, duplicates := 0)
  }

  /** The hysteresis without a division: below `lower` first-time transactions ask for a route back,
      above `upper` unblock HaveTx, and a period without a first-time transaction does neither. */
  lemma EvaluateMeans(c: ControllerState)
    requires c.lower <= c.upper
    ensures var (c', _, askForRoute) := Evaluate(c);
            && (askForRoute <==> c.firstTime > 0 && c.duplicates as real < c.lower * c.firstTime as real)
            && (c'.haveTxBlocked <==>
                c.haveTxBlocked && !(c.firstTime > 0 && c.duplicates as real > c.upper * c.firstTime as real))
            && c' == c.(haveTxBlocked := c'.haveTxBlocked)
  {
    if c.firstTime > 0 {
      var f, d := c.firstTime as real, c.duplicates as real;
      RatioCompare(d, f, c.lower);
      RatioCompare(d, f, c.upper);
    }
  }

  lemma RatioCompare(d: real, f: real, bound: real)
    requires f > 0.0
    ensures d / f < bound <==> d < bound * f
    ensures d / f > bound <==> d > bound * f
  {
    var q := d / f;
    assert q * f == d;
    if q < bound {
      assert (bound - q) * f > 0.0;
    } else if q > bound {
      assert (q - bound) * f > 0.0;
    }
  }

  class Controller {
    const lowerBound: real
    const upperBound: real
    var firstTimeTxsCount: nat
    var duplicateTxsCount: nat
    var isHaveTxBlocked: bool

    ghost function State(): ControllerState
      reads this
    {
      ControllerState(lowerBound, upperBound, firstTimeTxsCount, duplicateTxsCount, isHaveTxBlocked)
    }

    constructor (target: real, deltaPercent: nat)
      ensures State() == NewController(target, deltaPercent)
    {
      var delta := target * (deltaPercent as real / 100.0);
      lowerBound, upperBound := target - delta, target + delta;
      firstTimeTxsCount, duplicateTxsCount, isHaveTxBlocked := 0, 0, false;
    }

    method IncrFirstTime()
      modifies this
      ensures State() == old(State()).(firstTime := old(State()).firstTime + 1)
    {
      firstTimeTxsCount := firstTimeTxsCount + 1;
    }

    method IncrDuplicates()
      modifies this
      ensures State() == old(State()).(duplicates := old(State()).duplicates + 1)
    {
      duplicateTxsCount := duplicateTxsCount + 1;
    }

    method BlockHaveTx()
      modifies this
      ensures State() == old(State()).(haveTxBlocked := true)
    {
      isHaveTxBlocked := true;
    }

    method EvaluateRedundancy() returns (redundancy: real, askForRoute: bool)
      modifies this
      ensures (State(), redundancy, askForRoute) == Evaluate(old(State()))
    {
      if firstTimeTxsCount + duplicateTxsCount == 0 {
        return upperBound, false;
      }
      redundancy := if firstTimeTxsCount == 0 then upperBound
                    else duplicateTxsCount as real / firstTimeTxsCount as real;
      if redundancy < lowerBound {
        return redundancy, true;
      }
      if redundancy > upperBound {
        isHaveTxBlocked := false;
      }
      return redundancy, false;
    }

    method ClearCounters()
      modifies this
      ensures State() == ResetCounters(old(State()))
    {
      firstTimeTxsCount, duplicateTxsCount := 0, 0;
    }
  }
}

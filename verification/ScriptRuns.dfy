/** What any sequence of scheduler operations publishes: any number of phases, opened, filled and applied
    in any order and any number of times, with any delays and any change of the active nodes. */
module ScriptRuns {
  import opened Types
  import opened Scripts

  /** `phases` are the phase objects made so far and `record` the places of those that were applied, in
      order. A record shares its messages with its phase. */
  datatype World = World(e: Experiment, phases: seq<Phase>, record: seq<nat>)

  datatype Op =
    | Activation(node: NodeId)
    | Deactivation(node: NodeId)
    | Setup(node: NodeId, peers: seq<NodeId>, topics: seq<nat>)
    | Open(warmup: int, cooldown: int)
    | PublishOne(k: nat, delay: int, node: NodeId, size: nat, topic: nat)
    | Close(k: nat)

  function Or(e: Option<Experiment>, default: Experiment): Experiment {
    if e.Some? then e.value else default
  }

  /** An operation the source refuses with an error leaves everything as it was, and so does one on a
      phase that does not exist. */
  function Do(w: World, op: Op): World {
    match op
    case Activation(node) => w.(e := Or(Activate(w.e, node), w.e))
    case Deactivation(node) => w.(e := Or(Deactivate(w.e, node), w.e))
    case Setup(node, peers, topics) => w.(e := Or(SetupNode(w.e, node, peers, topics), w.e))
    case Open(warmup, cooldown) => w.(phases := w.phases + [NewPhase(w.e, warmup, cooldown)])
    case PublishOne(k, delay, node, size, topic) =>
      if k >= |w.phases| then w
      else
        (match AddMessage(w.e, w.phases[k], delay, node, size, topic)
         case None => w
         case Some((e, p)) => w.(e := e, phases := w.phases[k := p]))
    case Close(k) =>
      if k >= |w.phases| then w else w.(e := Apply(w.e, w.phases[k]), record := w.record + [k])
  }

  function Run(nodes: seq<NodeId>, ops: seq<Op>): World {
    if ops == [] then World(NewExperiment(nodes), [], []) else Do(Run(nodes, ops[..|ops| - 1]), ops[|ops| - 1])
  }

  // ---- Scripts and messages ----

  predicate Publishes(i: Instruction, id: nat) {
    |i.commands| == 1 && i.commands[0].PublishMessage? && i.commands[0].id == id
  }

  /** How often a script publishes message `id`. */
  function Publications(s: seq<Instruction>, id: nat): nat {
    if s == [] then 0 else Publications(s[..|s| - 1], id) + if Publishes(s[|s| - 1], id) then 1 else 0
  }

  lemma {:induction false} PublicationsConcat(a: seq<Instruction>, b: seq<Instruction>, id: nat)
    ensures Publications(a + b, id) == Publications(a, id) + Publications(b, id)
  {
    if b == [] {
      assert a + b == a;
    } else {
      PublicationsConcat(a, b[..|b| - 1], id);
      assert (a + b)[..|a + b| - 1] == a + b[..|b| - 1];
    }
  }

  lemma PublicationsOne(i: Instruction, id: nat)
    ensures Publications([i], id) == if Publishes(i, id) then 1 else 0
  {
    assert [i][..0] == [];
  }

  /** How many messages are `id` from `source`. */
  function Sent(ms: seq<Message>, source: NodeId, id: nat): nat {
    if ms == [] then 0 else Sent(ms[..|ms| - 1], source, id) + if ms[|ms| - 1].source == source && ms[|ms| - 1].id == id
        then 1 else 0
  }

  lemma {:induction false} SentConcat(a: seq<Message>, b: seq<Message>, source: NodeId, id: nat)
    ensures Sent(a + b, source, id) == Sent(a, source, id) + Sent(b, source, id)
  {
    if b == [] {
      assert a + b == a;
    } else {
      SentConcat(a, b[..|b| - 1], source, id);
      assert (a + b)[..|a + b| - 1] == a + b[..|b| - 1];
    }
  }

  lemma SentOne(m: Message, source: NodeId, id: nat)
    ensures Sent([m], source, id) == if m.source == source && m.id == id then 1 else 0
  {
    assert [m][..0] == [];
  }

  function AsInstruction(m: Message): Instruction {
    Instruction(m.time, [PublishMessage(m.id, m.topic, m.size)])
  }

  /** What the messages from one node are as a script. */
  function FromNode(ms: seq<Message>, node: NodeId): seq<Instruction> {
    if ms == [] then []
    else FromNode(ms[..|ms| - 1], node) + if ms[|ms| - 1].source == node then [AsInstruction(ms[|ms| - 1])] else []
  }

  lemma FromNodeAppend(ms: seq<Message>, m: Message, node: NodeId)
    ensures FromNode(ms + [m], node) == FromNode(ms, node) + if m.source == node then [AsInstruction(m)] else []
  {
    assert (ms + [m])[..|ms|] == ms;
  }

  lemma {:induction false} FromNodePublishes(ms: seq<Message>, node: NodeId, id: nat)
    ensures Publications(FromNode(ms, node), id) == Sent(ms, node, id)
  {
    if ms != [] {
      var k := |ms| - 1;
      FromNodePublishes(ms[..k], node, id);
      PublicationsConcat(FromNode(ms[..k], node), [AsInstruction(ms[k])], id);
      PublicationsOne(AsInstruction(ms[k]), id);
      assert FromNode(ms[..k], node) + [] == FromNode(ms[..k], node);
    }
  }

  lemma {:induction false} FromNodeHas(ms: seq<Message>, m: Message)
    requires m in ms
    ensures AsInstruction(m) in FromNode(ms, m.source) && Sent(ms, m.source, m.id) > 0
  {
    var k := |ms| - 1;
    if m != ms[k] {
      assert m in ms[..k];
      FromNodeHas(ms[..k], m);
    }
  }

  /** The messages of the phases on the record. */
  function Recorded(phases: seq<Phase>, record: seq<nat>): seq<Message> {
    if record == [] then []
    else
      var k := record[|record| - 1];
      Recorded(phases, record[..|record| - 1]) + if k < |phases| then phases[k].messages else []
  }

  function Occurrences(record: seq<nat>, k: nat): nat {
    if record == [] then 0
    else Occurrences(record[..|record| - 1], k) + if record[|record| - 1] == k then 1 else 0
  }

  lemma {:induction false} OccursIffIn(record: seq<nat>, k: nat)
    ensures Occurrences(record, k) > 0 <==> k in record
  {
    if record != [] {
      var n := |record| - 1;
      OccursIffIn(record[..n], k);
      assert record == record[..n] + [record[n]];
    }
  }

  lemma RecordOneMore(phases: seq<Phase>, record: seq<nat>, k: nat)
    requires k < |phases|
    ensures Recorded(phases, record + [k]) == Recorded(phases, record) + phases[k].messages
  {
    assert (record + [k])[..|record|] == record;
  }

  /** A message that is added to a phase shows in the record once for every time the phase is on it. */
  lemma {:induction false} RecordedGrows(phases: seq<Phase>, record: seq<nat>, k: nat, p: Phase, m: Message,
                                         node: NodeId, id: nat)
    requires k < |phases| && p.messages == phases[k].messages + [m]
    ensures Sent(Recorded(phases[k := p], record), node, id) ==
            Sent(Recorded(phases, record), node, id) +
            if m.source == node && m.id == id then Occurrences(record, k) else 0
    ensures k !in record ==> Recorded(phases[k := p], record) == Recorded(phases, record)
  {
    hide Sent;
    if record != [] {
      var n := |record| - 1;
      RecordedGrows(phases, record[..n], k, p, m, node, id);
      var before, after := Recorded(phases, record[..n]), Recorded(phases[k := p], record[..n]);
      var j := record[n];
      if j < |phases| {
        SentConcat(before, phases[j].messages, node, id);
        SentConcat(after, phases[k := p][j].messages, node, id);
        SentConcat(phases[k].messages, [m], node, id);
        SentOne(m, node, id);
      } else {
        assert before + [] == before && after + [] == after;
      }
    }
  }

  lemma {:induction false} RecordedLonger(phases: seq<Phase>, p: Phase, record: seq<nat>)
    requires forall k :: k in record ==> k < |phases|
    ensures Recorded(phases + [p], record) == Recorded(phases, record)
  {
    if record != [] {
      var n := |record| - 1;
      assert record[n] in record && forall k :: k in record[..n] ==> k in record;
      RecordedLonger(phases, p, record[..n]);
    }
  }

  // ---- What every run keeps ----

  ghost predicate NodesDistinct(active: seq<NodeId>, ready: seq<NodeId>) {
    NoDuplicates(active) && NoDuplicates(ready) && forall x :: x in active ==> x !in ready
  }

  /** The main scripts of a phase are its messages. */
  ghost predicate Tells(p: Phase) {
    forall node :: Of(p.main, node) == FromNode(p.messages, node)
  }

  ghost predicate Coherent(w: World) {
    && NodesDistinct(w.e.active, w.e.ready)
    && (forall k :: 0 <= k < |w.phases| ==> Tells(w.phases[k]))
    && (forall k :: k in w.record ==> k < |w.phases|)
  }

  lemma {:induction false} RemoveFirstKeeps(s: seq<NodeId>, x: NodeId)
    ensures RemoveFirst(s, x).Some? <==> x in s
    ensures NoDuplicates(s) && RemoveFirst(s, x).Some? ==>
              var rest := RemoveFirst(s, x).value; NoDuplicates(rest) && forall y :: y in rest <==> y in s && y != x
  {
    if s != [] && s[0] != x {
      RemoveFirstKeeps(s[1..], x);
      assert s == [s[0]] + s[1..];
      if RemoveFirst(s[1..], x).Some? && NoDuplicates(s) {
        var rest := RemoveFirst(s[1..], x).value;
        assert NoDuplicates(s[1..]);
        assert s[0] !in s[1..];
        assert RemoveFirst(s, x).value == [s[0]] + rest;
      }
    } else if s != [] {
      assert s == [x] + s[1..];
      if NoDuplicates(s) {
        assert x !in s[1..];
      }
    }
  }

  lemma MoveKeeps(e: Experiment, node: NodeId)
    requires NodesDistinct(e.active, e.ready)
    ensures var a, d := Or(Activate(e, node), e), Or(Deactivate(e, node), e);
            NodesDistinct(a.active, a.ready) && NodesDistinct(d.active, d.ready)
  {
    RemoveFirstKeeps(e.ready, node);
    RemoveFirstKeeps(e.active, node);
  }

  lemma {:induction false} RemoveFirstTakesOne(s: seq<NodeId>, x: NodeId)
    ensures RemoveFirst(s, x).Some? <==> x in multiset(s)
    ensures RemoveFirst(s, x).Some? ==> multiset(RemoveFirst(s, x).value) == multiset(s) - multiset{x}
  {
    if s != [] {
      assert s == [s[0]] + s[1..];
      if s[0] != x {
        RemoveFirstTakesOne(s[1..], x);
      }
    }
  }

  /** `activate_nodes` with a whole list. */
  function ActivateList(e: Experiment, nodes: seq<NodeId>): Option<Experiment> {
    if nodes == [] then Some(e)
    else
      match ActivateList(e, nodes[..|nodes| - 1])
      case None => None
      case Some(e') => Activate(e', nodes[|nodes| - 1])
  }

  /** A list of nodes can be activated if and only if they are all ready, each as often as it is listed; they then
      stand behind those that were active before, in the order of the list, and are ready no more. */
  lemma {:induction false} ActivatesInOrder(e: Experiment, nodes: seq<NodeId>)
    ensures ActivateList(e, nodes).Some? <==> multiset(nodes) <= multiset(e.ready)
    ensures ActivateList(e, nodes).Some? ==>
              var e' := ActivateList(e, nodes).value;
              && e' == e.(active := e.active + nodes, ready := e'.ready)
              && multiset(e'.ready) == multiset(e.ready) - multiset(nodes)
  {
    hide Activate;
    if nodes == [] {
      assert e.active + [] == e.active;
    } else {
      var k := |nodes| - 1;
      var x := nodes[k];
      ActivatesInOrder(e, nodes[..k]);
      assert nodes == nodes[..k] + [x] && multiset(nodes) == multiset(nodes[..k]) + multiset{x} by { LastOfAll(nodes); }
      OneMoreFits(multiset(e.ready), multiset(nodes[..k]), x);
      if ActivateList(e, nodes[..k]).Some? {
        ActivatesOneMore(e, ActivateList(e, nodes[..k]).value, nodes[..k], x);
      }
    }
  }

  lemma LastOfAll(s: seq<NodeId>)
    requires s != []
    ensures s == s[..|s| - 1] + [s[|s| - 1]]
    ensures multiset(s) == multiset(s[..|s| - 1]) + multiset{s[|s| - 1]}
  {
    assert s == s[..|s| - 1] + [s[|s| - 1]];
  }

  lemma ActivatesOneMore(e: Experiment, e1: Experiment, before: seq<NodeId>, x: NodeId)
    requires e1 == e.(active := e.active + before, ready := e1.ready)
    ensures Activate(e1, x).Some? <==> x in multiset(e1.ready)
    ensures Activate(e1, x).Some? ==>
              var e' := Activate(e1, x).value;
              && e' == e.(active := e.active + (before + [x]), ready := e'.ready)
              && multiset(e'.ready) == multiset(e1.ready) - multiset{x}
  {
    hide RemoveFirst;
    RemoveFirstTakesOne(e1.ready, x);
    assert e.active + (before + [x]) == e.active + before + [x];
  }

  lemma OneMoreFits(a: multiset<NodeId>, b: multiset<NodeId>, x: NodeId)
    ensures b + multiset{x} <= a ==> b <= a
    ensures b <= a ==> (b + multiset{x} <= a <==> x in a - b) && (a - b) - multiset{x} == a - (b + multiset{x})
  {
    if b + multiset{x} <= a {
      forall y
        ensures b[y] <= a[y]
      {
        assert (b + multiset{x})[y] <= a[y];
      }
      assert (b + multiset{x})[x] <= a[x];
    }
  }

  /** Applying a phase lays its scripts behind what there was, for the active nodes. */
  lemma {:induction false} LaidOf(s: Scripts, nodes: seq<NodeId>, main: Scripts, end: int, node: NodeId)
    requires NoDuplicates(nodes)
    ensures Of(Laid(s, nodes, main, end), node) ==
            Of(s, node) + if node in nodes then Of(main, node) + [Instruction(end, [])] else []
  {
    hide Of, NoDuplicates;
    if nodes == [] {
      assert Of(s, node) + [] == Of(s, node);
    } else {
      var k := |nodes| - 1;
      var last := Of(main, nodes[k]) + [Instruction(end, [])];
      LastApart(nodes);
      LaidOf(s, nodes[..k], main, end, node);
      AppendOf(Laid(s, nodes[..k], main, end), nodes[k], last, node);
      if node == nodes[k] {
        assert Of(s, node) + [] == Of(s, node);
      }
    }
  }

  lemma AppendOf(s: Scripts, x: NodeId, more: seq<Instruction>, node: NodeId)
    ensures Of(Append(s, x, more), node) == Of(s, node) + if node == x then more else []
  {}

  lemma LastApart(nodes: seq<NodeId>)
    requires nodes != [] && NoDuplicates(nodes)
    ensures NoDuplicates(nodes[..|nodes| - 1]) && nodes[|nodes| - 1] !in nodes[..|nodes| - 1]
    ensures forall x :: x in nodes <==> x in nodes[..|nodes| - 1] || x == nodes[|nodes| - 1]
  {
    assert nodes == nodes[..|nodes| - 1] + [nodes[|nodes| - 1]];
  }

  lemma AddTells(e: Experiment, p: Phase, delay: int, node: NodeId, size: nat, topic: nat)
    requires Tells(p) && AddMessage(e, p, delay, node, size, topic).Some?
    ensures var p' := AddMessage(e, p, delay, node, size, topic).value.1;
            Tells(p') && p'.messages == p.messages + [Message(e.nextId, node, size, topic, MainEnd(e, p'))]
  {
    hide FromNode;
    var p' := AddMessage(e, p, delay, node, size, topic).value.1;
    var m := Message(e.nextId, node, size, topic, MainEnd(e, p'));
    forall x
      ensures Of(p'.main, x) == FromNode(p'.messages, x)
    {
      assert Of(p.main, x) == FromNode(p.messages, x);
      FromNodeAppend(p.messages, m, x);
    }
  }

  lemma DoCoherent(w: World, op: Op)
    requires Coherent(w)
    ensures Coherent(Do(w, op))
  {
    hide NodesDistinct, Tells, AddMessage;
    match op
    case Activation(node) => MoveKeeps(w.e, node);
    case Deactivation(node) => MoveKeeps(w.e, node);
    case Open(warmup, cooldown) => NewTells(w.e, warmup, cooldown);
    case PublishOne(k, delay, node, size, topic) =>
      AddFrame(w, k, delay, node, size, topic);
      if k < |w.phases| && AddMessage(w.e, w.phases[k], delay, node, size, topic).Some? {
        AddTells(w.e, w.phases[k], delay, node, size, topic);
      }
    case _ =>
  }

  lemma NewTells(e: Experiment, warmup: int, cooldown: int)
    ensures Tells(NewPhase(e, warmup, cooldown))
  {}

  /** Adding a message leaves everything alone but its phase and the next id. */
  lemma AddFrame(w: World, k: nat, delay: int, node: NodeId, size: nat, topic: nat)
    ensures var w' := Do(w, PublishOne(k, delay, node, size, topic));
            && w' == w.(e := w.e.(nextId := w'.e.nextId), phases := w'.phases) && |w'.phases| == |w.phases|
            && (forall j :: 0 <= j < |w.phases| && j != k ==> w'.phases[j] == w.phases[j])
            && (k < |w.phases| && node in w.phases[k].activeIds <==>
                k < |w.phases| && AddMessage(w.e, w.phases[k], delay, node, size, topic).Some?)
            && (k >= |w.phases| || node !in w.phases[k].activeIds ==> w' == w)
            && (k < |w.phases| && node in w.phases[k].activeIds ==>
                  w'.e.nextId == w.e.nextId + 1 &&
                  w'.phases == w.phases[k := AddMessage(w.e, w.phases[k], delay, node, size, topic).value.1])
  {}

  lemma {:induction false} RunCoherent(nodes: seq<NodeId>, ops: seq<Op>)
    requires NoDuplicates(nodes)
    ensures Coherent(Run(nodes, ops))
  {
    hide Coherent, Do;
    if ops == [] {
      StartCoherent(nodes);
    } else {
      RunCoherent(nodes, ops[..|ops| - 1]);
      DoCoherent(Run(nodes, ops[..|ops| - 1]), ops[|ops| - 1]);
    }
  }

  lemma StartCoherent(nodes: seq<NodeId>)
    requires NoDuplicates(nodes)
    ensures Coherent(World(NewExperiment(nodes), [], []))
  {}

  // ---- Every message has an id of its own ----

  function Named(ms: seq<Message>, id: nat): nat {
    if ms == [] then 0 else Named(ms[..|ms| - 1], id) + if ms[|ms| - 1].id == id then 1 else 0
  }

  /** How many messages of all phases have the id. */
  function NamedInAll(phases: seq<Phase>, id: nat): nat {
    if phases == [] then 0 else NamedInAll(phases[..|phases| - 1], id) + Named(phases[|phases| - 1].messages, id)
  }

  lemma NamedAppend(ms: seq<Message>, m: Message, id: nat)
    ensures Named(ms + [m], id) == Named(ms, id) + if m.id == id then 1 else 0
  {
    assert (ms + [m])[..|ms|] == ms;
  }

  lemma {:induction false} NamedUpdate(phases: seq<Phase>, k: nat, p: Phase, id: nat)
    requires k < |phases|
    ensures NamedInAll(phases[k := p], id) ==
            NamedInAll(phases, id) - Named(phases[k].messages, id) + Named(p.messages, id)
  {
    hide Named;
    var n := |phases| - 1;
    if k < n {
      NamedUpdate(phases[..n], k, p, id);
      assert phases[k := p][..n] == phases[..n][k := p];
    } else {
      assert phases[k := p][..n] == phases[..n];
    }
  }

  /** Over any run every id below the next one was given to exactly one message of one phase. */
  lemma {:induction false} EveryIdOnce(nodes: seq<NodeId>, ops: seq<Op>, id: nat)
    requires NoDuplicates(nodes)
    ensures NamedInAll(Run(nodes, ops).phases, id) == if id < Run(nodes, ops).e.nextId then 1 else 0
  {
    hide Named, NamedInAll, AddMessage;
    if ops == [] {
      assert NamedInAll([], id) == 0 by { NobodyNamed(id); }
    } else {
      var w, op := Run(nodes, ops[..|ops| - 1]), ops[|ops| - 1];
      EveryIdOnce(nodes, ops[..|ops| - 1], id);
      RunCoherent(nodes, ops[..|ops| - 1]);
      DoNamed(w, op, id);
    }
  }

  lemma NobodyNamed(id: nat)
    ensures NamedInAll([], id) == 0 && Named([], id) == 0
  {}

  lemma DoNamed(w: World, op: Op, id: nat)
    requires Coherent(w)
    ensures var w' := Do(w, op);
            && w'.e.nextId >= w.e.nextId
            && NamedInAll(w'.phases, id) == NamedInAll(w.phases, id) + if w.e.nextId <= id < w'.e.nextId then 1 else 0
  {
    hide Named, NamedInAll, AddMessage, NodesDistinct, Tells;
    match op
    case Open(warmup, cooldown) =>
      NamedNew(w.phases, NewPhase(w.e, warmup, cooldown), id);
    case PublishOne(k, delay, node, size, topic) =>
      AddFrame(w, k, delay, node, size, topic);
      if k < |w.phases| && node in w.phases[k].activeIds {
        AddTells(w.e, w.phases[k], delay, node, size, topic);
        var p := AddMessage(w.e, w.phases[k], delay, node, size, topic).value.1;
        NamedUpdate(w.phases, k, p, id);
        NamedAppend(w.phases[k].messages, Message(w.e.nextId, node, size, topic, MainEnd(w.e, p)), id);
      }
    case _ =>
  }

  lemma NamedNew(phases: seq<Phase>, p: Phase, id: nat)
    requires p.messages == []
    ensures NamedInAll(phases + [p], id) == NamedInAll(phases, id)
  {
    assert (phases + [p])[..|phases|] == phases;
  }

  // ---- What an operation lays ----

  /** What an operation appends to the script of a node. */
  function Laying(w: World, op: Op, node: NodeId): seq<Instruction> {
    match op
    case Setup(x, peers, topics) =>
      if x == node && AsSet(peers) <= AsSet(w.e.active)
      then [Instruction(w.e.elapsed, [ConnectTo(peers)] + Subscriptions(topics))] else []
    case Close(k) =>
      if k < |w.phases| && node in w.e.active
      then FromNode(w.phases[k].messages, node) + [Instruction(PhaseEnd(w.e, w.phases[k]), [])] else []
    case _ => []
  }

  /** Scripts are only ever appended to. */
  lemma DoLays(w: World, op: Op, node: NodeId)
    requires Coherent(w)
    ensures Of(Do(w, op).e.scripts, node) == Of(w.e.scripts, node) + Laying(w, op, node)
  {
    hide AddMessage, Activate, Deactivate, Laid, Tells, FromNode, PhaseEnd;
    assert Of(w.e.scripts, node) + [] == Of(w.e.scripts, node);
    match op
    case Close(k) =>
      if k < |w.phases| {
        var p := w.phases[k];
        LaidOf(w.e.scripts, w.e.active, p.main, PhaseEnd(w.e, p), node);
        TellsOf(p, node);
      }
    case PublishOne(k, delay, x, size, topic) => AddFrame(w, k, delay, x, size, topic);
    case Activation(x) => MoveFrame(w.e, x);
    case Deactivation(x) => MoveFrame(w.e, x);
    case _ =>
  }

  lemma TellsOf(p: Phase, node: NodeId)
    requires Tells(p)
    ensures Of(p.main, node) == FromNode(p.messages, node)
  {}

  lemma MoveFrame(e: Experiment, node: NodeId)
    ensures var a, d := Or(Activate(e, node), e), Or(Deactivate(e, node), e);
            a == e.(active := a.active, ready := a.ready) && d == e.(active := d.active)
  {}

  // ---- Who publishes what ----

  /** The scripts publish exactly these messages, each by an instruction at its time. */
  ghost predicate Agree(s: Scripts, ms: seq<Message>) {
    && (forall node: NodeId, id: nat {:trigger Publications(Of(s, node), id)} ::
          Publications(Of(s, node), id) == Sent(ms, node, id))
    && forall m :: m in ms ==> AsInstruction(m) in Of(s, m.source)
  }

  /** The operation puts a message on the record that no script gets: it applies a phase with a message
      whose source is not active any more, or adds one to a phase that has been applied. */
  ghost predicate LeavesOut(w: World, op: Op) {
    match op
    case Close(k) => k < |w.phases| && exists m :: m in w.phases[k].messages && m.source !in w.e.active
    case PublishOne(k, _, node, _, _) => k < |w.phases| && node in w.phases[k].activeIds && k in w.record
    case _ => false
  }

  ghost predicate LeavesOutAt(nodes: seq<NodeId>, ops: seq<Op>, i: nat) {
    i < |ops| && LeavesOut(Run(nodes, ops[..i]), ops[i])
  }

  /** How many messages `id` of a node an operation leaves out. */
  function Missing(w: World, op: Op, node: NodeId, id: nat): nat {
    match op
    case Close(k) => if k < |w.phases| && node !in w.e.active then Sent(w.phases[k].messages, node, id) else 0
    case PublishOne(k, _, source, _, _) =>
      if k < |w.phases| && source in w.phases[k].activeIds && source == node && id == w.e.nextId
      then Occurrences(w.record, k) else 0
    case _ => 0
  }

  function Shown(w: World): seq<Message> { Recorded(w.phases, w.record) }

  /** What is published and what is missing grow together by what is recorded. */
  lemma DoBalances(w: World, op: Op, node: NodeId, id: nat)
    requires Coherent(w)
    ensures Publications(Of(Do(w, op).e.scripts, node), id) - Publications(Of(w.e.scripts, node), id) +
            Missing(w, op, node, id) ==
            Sent(Shown(Do(w, op)), node, id) - Sent(Shown(w), node, id)
  {
    hide Publications, Sent, Laid, NodesDistinct, Tells, AddMessage, Recorded, FromNode;
    DoLays(w, op, node);
    PublicationsConcat(Of(w.e.scripts, node), Laying(w, op, node), id);
    NothingPublished();
    match op
    case Setup(_, peers, topics) =>
      PublicationsOne(Instruction(w.e.elapsed, [ConnectTo(peers)] + Subscriptions(topics)), id);
    case Open(warmup, cooldown) => RecordedLonger(w.phases, NewPhase(w.e, warmup, cooldown), w.record);
    case PublishOne(k, delay, source, size, topic) => AddBalances(w, k, delay, source, size, topic, node, id);
    case Close(k) => CloseBalances(w, k, node, id);
    case _ =>
  }

  lemma NothingPublished()
    ensures forall id :: Publications([], id) == 0
  {}

  lemma AddBalances(w: World, k: nat, delay: int, source: NodeId, size: nat, topic: nat, node: NodeId, id: nat)
    requires Coherent(w)
    ensures var op := PublishOne(k, delay, source, size, topic);
            Missing(w, op, node, id) == Sent(Shown(Do(w, op)), node, id) - Sent(Shown(w), node, id)
  {
    hide Sent, Tells, AddMessage, Recorded, NodesDistinct;
    AddFrame(w, k, delay, source, size, topic);
    if k < |w.phases| && source in w.phases[k].activeIds {
      AddTells(w.e, w.phases[k], delay, source, size, topic);
      var p := AddMessage(w.e, w.phases[k], delay, source, size, topic).value.1;
      var m := Message(w.e.nextId, source, size, topic, MainEnd(w.e, p));
      RecordedGrows(w.phases, w.record, k, p, m, node, id);
    }
  }

  lemma CloseBalances(w: World, k: nat, node: NodeId, id: nat)
    requires Coherent(w)
    ensures Publications(Laying(w, Close(k), node), id) + Missing(w, Close(k), node, id) ==
            Sent(Shown(Do(w, Close(k))), node, id) - Sent(Shown(w), node, id)
  {
    hide Publications, Sent, FromNode, Recorded, Tells, NodesDistinct, Apply, PhaseEnd;
    NothingPublished();
    if k < |w.phases| {
      var ms, last := w.phases[k].messages, Instruction(PhaseEnd(w.e, w.phases[k]), []);
      RecordOneMore(w.phases, w.record, k);
      SentConcat(Shown(w), ms, node, id);
      FromNodePublishes(ms, node, id);
      PublicationsConcat(FromNode(ms, node), [last], id);
      PublicationsOne(last, id);
    }
  }

  /** How many messages `id` of a node a run has left out. */
  function MissingIn(nodes: seq<NodeId>, ops: seq<Op>, node: NodeId, id: nat): nat {
    if ops == [] then 0
    else
      var k := |ops| - 1;
      MissingIn(nodes, ops[..k], node, id) + Missing(Run(nodes, ops[..k]), ops[k], node, id)
  }

  lemma {:induction false} RunBalances(nodes: seq<NodeId>, ops: seq<Op>, node: NodeId, id: nat)
    requires NoDuplicates(nodes)
    ensures var w := Run(nodes, ops);
            Publications(Of(w.e.scripts, node), id) + MissingIn(nodes, ops, node, id) == Sent(Shown(w), node, id)
  {
    hide Publications, Sent, Do, Missing, Shown;
    if ops == [] {
      StartBalances(nodes, node, id);
    } else {
      var k := |ops| - 1;
      RunBalances(nodes, ops[..k], node, id);
      RunCoherent(nodes, ops[..k]);
      DoBalances(Run(nodes, ops[..k]), ops[k], node, id);
    }
  }

  lemma StartBalances(nodes: seq<NodeId>, node: NodeId, id: nat)
    ensures var w := World(NewExperiment(nodes), [], []);
            Publications(Of(w.e.scripts, node), id) == 0 == Sent(Shown(w), node, id)
  {}

  /** Something is missing exactly when an operation has left something out. */
  lemma MissingMeans(w: World, op: Op)
    ensures LeavesOut(w, op) <==> exists node, id :: Missing(w, op, node, id) > 0
  {
    hide Sent, FromNode;
    match op
    case Close(k) =>
      if k < |w.phases| {
        if m :| m in w.phases[k].messages && m.source !in w.e.active {
          FromNodeHas(w.phases[k].messages, m);
          assert Missing(w, op, m.source, m.id) > 0;
        }
        forall node: NodeId, id: nat | Missing(w, op, node, id) > 0
          ensures LeavesOut(w, op)
        {
          SentMeans(w.phases[k].messages, node, id);
        }
      }
    case PublishOne(k, _, node, _, _) =>
      OccursIffIn(w.record, k);
      assert LeavesOut(w, op) ==> Missing(w, op, node, w.e.nextId) > 0;
    case _ =>
  }

  lemma {:induction false} SentMeans(ms: seq<Message>, node: NodeId, id: nat)
    ensures Sent(ms, node, id) > 0 <==> exists m :: m in ms && m.source == node && m.id == id
  {
    if ms != [] {
      var k := |ms| - 1;
      SentMeans(ms[..k], node, id);
      assert ms == ms[..k] + [ms[k]];
    }
  }

  lemma {:induction false} MissingInMeans(nodes: seq<NodeId>, ops: seq<Op>)
    ensures (exists i: nat :: LeavesOutAt(nodes, ops, i)) <==>
            exists node, id {:trigger MissingIn(nodes, ops, node, id)} :: MissingIn(nodes, ops, node, id) > 0
  {
    hide Run, Missing, LeavesOut;
    if ops != [] {
      var k := |ops| - 1;
      MissingInMeans(nodes, ops[..k]);
      MissingMeans(Run(nodes, ops[..k]), ops[k]);
      SameLeavesOut(nodes, ops);
      if LeavesOutAt(nodes, ops, k) {
        var node, id :| Missing(Run(nodes, ops[..k]), ops[k], node, id) > 0;
        assert MissingIn(nodes, ops, node, id) > 0;
      }
      if i: nat :| LeavesOutAt(nodes, ops, i) && i != k {
        assert LeavesOutAt(nodes, ops[..k], i);
        var node, id :| MissingIn(nodes, ops[..k], node, id) > 0;
        assert MissingIn(nodes, ops, node, id) > 0;
      }
      if node, id :| MissingIn(nodes, ops, node, id) > 0 {
        if MissingIn(nodes, ops[..k], node, id) > 0 {
          assert exists x, y {:trigger MissingIn(nodes, ops[..k], x, y)} :: MissingIn(nodes, ops[..k], x, y) > 0;
          var i: nat :| LeavesOutAt(nodes, ops[..k], i);
          assert LeavesOutAt(nodes, ops, i);
        } else {
          assert LeavesOutAt(nodes, ops, k);
        }
      }
    }
  }

  lemma SameLeavesOut(nodes: seq<NodeId>, ops: seq<Op>)
    requires ops != []
    ensures forall i: nat :: i < |ops| - 1 ==>
              (LeavesOutAt(nodes, ops, i) <==> LeavesOutAt(nodes, ops[..|ops| - 1], i))
  {
    hide Run, LeavesOut;
    forall i: nat | i < |ops| - 1
      ensures LeavesOutAt(nodes, ops, i) <==> LeavesOutAt(nodes, ops[..|ops| - 1], i)
    {
      assert ops[..|ops| - 1][..i] == ops[..i];
    }
  }

  /** Every recorded message is in the script of its source. */
  ghost predicate InScripts(w: World) {
    forall m :: m in Shown(w) ==> AsInstruction(m) in Of(w.e.scripts, m.source)
  }

  lemma DoInScripts(w: World, op: Op)
    requires Coherent(w) && InScripts(w) && !LeavesOut(w, op)
    ensures InScripts(Do(w, op))
  {
    hide Laid, NodesDistinct, Tells, AddMessage, FromNode, Laying, Apply, Recorded;
    var w' := Do(w, op);
    forall m | m in Shown(w')
      ensures AsInstruction(m) in Of(w'.e.scripts, m.source)
    {
      DoLays(w, op, m.source);
      NewOnRecord(w, op, m);
      if m !in Shown(w) {
        FromNodeHas(w.phases[op.k].messages, m);
        LayingHas(w, op.k, m);
      }
    }
  }

  lemma LayingHas(w: World, k: nat, m: Message)
    requires k < |w.phases| && m.source in w.e.active && AsInstruction(m) in FromNode(w.phases[k].messages, m.source)
    ensures AsInstruction(m) in Laying(w, Close(k), m.source)
  {}

  /** If nothing is left out, what is new on the record comes from applying a phase. */
  lemma NewOnRecord(w: World, op: Op, m: Message)
    requires Coherent(w) && !LeavesOut(w, op) && m in Shown(Do(w, op))
    ensures m in Shown(w) || (op.Close? && op.k < |w.phases| && m in w.phases[op.k].messages)
  {
    hide Tells, AddMessage, Recorded, Apply, NodesDistinct, Sent;
    match op
    case Open(warmup, cooldown) => RecordedLonger(w.phases, NewPhase(w.e, warmup, cooldown), w.record);
    case PublishOne(k, delay, source, size, topic) =>
      AddFrame(w, k, delay, source, size, topic);
      if k < |w.phases| && source in w.phases[k].activeIds {
        AddTells(w.e, w.phases[k], delay, source, size, topic);
        var p := AddMessage(w.e, w.phases[k], delay, source, size, topic).value.1;
        RecordedGrows(w.phases, w.record, k, p, Message(w.e.nextId, source, size, topic, MainEnd(w.e, p)), 0, 0);
      }
    case Close(k) =>
      if k < |w.phases| {
        RecordOneMore(w.phases, w.record, k);
      }
    case _ =>
  }

  lemma {:induction false} RunInScripts(nodes: seq<NodeId>, ops: seq<Op>)
    requires NoDuplicates(nodes) && forall i: nat :: !LeavesOutAt(nodes, ops, i)
    ensures InScripts(Run(nodes, ops))
  {
    hide Do, LeavesOut, InScripts;
    if ops == [] {
      assert InScripts(World(NewExperiment(nodes), [], [])) by { StartInScripts(nodes); }
    } else {
      var k := |ops| - 1;
      SameLeavesOut(nodes, ops);
      forall i: nat
        ensures !LeavesOutAt(nodes, ops[..k], i)
      {
        if i < k {
          assert !LeavesOutAt(nodes, ops, i);
        }
      }
      RunInScripts(nodes, ops[..k]);
      RunCoherent(nodes, ops[..k]);
      assert !LeavesOutAt(nodes, ops, k);
      DoInScripts(Run(nodes, ops[..k]), ops[k]);
    }
  }

  lemma StartInScripts(nodes: seq<NodeId>)
    ensures InScripts(World(NewExperiment(nodes), [], []))
  {}

  /** Over any run the scripts publish exactly what is on the record, every message once per record and
      by its source alone, if and only if no operation left a message out. */
  lemma ScriptsPublishTheRecord(nodes: seq<NodeId>, ops: seq<Op>)
    requires NoDuplicates(nodes)
    ensures Agree(Run(nodes, ops).e.scripts, Shown(Run(nodes, ops))) <==>
            forall i: nat :: !LeavesOutAt(nodes, ops, i)
  {
    hide Run, LeavesOutAt, Publications, Sent, MissingIn, Shown;
    var w := Run(nodes, ops);
    MissingInMeans(nodes, ops);
    forall node: NodeId, id: nat
      ensures Publications(Of(w.e.scripts, node), id) + MissingIn(nodes, ops, node, id) == Sent(Shown(w), node, id)
    {
      RunBalances(nodes, ops, node, id);
    }
    if forall i: nat :: !LeavesOutAt(nodes, ops, i) {
      RunInScripts(nodes, ops);
      forall node: NodeId, id: nat
        ensures MissingIn(nodes, ops, node, id) == 0
      {}
    } else {
      var node, id :| MissingIn(nodes, ops, node, id) > 0;
      assert Publications(Of(w.e.scripts, node), id) != Sent(Shown(w), node, id);
    }
  }

  lemma RunAppend(nodes: seq<NodeId>, ops: seq<Op>, op: Op)
    ensures Run(nodes, ops + [op]) == Do(Run(nodes, ops), op)
  {
    assert (ops + [op])[..|ops|] == ops;
  }

  function OneMessage(node: NodeId): Message { Message(0, node, 1, 0, 5) }

  function OnePhase(node: NodeId): Phase {
    Phase(0, 0, map[node := [AsInstruction(OneMessage(node))]], 5, {node}, [OneMessage(node)])
  }

  function OnePublished(node: NodeId): World {
    World(Experiment(0, 1, [node], [], map[], []), [OnePhase(node)], [])
  }

  function FirstOps(node: NodeId): seq<Op> { [Activation(node), Open(0, 0), PublishOne(0, 5, node, 1, 0)] }

  /** A node is activated, a phase is opened, and one message is added. */
  lemma FirstSteps(node: NodeId)
    ensures Run([node], FirstOps(node)) == OnePublished(node)
  {
    hide Run, Do;
    var op1, op2, op3 := Activation(node), Open(0, 0), PublishOne(0, 5, node, 1, 0);
    assert Run([node], []) == World(NewExperiment([node]), [], []) by { RunNothing([node]); }
    RunAppend([node], [], op1);
    RunAppend([node], [op1], op2);
    RunAppend([node], [op1, op2], op3);
    assert [] + [op1] == [op1] && [op1] + [op2] == [op1, op2] && [op1, op2] + [op3] == FirstOps(node);
    ActivateFirst(node);
    AddFirst(node);
  }

  lemma RunNothing(nodes: seq<NodeId>)
    ensures Run(nodes, []) == World(NewExperiment(nodes), [], [])
  {}

  lemma ActivateFirst(node: NodeId)
    ensures Do(Do(World(NewExperiment([node]), [], []), Activation(node)), Open(0, 0)) ==
            World(Experiment(0, 0, [node], [], map[], []), [Phase(0, 0, map[], 0, {node}, [])], [])
  {
    assert AsSet([node]) == {node};
    assert [] + [node] == [node];
  }

  lemma AddFirst(node: NodeId)
    ensures Do(World(Experiment(0, 0, [node], [], map[], []), [Phase(0, 0, map[], 0, {node}, [])], []),
               PublishOne(0, 5, node, 1, 0)) == OnePublished(node)
  {
    var i := AsInstruction(OneMessage(node));
    assert [] + [i] == [i] && [] + [OneMessage(node)] == [OneMessage(node)];
    assert Append(map[], node, [i]) == map[node := [i]];
  }

  /** A source that leaves the active nodes before its phase is applied is on the record and in no script. */
  lemma LeaversAreSilent(node: NodeId)
    ensures var w := Run([node], FirstOps(node) + [Deactivation(node)] + [Close(0)]);
            Shown(w) == [OneMessage(node)] && Of(w.e.scripts, node) == []
  {
    hide Run;
    FirstSteps(node);
    RunAppend([node], FirstOps(node), Deactivation(node));
    RunAppend([node], FirstOps(node) + [Deactivation(node)], Close(0));
    var w := Do(OnePublished(node), Deactivation(node));
    assert w.e.active == [] && w.phases == [OnePhase(node)] && w.record == [];
    assert Do(w, Close(0)).e.scripts == map[];
    assert Do(w, Close(0)).record == [0];
    RecordOneMore([OnePhase(node)], [], 0);
    assert [] + [0] == [0] && [] + [OneMessage(node)] == [OneMessage(node)];
  }
}
